/** The user records of the `userJob` and `exceptionJob` fixtures: the DTO the
    readers produce (name and e-mail), the `UserEntity` row the processors
    build from it, and the hundred mock users both readers are given. */
module Users {
  import opened Common
  import opened Digits

  datatype UserDto = UserDto(name: string, email: string)

  /** `UserEntity`; `id` stays null until the database assigns one. */
  datatype UserEntity = UserEntity(id: Option<int>, name: string, email: string)

  /** The `i`-th mock user: "User" + i, "user" + i + "@example.com". */
  function MockUser(i: nat): UserDto {
    UserDto("User" + Decimal(i), "user" + Decimal(i) + "@example.com")
  }

  const MockUserCount: nat := 100

  /** The mock list, users 1 to 100 in order. */
  function MockUsers(): seq<UserDto> {
    seq(MockUserCount, i requires 0 <= i => MockUser(i + 1))
  }

  /** The loop of `userReader` and `userExceptionReader`. */
  method BuildMockUsers() returns (mockData: seq<UserDto>)
    ensures |mockData| == MockUserCount
    ensures forall i :: 0 <= i < |mockData| ==> mockData[i] == MockUser(i + 1)
    ensures mockData == MockUsers()
  {
    mockData := [];
    var i := 1;
    while i <= MockUserCount
      invariant 1 <= i <= MockUserCount + 1
      invariant |mockData| == i - 1
      invariant forall k :: 0 <= k < |mockData| ==> mockData[k] == MockUser(k + 1)
    {
      mockData := mockData + [MockUser(i)];
      i := i + 1;
    }
  }

  /** The user number can be read back from the name, so no two mock users
      share a name, and the e-mail is determined by the name. */
  lemma MockUserNameParses(i: nat)
    ensures |MockUser(i).name| > 4 && MockUser(i).name[..4] == "User"
    ensures AllDigits(MockUser(i).name[4..]) && ParseDigits(MockUser(i).name[4..]) == i
    ensures MockUser(i).email == "user" + MockUser(i).name[4..] + "@example.com"
  {
    var name := MockUser(i).name;
    assert name[..4] == "User" && name[4..] == Decimal(i);
    ParseDecimal(i);
  }

  lemma MockUsersDistinct(i: nat, j: nat)
    requires MockUser(i).name == MockUser(j).name
    ensures i == j
  {
    MockUserNameParses(i);
    MockUserNameParses(j);
  }

  /** `new UserEntity(null, dto.getName(), dto.getEmail())`: the entity keeps
      the DTO's fields, so the DTO can be recovered from it. */
  function ToEntity(dto: UserDto): (e: UserEntity)
    ensures e.id.None? && UserDto(e.name, e.email) == dto
  {
    UserEntity(None, dto.name, dto.email)
  }
}
