/** `exceptionJob`: the hundred mock users in chunks of 10, through a
    processor that counts its calls and throws on calls 51 to 60, into the
    `user_entity` table. */
module ExceptionJob {
  import opened Common
  import opened Users
  import opened ChunkDriver

  const ChunkSize: nat := 10

  /** The processor's call counter and the entity table. */
  datatype JobState = JobState(count: int, table: seq<UserEntity>)

  /** The calls on which `userExceptionProcessor` throws. */
  predicate FailingCall(count: int) {
    50 < count <= 60
  }

  /** `userExceptionProcessor`: the counter goes up on every call, including
      the ones that throw. */
  function ExceptionProcess(s: JobState, dto: UserDto): ProcOut<JobState, UserEntity>
  {
    var count := s.count + 1;
    if FailingCall(count) then ProcOut(None, s.(count := count))
    else ProcOut(Some(ToEntity(dto)), s.(count := count))
  }

  /** The JPA writer: persists every entity of the chunk. */
  function ExceptionWrite(s: JobState, entities: seq<UserEntity>): WriteOut<JobState> {
    WriteOut(true, s.(table := s.table + entities))
  }

  /** How many of the first `calls` calls throw. */
  function FailingCalls(calls: nat): nat {
    if calls == 0 then 0 else FailingCalls(calls - 1) + (if FailingCall(calls) then 1 else 0)
  }

  /** None of the first 50 calls throws, the next ten all do, and no call
      after the 60th ever does again: exactly ten calls fail in all. */
  lemma {:induction false} FailingCallsWindow(calls: nat)
    ensures FailingCalls(calls) == if calls <= 50 then 0 else if calls <= 60 then calls - 50 else 10
  {
    if calls > 0 {
      FailingCallsWindow(calls - 1);
    }
  }

  /** Processing a chunk while the counter stays at or below 50 succeeds and
      advances the counter by the chunk's size. */
  lemma {:induction false} ProcessChunkBeforeWindow(s: JobState, chunk: seq<UserDto>)
    requires s.count + |chunk| <= 50
    ensures ProcessChunk(s, chunk, ExceptionProcess)
         == ChunkOut(Some(Map(chunk, ToEntity)), s.(count := s.count + |chunk|))
    decreases |chunk|
  {
    if |chunk| > 0 {
      ProcessChunkBeforeWindow(s.(count := s.count + 1), chunk[1..]);
      assert Map(chunk, ToEntity) == [ToEntity(chunk[0])] + Map(chunk[1..], ToEntity);
    }
  }

  /** Chunks whose items all come before call 51 are all written. */
  lemma {:induction false} StepBeforeWindow(s: JobState, chunks: seq<seq<UserDto>>)
    requires s.count + |Flatten(chunks)| <= 50
    ensures RunStep(s, chunks, ExceptionProcess, ExceptionWrite, 1)
         == StepOut(Completed, JobState(s.count + |Flatten(chunks)|, s.table + Map(Flatten(chunks), ToEntity)), |chunks|)
    decreases |chunks|
  {
    if |chunks| > 0 {
      assert Flatten(chunks) == chunks[0] + Flatten(chunks[1..]);
      ProcessChunkBeforeWindow(s, chunks[0]);
      var s' := JobState(s.count + |chunks[0]|, s.table + Map(chunks[0], ToEntity));
      assert TryChunk(s, chunks[0], ExceptionProcess, 1) == ChunkOut(Some(Map(chunks[0], ToEntity)), s.(count := s'.count));
      StepBeforeWindow(s', chunks[1..]);
      assert Map(Flatten(chunks), ToEntity) == Map(chunks[0], ToEntity) + Map(Flatten(chunks[1..]), ToEntity);
      assert s'.table + Map(Flatten(chunks[1..]), ToEntity) == s.table + Map(Flatten(chunks), ToEntity);
    } else {
      assert s.table + Map(Flatten(chunks), ToEntity) == s.table;
    }
  }

  /** With the counter at 50, the next chunk fails on its first item: call 51. */
  lemma StepAtWindow(s: JobState, chunks: seq<seq<UserDto>>)
    requires s.count == 50 && |chunks| > 0 && |chunks[0]| > 0
    ensures RunStep(s, chunks, ExceptionProcess, ExceptionWrite, 1) == StepOut(Failed, s.(count := 51), 0)
  {
    assert ProcessChunk(s, chunks[0], ExceptionProcess) == ChunkOut(None, s.(count := 51));
  }

  /** The chunks of the mock users: the first five hold users 1 to 50, the
      sixth holds users 51 to 60. */
  lemma MockUserChunks()
    ensures var users := MockUsers();
      && Chunks(users, ChunkSize) == Chunks(users[..50], ChunkSize) + Chunks(users[50..], ChunkSize)
      && |Chunks(users[..50], ChunkSize)| == 5
      && Chunks(users[50..], ChunkSize)[0] == users[50..60]
  {
    var users := MockUsers();
    assert Times(ChunkSize, 5) == 50;
    assert users == users[..50] + users[50..];
    ChunksAppend(users[..50], users[50..], ChunkSize, 5);
    ChunksLast(users[..50], ChunkSize);
    ChunksSizes(users[..50], ChunkSize);
    assert users[50..][..ChunkSize] == users[50..60];
  }

  /** One call per item in read order: item `i` (0-based) is processed by
      call `i + 1`, which throws exactly for users 51 to 60, the sixth chunk. */
  lemma FailingItemsAreSixthChunk(i: nat)
    requires i < MockUserCount
    ensures FailingCall(i + 1) <==> 50 <= i < 60
    ensures FailingCall(i + 1) <==> MockUsers()[i] in Chunks(MockUsers(), ChunkSize)[5]
  {
    var users := MockUsers();
    MockUserChunks();
    var sixth := Chunks(users, ChunkSize)[5];
    assert sixth == users[50..60];
    if MockUsers()[i] in sixth {
      var j :| 50 <= j < 60 && users[j] == users[i];
      MockUsersDistinct(j + 1, i + 1);
    }
  }

  /** The first run from a zero counter writes users 1 to 50 (five chunks)
      and fails on user 51, with the counter at 51. */
  lemma FirstRun(table: seq<UserEntity>)
    ensures RunStep(JobState(0, table), Chunks(MockUsers(), ChunkSize), ExceptionProcess, ExceptionWrite, 1)
         == StepOut(Failed, JobState(51, table + Map(MockUsers()[..50], ToEntity)), 5)
  {
    var users := MockUsers();
    MockUserChunks();
    var first := Chunks(users[..50], ChunkSize);
    ChunksFlatten(users[..50], ChunkSize);
    StepBeforeWindow(JobState(0, table), first);
    var mid := JobState(50, table + Map(users[..50], ToEntity));
    ChunksSizes(users[50..], ChunkSize);
    StepAtWindow(mid, Chunks(users[50..], ChunkSize));
    RunStepAppend(JobState(0, table), first, Chunks(users[50..], ChunkSize), ExceptionProcess, ExceptionWrite, 1);
  }
}
