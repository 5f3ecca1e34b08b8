/** `userJob`: the hundred mock users, in chunks of 10, mapped to entities by
    `userProcessor` and appended to the `user_entity` table by the JPA writer.
    Database-assigned ids are not modelled. */
module UserJob {
  import opened Common
  import opened Users
  import opened ChunkDriver

  const ChunkSize: nat := 10

  type UserTable = seq<UserEntity>

  /** `userProcessor`: never throws, never filters. */
  function UserProcess(t: UserTable, dto: UserDto): ProcOut<UserTable, UserEntity> {
    ProcOut(Some(ToEntity(dto)), t)
  }

  /** The JPA writer: persists every entity of the chunk. */
  function UserWrite(t: UserTable, entities: seq<UserEntity>): WriteOut<UserTable> {
    WriteOut(true, t + entities)
  }

  /** Chunk size 10 over the 100 mock users gives ten chunks, all full. */
  lemma UserChunks()
    ensures |Chunks(MockUsers(), ChunkSize)| == 10
    ensures forall i :: 0 <= i < 10 ==> |Chunks(MockUsers(), ChunkSize)[i]| == ChunkSize
  {
    ChunksLast(MockUsers(), ChunkSize);
    ChunksSizes(MockUsers(), ChunkSize);
  }

  /** A chunk is processed into the entities of its DTOs, in order. */
  lemma {:induction false} ProcessChunkMaps(t: UserTable, chunk: seq<UserDto>)
    ensures ProcessChunk(t, chunk, UserProcess) == ChunkOut(Some(Map(chunk, ToEntity)), t)
  {
    if |chunk| > 0 {
      ProcessChunkMaps(t, chunk[1..]);
      assert Map(chunk, ToEntity) == [ToEntity(chunk[0])] + Map(chunk[1..], ToEntity);
    }
  }

  /** The step completes over any chunks, and the table gains the entities
      of all their items, in read order. */
  lemma {:induction false} UserStepCompletes(t: UserTable, chunks: seq<seq<UserDto>>)
    ensures RunStep(t, chunks, UserProcess, UserWrite, 1)
         == StepOut(Completed, t + Map(Flatten(chunks), ToEntity), |chunks|)
    decreases |chunks|
  {
    if |chunks| > 0 {
      ProcessChunkMaps(t, chunks[0]);
      assert TryChunk(t, chunks[0], UserProcess, 1) == ChunkOut(Some(Map(chunks[0], ToEntity)), t);
      var t' := t + Map(chunks[0], ToEntity);
      UserStepCompletes(t', chunks[1..]);
      assert Flatten(chunks) == chunks[0] + Flatten(chunks[1..]);
      assert Map(Flatten(chunks), ToEntity) == Map(chunks[0], ToEntity) + Map(Flatten(chunks[1..]), ToEntity);
      assert t' + Map(Flatten(chunks[1..]), ToEntity) == t + Map(Flatten(chunks), ToEntity);
      assert UserWrite(t, Map(chunks[0], ToEntity)) == WriteOut(true, t');
    } else {
      assert t + Map(Flatten(chunks), ToEntity) == t;
    }
  }

  /** `userJob` completes and persists one entity per mock user, in order. */
  lemma UserJobPersistsAll(t: UserTable)
    ensures RunStep(t, Chunks(MockUsers(), ChunkSize), UserProcess, UserWrite, 1)
         == StepOut(Completed, t + Map(MockUsers(), ToEntity), 10)
  {
    UserChunks();
    ChunksFlatten(MockUsers(), ChunkSize);
    UserStepCompletes(t, Chunks(MockUsers(), ChunkSize));
  }
}
