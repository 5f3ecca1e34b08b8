/** `exceptionRetryJob`: the integers 1 to 10 from an index-based reader, in
    chunks of 4, through a processor that always throws on 5 and counts those
    throws, into a writer that only logs. The step retries a failing chunk;
    the number of attempts is a parameter. */
module ExceptionRetryJob {
  import opened Common
  import opened ChunkDriver

  const MockList: seq<int> := [1, 2, 3, 4, 5, 6, 7, 8, 9, 10]

  const ChunkSize: nat := 4

  /** The anonymous `itemReader` (`mockList.get(index++)` while
      `index < mockList.size()`, else null) is a list reader over the mock
      list: it returns 1, 2, ..., 10 in order, then null on every later call. */
  lemma ReaderYieldsOneToTen(k: nat)
    ensures forall i :: 0 <= i < k ==>
      ReadsWith(ListRead, ListReader(MockList, 0), k)[i] == if i < 10 then Some(i + 1) else None
  {
    ListReaderYields(MockList, 0, k);
    assert forall i :: 0 <= i < 10 ==> MockList[i] == i + 1;
  }

  /** `itemProcessor`; the state is its `retryCount`. */
  function RetryProcess(retryCount: int, item: int): ProcOut<int, int>
  {
    if item == 5 then ProcOut(None, retryCount + 1) else ProcOut(Some(item), retryCount)
  }

  /** `itemWriter`: logs only, so the job state is unchanged. */
  function LogWrite(retryCount: int, items: seq<int>): WriteOut<int> {
    WriteOut(true, retryCount)
  }

  /** Every attempt at a chunk that starts with 5 throws at once and adds one
      to `retryCount`: after `k` attempts it has grown by exactly `k`. */
  lemma {:induction false} AttemptsOnFive(retryCount: int, chunk: seq<int>, k: nat)
    requires |chunk| > 0 && chunk[0] == 5 && k > 0
    ensures TryChunk(retryCount, chunk, RetryProcess, k) == ChunkOut(None, retryCount + k)
    decreases k
  {
    assert ProcessChunk(retryCount, chunk, RetryProcess) == ChunkOut(None, retryCount + 1);
    if k > 1 {
      AttemptsOnFive(retryCount + 1, chunk, k - 1);
    }
  }

  /** A chunk without 5 passes through unchanged. */
  lemma {:induction false} ProcessWithoutFive(retryCount: int, chunk: seq<int>)
    requires 5 !in chunk
    ensures ProcessChunk(retryCount, chunk, RetryProcess) == ChunkOut(Some(chunk), retryCount)
  {
    if |chunk| > 0 {
      ProcessWithoutFive(retryCount, chunk[1..]);
      assert chunk == [chunk[0]] + chunk[1..];
    }
  }

  /** Chunk size 4 over 1..10: [1..4], [5..8], [9, 10]; 5 opens the second. */
  lemma ChunksOfFour()
    ensures Chunks(MockList, ChunkSize) == [[1, 2, 3, 4], [5, 6, 7, 8], [9, 10]]
  {
    var second := MockList[ChunkSize..];
    assert MockList[..ChunkSize] == [1, 2, 3, 4] && second == [5, 6, 7, 8, 9, 10];
    assert second[..ChunkSize] == [5, 6, 7, 8] && second[ChunkSize..] == [9, 10];
    assert Chunks([9, 10], ChunkSize) == [[9, 10]];
    assert Chunks(second, ChunkSize) == [[5, 6, 7, 8], [9, 10]];
  }

  /** Whatever the number of attempts, the step fails on the second chunk
      after writing the first, and `retryCount` has grown by the number of
      attempts: the failure on 5 does not depend on the counter, so retrying
      cannot get past it. */
  lemma StepNeverCompletes(retryCount: int, attempts: nat)
    requires attempts > 0
    ensures RunStep(retryCount, Chunks(MockList, ChunkSize), RetryProcess, LogWrite, attempts)
         == StepOut(Failed, retryCount + attempts, 1)
  {
    ChunksOfFour();
    ProcessWithoutFive(retryCount, [1, 2, 3, 4]);
    assert TryChunk(retryCount, [1, 2, 3, 4], RetryProcess, attempts) == ChunkOut(Some([1, 2, 3, 4]), retryCount);
    AttemptsOnFive(retryCount, [5, 6, 7, 8], attempts);
    var chunks := [[1, 2, 3, 4], [5, 6, 7, 8], [9, 10]];
    assert chunks[1..][0] == [5, 6, 7, 8];
  }
}
