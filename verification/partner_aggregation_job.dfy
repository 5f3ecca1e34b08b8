/** `partnerAggregationJob`: one tasklet step that aggregates a time window
    and saves the rows, and the reader and processor beans declared beside
    it. A static `count`, shared by the tasklet and the processor and never
    reset, makes the tasklet throw on its first invocation and the processor
    throw while the count is 2. */
module PartnerAggregationJob {
  import opened Common
  import opened UserLog
  import opened Aggregation
  import opened AggregationRepository
  import opened AggregationService
  import opened ChunkDriver

  /** The static `count` and the aggregation table. */
  datatype State = State(count: int, table: Table)

  /** What one tasklet invocation did: `finished` is false when it threw. */
  datatype TaskletOut = TaskletOut(finished: bool, state: State)

  /** The tasklet: increment `count`; throw when it is now 1; otherwise save
      `aggregateByDateRange(start, end)` with `saveBatchData` and finish. */
  function Tasklet(s: State, logs: seq<LogRow>, start: int, end: int): (o: TaskletOut)
    ensures o.state.count == s.count + 1
    ensures !o.finished <==> s.count == 0
    ensures !o.finished ==> o.state.table == s.table
    ensures o.finished ==> o.state.table == SaveAll(s.table, QueryByRange(logs, start, end))
    ensures o.finished ==> forall i :: |s.table| <= i < |o.state.table| ==> o.state.table[i].aggregationDate == start
  {
    var count := s.count + 1;
    if count == 1 then TaskletOut(false, State(count, s.table))
    else
      var rows := AggregateByDateRange(logs, s.table, start, end).returned;
      TaskletOut(true, State(count, SaveAll(s.table, rows)))
  }

  /** `k` copies of `s`, one after the other. */
  function Repeat<T>(s: seq<T>, k: nat): (r: seq<T>)
    ensures |r| == |s| * k
  {
    if k == 0 then [] else Repeat(s, k - 1) + s
  }

  /** `k` launches of the job, each invoking the tasklet once. */
  function Launches(s: State, logs: seq<LogRow>, start: int, end: int, k: nat): State
    decreases k
  {
    if k == 0 then s else Launches(Tasklet(s, logs, start, end).state, logs, start, end, k - 1)
  }

  /** Once the count is past 0, every launch saves the window's rows again:
      nothing deletes them first, so `k` launches append `k` copies. */
  lemma {:induction false} LaunchesAfterFirst(s: State, logs: seq<LogRow>, start: int, end: int, k: nat)
    requires s.count > 0
    ensures Launches(s, logs, start, end, k) == State(s.count + k, s.table + Repeat(QueryByRange(logs, start, end), k))
    decreases k
  {
    if k > 0 {
      var rows := QueryByRange(logs, start, end);
      var s' := Tasklet(s, logs, start, end).state;
      assert s' == State(s.count + 1, s.table + rows);
      LaunchesAfterFirst(s', logs, start, end, k - 1);
      RepeatFront(rows, k);
      assert s.table + rows + Repeat(rows, k - 1) == s.table + Repeat(rows, k);
    }
  }

  lemma {:induction false} RepeatFront<T>(s: seq<T>, k: nat)
    requires k > 0
    ensures Repeat(s, k) == s + Repeat(s, k - 1)
    decreases k
  {
    if k > 1 {
      RepeatFront(s, k - 1);
    }
  }

  /** From a count of 0 the first launch throws and saves nothing; the
      second and every later launch saves the window's rows. After `k`
      launches the count is `k` and `k - 1` copies of the rows were saved. */
  lemma FirstLaunchThrows(s: State, logs: seq<LogRow>, start: int, end: int, k: nat)
    requires s.count == 0 && k > 0
    ensures !Tasklet(s, logs, start, end).finished
    ensures Tasklet(Tasklet(s, logs, start, end).state, logs, start, end).finished
    ensures Launches(s, logs, start, end, k)
         == State(k, s.table + Repeat(QueryByRange(logs, start, end), k - 1))
  {
    var s1 := Tasklet(s, logs, start, end).state;
    assert Launches(s, logs, start, end, k) == Launches(s1, logs, start, end, k - 1);
    LaunchesAfterFirst(s1, logs, start, end, k - 1);
  }

  /** `partnerAggregationItemProcessor`: throws while `count` is 2, otherwise
      passes the row through; it does not change `count`. */
  function Process(s: State, row: AggRow): ProcOut<State, AggRow>
  {
    if s.count == 2 then ProcOut(None, s) else ProcOut(Some(row), s)
  }

  /** A chunk fails at its first row while `count` is 2, and passes through
      unchanged otherwise. */
  lemma {:induction false} ProcessChunkRows(s: State, chunk: seq<AggRow>)
    ensures ProcessChunk(s, chunk, Process)
         == if s.count == 2 && |chunk| > 0 then ChunkOut(None, s) else ChunkOut(Some(chunk), s)
  {
    if |chunk| > 0 && s.count != 2 {
      ProcessChunkRows(s, chunk[1..]);
      assert chunk == [chunk[0]] + chunk[1..];
    }
  }

  /** `LoggingItemReader`: read from the delegate, log, return the item. */
  function Logging<S, T>(delegate: S -> ReadOut<S, T>): S -> ReadOut<S, T> {
    s => var o := delegate(s); ReadOut(o.item, o.next)
  }

  /** The logging wrapper returns exactly what its delegate returns, nulls
      included, call after call. */
  lemma {:induction false} LoggingTransparent<S, T>(delegate: S -> ReadOut<S, T>, s: S, k: nat)
    ensures ReadsWith(Logging(delegate), s, k) == ReadsWith(delegate, s, k)
    decreases k
  {
    if k > 0 {
      LoggingTransparent(delegate, delegate(s).next, k - 1);
    }
  }

  /** `partnerAggregationListItemReader`: the logging wrapper over a list
      reader of `aggregateByDateRange(start, end)`. It returns the window's
      rows in order, then null. */
  lemma ListItemReaderYields(logs: seq<LogRow>, table: Table, start: int, end: int, k: nat)
    ensures var rows := AggregateByDateRange(logs, table, start, end).returned;
      forall i :: 0 <= i < k ==>
        ReadsWith(Logging(ListRead), ListReader(rows, 0), k)[i] == if i < |rows| then Some(rows[i]) else None
  {
    var rows := AggregateByDateRange(logs, table, start, end).returned;
    LoggingTransparent(ListRead, ListReader(rows, 0), k);
    ListReaderYields(rows, 0, k);
  }
}
