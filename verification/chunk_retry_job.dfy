/** `testJob` of the resume-and-idempotence test: a list reader over 1 to 10,
    chunks of 3, an identity processor, and a writer that upserts
    (`MERGE INTO`) each item as `(id, "val" + id)` into `test_table`. The
    writer throws on the chunk holding 4 while the `failedData` list is
    empty, after copying the chunk into that list, so only the first launch
    fails there. The job state is the table, keyed by its primary key `id`,
    and the `failedData` list. */
module ChunkRetryJob {
  import opened Common
  import opened Digits
  import opened ChunkDriver

  /** `test_table (id INT PRIMARY KEY, "value" VARCHAR(100))` and the static
      `failedData` list the test shares with the writer. */
  datatype State = State(table: map<nat, string>, failedData: seq<nat>)

  /** The test's `setup`: the table emptied, `failedData` cleared. */
  function Setup(s: State): State
  {
    State(map[], [])
  }

  const Items: seq<nat> := [1, 2, 3, 4, 5, 6, 7, 8, 9, 10]

  const FirstChunk: seq<nat> := [1, 2, 3]

  const SecondChunk: seq<nat> := [4, 5, 6]

  const ChunkSize: nat := 3

  /** The value the writer stores for `item`. */
  function Value(item: nat): string {
    "val" + Decimal(item)
  }

  /** `MERGE INTO test_table (id, "value") VALUES (?, ?)` for each item in
      turn: insert the row, or overwrite the one with that id. */
  function Merge(t: map<nat, string>, items: seq<nat>): map<nat, string>
    decreases |items|
  {
    if |items| == 0 then t else Merge(t[items[0] := Value(items[0])], items[1..])
  }

  /** After the upserts the table holds its old ids and the merged ones; a
      merged id maps to its value, every other row is untouched. */
  lemma {:induction false} MergeContents(t: map<nat, string>, items: seq<nat>)
    ensures forall k :: k in Merge(t, items) <==> k in t || k in items
    ensures forall k :: k in Merge(t, items) ==>
      Merge(t, items)[k] == if k in items then Value(k) else t[k]
    decreases |items|
  {
    if |items| > 0 {
      var t' := t[items[0] := Value(items[0])];
      MergeContents(t', items[1..]);
      assert forall k :: k in items <==> k == items[0] || k in items[1..];
    }
  }

  /** Upserting the same items again changes nothing: a replayed chunk leaves
      no duplicate. */
  lemma MergeIdempotent(t: map<nat, string>, items: seq<nat>)
    ensures Merge(Merge(t, items), items) == Merge(t, items)
  {
    MergeContents(t, items);
    MergeContents(Merge(t, items), items);
  }

  /** Upserting `a` then `b` is upserting `a + b`. */
  lemma {:induction false} MergeAppend(t: map<nat, string>, a: seq<nat>, b: seq<nat>)
    ensures Merge(Merge(t, a), b) == Merge(t, a + b)
    decreases |a|
  {
    if |a| > 0 {
      assert (a + b)[0] == a[0] && (a + b)[1..] == a[1..] + b;
      MergeAppend(t[a[0] := Value(a[0])], a[1..], b);
    } else {
      assert a + b == b;
    }
  }

  /** A table whose ids are exactly some distinct items has one row per item. */
  lemma RowCount(t: map<nat, string>, items: seq<nat>)
    requires NoDuplicates(items)
    requires forall k :: k in t <==> k in items
    ensures |t| == |items|
  {
    NoDuplicatesCard(items);
    assert t.Keys == set i | 0 <= i < |items| :: items[i];
  }

  /** `processor(item -> item)` */
  function Identity(s: State, item: nat): ProcOut<State, nat>
  {
    ProcOut(Some(item), s)
  }

  /** The writer. It fails exactly on a chunk holding 4 while no failure has
      been recorded, and then records the chunk and leaves the table alone;
      otherwise it upserts the chunk and leaves `failedData` alone. */
  function Write(s: State, items: seq<nat>): WriteOut<State>
  {
    if 4 in items && |s.failedData| == 0 then WriteOut(false, s.(failedData := s.failedData + items))
    else WriteOut(true, s.(table := Merge(s.table, items)))
  }

  /** The writer fails at most once until `failedData` is cleared: a failing
      write records its chunk and leaves the table alone, and every write
      after it succeeds, upserting its chunk into the untouched table. */
  lemma WriteFailsOnce(s: State, failed: seq<nat>, next: seq<nat>)
    requires !Write(s, failed).ok
    ensures 4 in failed
    ensures Write(s, failed).state == State(s.table, failed)
    ensures Write(Write(s, failed).state, next) == WriteOut(true, State(Merge(s.table, next), failed))
  {
  }

  /** Chunks of 3 over 1..10: [1, 2, 3], [4, 5, 6], [7, 8, 9], [10]. */
  lemma ChunksOfThree()
    ensures Chunks(Items, ChunkSize) == [[1, 2, 3], [4, 5, 6], [7, 8, 9], [10]]
  {
    var s1 := Items[3..];
    var s2 := s1[3..];
    var s3 := s2[3..];
    assert Items[..3] == [1, 2, 3] && s1 == [4, 5, 6, 7, 8, 9, 10];
    assert s1[..3] == [4, 5, 6] && s2 == [7, 8, 9, 10];
    assert s2[..3] == [7, 8, 9] && s3 == [10];
    assert Chunks(s3, ChunkSize) == [[10]];
    assert Chunks(s2, ChunkSize) == [[7, 8, 9], [10]];
    assert Chunks(s1, ChunkSize) == [[4, 5, 6], [7, 8, 9], [10]];
  }

  /** The state after the first launch. */
  const AfterFirst: State := State(Merge(map[], FirstChunk), SecondChunk)

  /** The first launch writes [1, 2, 3] from the state `setup` leaves. */
  lemma FirstChunkWritten(s: State)
    ensures var c := TryChunk(Setup(s), FirstChunk, Identity, 1);
      c.outputs == Some(FirstChunk) && Write(c.state, c.outputs.value) == WriteOut(true, State(Merge(map[], FirstChunk), []))
  {
    ProcessIdentity(Setup(s), FirstChunk);
  }

  /** and then fails writing [4, 5, 6], recording it. */
  lemma SecondChunkFails()
    ensures var c := TryChunk(State(Merge(map[], FirstChunk), []), SecondChunk, Identity, 1);
      c.outputs == Some(SecondChunk) && Write(c.state, c.outputs.value) == WriteOut(false, AfterFirst)
  {
    ProcessIdentity(State(Merge(map[], FirstChunk), []), SecondChunk);
    assert SecondChunk[0] == 4;
    assert [] + SecondChunk == SecondChunk;
  }

  /** The first chunk's three rows. */
  lemma AfterFirstRows()
    ensures |AfterFirst.table| == 3 && |AfterFirst.failedData| > 0
  {
    MergeContents(map[], FirstChunk);
    RowCount(AfterFirst.table, FirstChunk);
  }

  /** First launch, after `setup`: the first chunk is written, the second
      fails in the writer, so the step fails with one chunk committed, three
      rows in the table, and the failed chunk recorded. */
  lemma FirstLaunch(s: State)
    ensures RunStep(Setup(s), Chunks(Items, ChunkSize), Identity, Write, 1) == StepOut(Failed, AfterFirst, 1)
    ensures |AfterFirst.table| == 3 && |AfterFirst.failedData| > 0
  {
    ChunksOfThree();
    var chunks := Chunks(Items, ChunkSize);
    assert chunks[0] == FirstChunk && chunks[1..][0] == SecondChunk;
    FirstChunkWritten(s);
    SecondChunkFails();
    AfterFirstRows();
  }

  /** A chunk passes the identity processor unchanged. */
  lemma {:induction false} ProcessIdentity(s: State, chunk: seq<nat>)
    ensures ProcessChunk(s, chunk, Identity) == ChunkOut(Some(chunk), s)
  {
    if |chunk| > 0 {
      ProcessIdentity(s, chunk[1..]);
      assert chunk == [chunk[0]] + chunk[1..];
    }
  }

  /** Once a failure is recorded, every chunk is written: a step over any
      chunks completes, upserting them in order. */
  lemma {:induction false} StepAfterFailure(s: State, chunks: seq<seq<nat>>)
    requires |s.failedData| > 0
    ensures RunStep(s, chunks, Identity, Write, 1)
         == StepOut(Completed, State(Merge(s.table, Flatten(chunks)), s.failedData), |chunks|)
    decreases |chunks|
  {
    if |chunks| > 0 {
      ProcessIdentity(s, chunks[0]);
      var s' := State(Merge(s.table, chunks[0]), s.failedData);
      StepAfterFailure(s', chunks[1..]);
      MergeAppend(s.table, chunks[0], Flatten(chunks[1..]));
    }
  }

  /** The second launch with the same parameters completes with the ten rows,
      whether the step resumes at the failed chunk or replays from the first:
      the replayed first chunk is upserted onto the same rows. */
  lemma SecondLaunch()
    ensures var chunks := Chunks(Items, ChunkSize);
      && RunStep(AfterFirst, chunks[1..], Identity, Write, 1).status == Completed
      && RunStep(AfterFirst, chunks[1..], Identity, Write, 1).state.table == Merge(map[], Items)
      && RunStep(AfterFirst, chunks, Identity, Write, 1).status == Completed
      && RunStep(AfterFirst, chunks, Identity, Write, 1).state.table == Merge(map[], Items)
    ensures forall k :: k in Merge(map[], Items) <==> 1 <= k <= 10
    ensures |Merge(map[], Items)| == 10
  {
    ChunksOfThree();
    var chunks := Chunks(Items, ChunkSize);
    var tail := Flatten(chunks[1..]);
    ChunksFlatten(Items, ChunkSize);
    StepAfterFailure(AfterFirst, chunks[1..]);
    StepAfterFailure(AfterFirst, chunks);
    assert chunks == [FirstChunk] + chunks[1..];
    assert Items == FirstChunk + tail;
    MergeAppend(map[], FirstChunk, tail);
    MergeAppend(AfterFirst.table, FirstChunk, tail);
    MergeIdempotent(map[], FirstChunk);
    ItemsContents();
  }

  /** The ids 1 to 10 are the items. */
  lemma ItemsAreOneToTen()
    ensures forall k :: k in Items <==> 1 <= k <= 10
  {
    assert forall i :: 0 <= i < |Items| ==> Items[i] == i + 1;
    forall k | 1 <= k <= 10 ensures k in Items {
      assert Items[k - 1] == k;
    }
  }

  /** Upserting distinct ids into an empty table makes one row per id. */
  lemma MergeIntoEmpty(t: map<nat, string>, items: seq<nat>)
    requires |t| == 0 && NoDuplicates(items)
    ensures forall k :: k in Merge(t, items) <==> k in items
    ensures |Merge(t, items)| == |items|
  {
    MergeContents(t, items);
    RowCount(Merge(t, items), items);
  }

  /** The ids 1 to 10, each once. */
  lemma ItemsContents()
    ensures forall k :: k in Merge(map[], Items) <==> 1 <= k <= 10
    ensures |Merge(map[], Items)| == 10
  {
    ItemsAreOneToTen();
    assert NoDuplicates(Items) by {
      assert forall i :: 0 <= i < |Items| ==> Items[i] == i + 1;
    }
    MergeIntoEmpty(map[], Items);
  }
}
