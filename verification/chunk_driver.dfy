/** A minimal chunk-oriented step, just enough to state what the repository's
    job fixtures promise. It is scaffolding, not the batch framework's
    algorithm: read everything, cut it into chunks of `n`, and for each chunk
    in order process every item and then write the chunk, stopping the step
    at the first exception. A processing failure may be retried a fixed
    number of times, with whatever state the failed attempt left behind.
    The job's mutable state (counters, tables) is one value of type `S`
    threaded through the processor and the writer. */
module ChunkDriver {
  import opened Common

  // ---------------------------------------------------------------------------
  // Chunks

  function Flatten<T>(ss: seq<seq<T>>): seq<T> {
    if |ss| == 0 then [] else ss[0] + Flatten(ss[1..])
  }

  lemma {:induction false} FlattenAppend<T>(a: seq<seq<T>>, b: seq<seq<T>>)
    ensures Flatten(a + b) == Flatten(a) + Flatten(b)
  {
    if |a| > 0 {
      assert (a + b)[1..] == a[1..] + b;
      FlattenAppend(a[1..], b);
    } else {
      assert a + b == b;
    }
  }

  /** The input cut into consecutive chunks of `n` items. */
  function Chunks<T>(s: seq<T>, n: nat): seq<seq<T>>
    requires n > 0
    decreases |s|
  {
    if |s| == 0 then [] else if |s| <= n then [s] else [s[..n]] + Chunks(s[n..], n)
  }

  /** Chunking loses and invents nothing: the chunks, concatenated, are the input. */
  lemma {:induction false} ChunksFlatten<T>(s: seq<T>, n: nat)
    requires n > 0
    ensures Flatten(Chunks(s, n)) == s
    decreases |s|
  {
    if |s| > n {
      var rest := Chunks(s[n..], n);
      ChunksFlatten(s[n..], n);
      assert ([s[..n]] + rest)[1..] == rest;
      assert s == s[..n] + s[n..];
    } else if |s| > 0 {
      assert Flatten([s]) == s + Flatten([]);
    }
  }

  /** No chunk is empty or longer than `n`, and all but the last hold exactly `n`. */
  lemma {:induction false} ChunksSizes<T>(s: seq<T>, n: nat)
    requires n > 0
    ensures forall i :: 0 <= i < |Chunks(s, n)| ==> 0 < |Chunks(s, n)[i]| <= n
    ensures forall i :: 0 <= i < |Chunks(s, n)| - 1 ==> |Chunks(s, n)[i]| == n
    decreases |s|
  {
    if |s| > n {
      ChunksSizes(s[n..], n);
      var rest := Chunks(s[n..], n);
      var cs := Chunks(s, n);
      assert cs == [s[..n]] + rest;
      assert |rest| > 0;
      forall i | 0 <= i < |cs|
        ensures 0 < |cs[i]| <= n && (i < |cs| - 1 ==> |cs[i]| == n)
      {
        if i > 0 {
          assert cs[i] == rest[i - 1];
        } else {
          assert cs[0] == s[..n];
        }
      }
    }
  }

  /** All chunks but the last are full: `|s|` is `n` times the number of
      chunks before the last, plus the size of the last. */
  lemma {:induction false} ChunksLast<T>(s: seq<T>, n: nat)
    requires n > 0 && |s| > 0
    ensures var cs := Chunks(s, n); |cs| > 0 && |s| == n * (|cs| - 1) + |cs[|cs| - 1]|
    decreases |s|
  {
    if |s| > n {
      ChunksLast(s[n..], n);
      ChunksSizes(s, n);
      var rest := Chunks(s[n..], n);
      assert n * (|rest| - 1) + n == n * |rest|;
    }
  }

  /** A full first chunk is a chunk of its own. */
  lemma ChunksFullHead<T>(h: seq<T>, t: seq<T>, n: nat)
    requires n > 0 && |h| == n
    ensures Chunks(h + t, n) == [h] + Chunks(t, n)
  {
    if |t| > 0 {
      assert (h + t)[..n] == h && (h + t)[n..] == t;
    } else {
      assert h + t == h;
    }
  }

  /** `n * k`, by repeated addition. */
  function Times(n: nat, k: nat): nat {
    if k == 0 then 0 else n + Times(n, k - 1)
  }

  /** Cutting off `k` full chunks: when `a` holds `n * k` items, the chunks of
      `a + b` are the chunks of `a` followed by the chunks of `b`. */
  lemma {:induction false} ChunksAppend<T>(a: seq<T>, b: seq<T>, n: nat, k: nat)
    requires n > 0 && |a| == Times(n, k)
    ensures Chunks(a + b, n) == Chunks(a, n) + Chunks(b, n)
    decreases k
  {
    if k == 0 {
      assert a == [] && a + b == b;
    } else {
      var h, a' := a[..n], a[n..];
      ChunksAppend(a', b, n, k - 1);
      assert a == h + a' && a + b == h + (a' + b);
      ChunksFullHead(h, a', n);
      ChunksFullHead(h, a' + b, n);
    }
  }

  // ---------------------------------------------------------------------------
  // Readers

  /** A reader: each call yields an item, or `None` (null) at the end, and the
      reader's next state. */
  datatype ReadOut<S, T> = ReadOut(item: Option<T>, next: S)

  /** The items of `k` consecutive reads. */
  function ReadsWith<S, T>(read: S -> ReadOut<S, T>, s: S, k: nat): (r: seq<Option<T>>)
    ensures |r| == k
    decreases k
  {
    if k == 0 then [] else [read(s).item] + ReadsWith(read, read(s).next, k - 1)
  }

  /** A reader over a fixed list, at position `index`. */
  datatype ListReader<T> = ListReader(items: seq<T>, index: nat)

  /** The next item of the list while there is one, then null. */
  function ListRead<T>(r: ListReader<T>): ReadOut<ListReader<T>, T> {
    if r.index < |r.items| then ReadOut(Some(r.items[r.index]), r.(index := r.index + 1))
    else ReadOut(None, r)
  }

  /** A list reader at position `p` returns the list from `p` on, in order,
      then null on every later call. */
  lemma {:induction false} ListReaderYields<T>(items: seq<T>, p: nat, k: nat)
    ensures forall i :: 0 <= i < k ==>
      ReadsWith(ListRead, ListReader(items, p), k)[i] == if p + i < |items| then Some(items[p + i]) else None
    decreases k
  {
    if k > 0 {
      var r := ListReader(items, p);
      var q := if p < |items| then p + 1 else p;
      assert ListRead(r).next == ListReader(items, q);
      ListReaderYields(items, q, k - 1);
      var all := ReadsWith(ListRead, r, k);
      var rest := ReadsWith(ListRead, ListReader(items, q), k - 1);
      assert all == [ListRead(r).item] + rest;
      forall i | 0 < i < k
        ensures all[i] == if p + i < |items| then Some(items[p + i]) else None
      {
        assert all[i] == rest[i - 1];
      }
    }
  }

  // ---------------------------------------------------------------------------
  // One step

  datatype Status = Completed | Failed

  /** What processing one item produced: the output, or `None` when the
      processor threw; and the job state afterwards. */
  datatype ProcOut<S, U> = ProcOut(result: Option<U>, state: S)

  /** Whether the writer returned normally, and the job state afterwards. */
  datatype WriteOut<S> = WriteOut(ok: bool, state: S)

  /** The outputs of a whole chunk, or `None` if some item threw. */
  datatype ChunkOut<S, U> = ChunkOut(outputs: Option<seq<U>>, state: S)

  /** Process the items of a chunk in order, stopping at the first exception. */
  function ProcessChunk<S, T, U>(s: S, chunk: seq<T>, process: (S, T) -> ProcOut<S, U>): (c: ChunkOut<S, U>)
    ensures c.outputs.Some? ==> |c.outputs.value| == |chunk|
  {
    if |chunk| == 0 then ChunkOut(Some([]), s)
    else
      var o := process(s, chunk[0]);
      if o.result.None? then ChunkOut(None, o.state)
      else
        var rest := ProcessChunk(o.state, chunk[1..], process);
        if rest.outputs.None? then rest else ChunkOut(Some([o.result.value] + rest.outputs.value), rest.state)
  }

  /** Process a chunk, attempting it again after a failure, `attempts` times
      in all. */
  function TryChunk<S, T, U>(s: S, chunk: seq<T>, process: (S, T) -> ProcOut<S, U>, attempts: nat): (c: ChunkOut<S, U>)
    ensures c.outputs.Some? ==> |c.outputs.value| == |chunk|
    decreases attempts
  {
    if attempts == 0 then ChunkOut(None, s)
    else
      var c := ProcessChunk(s, chunk, process);
      if c.outputs.Some? || attempts == 1 then c else TryChunk(c.state, chunk, process, attempts - 1)
  }

  /** The end of a step: its status, the job state, and how many chunks were
      written. */
  datatype StepOut<S> = StepOut(status: Status, state: S, committed: nat)

  /** Run the chunks in order; the step fails at the first chunk whose
      processing or writing throws, after committing the chunks before it. */
  function RunStep<S, T, U>(s: S, chunks: seq<seq<T>>, process: (S, T) -> ProcOut<S, U>,
                            write: (S, seq<U>) -> WriteOut<S>, attempts: nat): (r: StepOut<S>)
    ensures r.committed <= |chunks|
    ensures r.status == Completed <==> r.committed == |chunks|
  {
    if |chunks| == 0 then StepOut(Completed, s, 0)
    else
      var c := TryChunk(s, chunks[0], process, attempts);
      if c.outputs.None? then StepOut(Failed, c.state, 0)
      else
        var w := write(c.state, c.outputs.value);
        if !w.ok then StepOut(Failed, w.state, 0)
        else
          var rest := RunStep(w.state, chunks[1..], process, write, attempts);
          StepOut(rest.status, rest.state, rest.committed + 1)
  }

  /** A step over `a + b` whose part over `a` completes carries on over `b`
      from where `a` left the job state. */
  lemma {:induction false} RunStepAppend<S, T, U>(s: S, a: seq<seq<T>>, b: seq<seq<T>>, process: (S, T) -> ProcOut<S, U>,
                                                  write: (S, seq<U>) -> WriteOut<S>, attempts: nat)
    requires RunStep(s, a, process, write, attempts).status == Completed
    ensures var first := RunStep(s, a, process, write, attempts);
      var second := RunStep(first.state, b, process, write, attempts);
      RunStep(s, a + b, process, write, attempts) == second.(committed := |a| + second.committed)
  {
    if |a| > 0 {
      assert (a + b)[0] == a[0] && (a + b)[1..] == a[1..] + b;
      var c := TryChunk(s, a[0], process, attempts);
      var w := write(c.state, c.outputs.value);
      RunStepAppend(w.state, a[1..], b, process, write, attempts);
    } else {
      assert a + b == b;
    }
  }
}
