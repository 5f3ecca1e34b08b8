/** `PlayerUserLogItemReader`: a reader that walks the `player_userlog`
    table one page of 1000 rows at a time. Its state is the page to load
    next, what is left of the loaded page (the iterator, possibly null) and
    the initialised flag. The repository's `findAll(pageable)` is a function
    from a page number to the page's rows, or to `None` when it throws. */
module PagedReader {
  import opened Common
  import opened UserLog

  const PageSize: nat := 1000

  datatype ReaderState = ReaderState(
    currentPage: nat,
    pageIterator: Option<seq<LogRow>>,  // the rows of the loaded page not yet returned
    initialized: bool
  )

  /** What one `read` call produces: a row, the end-of-data null, or the
      RuntimeException raised when a page fails to load. */
  datatype ReadResult = Item(row: LogRow) | EndOfData | Failure

  datatype Step = Step(result: ReadResult, state: ReaderState)

  /** `findAll(PageRequest.of(page, PAGE_SIZE))`: `Some(rows)` on success. */
  type Loader = nat -> Option<seq<LogRow>>

  /** The state of a newly constructed (or reset) reader. */
  const Fresh: ReaderState := ReaderState(0, None, false)

  /** `min(k * PAGE_SIZE, n)`: where page `k` starts in a table of `n` rows. */
  function PageStart(n: nat, k: nat): (i: nat)
    ensures i <= n
  {
    if PageSize * k <= n then PageSize * k else n
  }

  /** Page `page` of a fixed table: rows [1000 page, 1000 (page + 1)) of it,
      cut at the end of the table. */
  function FindAll(rows: seq<LogRow>, page: nat): (r: seq<LogRow>)
    ensures |r| <= PageSize
    ensures |r| > 0 <==> PageSize * page < |rows|
    ensures |r| < PageSize ==> |rows| <= PageSize * page + |r|
    ensures forall i :: 0 <= i < |r| ==> PageSize * page + i < |rows| && r[i] == rows[PageSize * page + i]
  {
    rows[PageStart(|rows|, page)..PageStart(|rows|, page + 1)]
  }

  /** The repository over a fixed table that never fails. */
  function TableLoader(rows: seq<LogRow>): Loader {
    (k: nat) => Some(FindAll(rows, k))
  }

  /** `initializeReader` */
  function Initialize(s: ReaderState): ReaderState
  {
    ReaderState(0, None, true)
  }

  /** `reset`: back to the state of a new reader. */
  function Reset(s: ReaderState): (r: ReaderState)
    ensures r == Fresh
  {
    ReaderState(0, None, false)
  }

  /** The outcome of `loadNextPage`. */
  datatype PageLoad = Loaded(content: seq<LogRow>, nextPage: nat) | NoContent | LoadFailed

  /** `loadNextPage`: a page with content advances `currentPage`; an empty page
      yields null and a failing repository an exception, neither advancing it. */
  function LoadNextPage(currentPage: nat, load: Loader): PageLoad
  {
    match load(currentPage)
    case None => LoadFailed
    case Some(page) => if |page| > 0 then Loaded(page, currentPage + 1) else NoContent
  }

  /** `read` */
  function Read(s: ReaderState, load: Loader): (st: Step)
    ensures st.state.initialized
    ensures var s1 := if s.initialized then s else Initialize(s);
      && (st.result.Item? <==> (s1.pageIterator.Some? && |s1.pageIterator.value| > 0)
                               || (load(s1.currentPage).Some? && |load(s1.currentPage).value| > 0))
      && (st.result.Failure? ==> st.state == s1)
      && (st.result.EndOfData? ==> st.state == s1)
      && (st.state.currentPage == s1.currentPage || (st.result.Item? && st.state.currentPage == s1.currentPage + 1))
  {
    var s1 := if s.initialized then s else Initialize(s);
    if s1.pageIterator.Some? && |s1.pageIterator.value| > 0 then
      Step(Item(s1.pageIterator.value[0]), s1.(pageIterator := Some(s1.pageIterator.value[1..])))
    else
      match LoadNextPage(s1.currentPage, load)
      case Loaded(page, next) => Step(Item(page[0]), ReaderState(next, Some(page[1..]), true))
      case NoContent => Step(EndOfData, s1)
      case LoadFailed => Step(Failure, s1)
  }

  /** The results of `k` consecutive reads, and the state after them. */
  datatype Run = Run(results: seq<ReadResult>, state: ReaderState)

  function Reads(s: ReaderState, load: Loader, k: nat): (r: Run)
    ensures |r.results| == k
    decreases k
  {
    if k == 0 then Run([], s)
    else
      var st := Read(s, load);
      var rest := Reads(st.state, load, k - 1);
      Run([st.result] + rest.results, rest.state)
  }

  /** The reader state after `p` rows of `rows` have been returned: the pages
      before `currentPage` are loaded, and the iterator holds what is left of
      the last one. */
  predicate At(s: ReaderState, rows: seq<LogRow>, p: nat) {
    && s.initialized
    && p <= |rows|
    && if s.currentPage == 0 then
         p == 0 && (s.pageIterator.None? || s.pageIterator == Some([]))
       else
         && PageSize * (s.currentPage - 1) < p <= PageStart(|rows|, s.currentPage)
         && s.pageIterator == Some(rows[p..PageStart(|rows|, s.currentPage)])
  }

  /** Over a fixed table, a reader that has returned the first `p < n` rows
      returns row `p` next. */
  lemma ReadNextRow(s: ReaderState, rows: seq<LogRow>, p: nat)
    requires At(s, rows, p) && p < |rows|
    ensures Read(s, TableLoader(rows)).result == Item(rows[p])
    ensures At(Read(s, TableLoader(rows)).state, rows, p + 1)
  {
    var c := s.currentPage;
    if !(s.pageIterator.Some? && |s.pageIterator.value| > 0) {
      var page := FindAll(rows, c);
      assert page[0] == rows[p];
      assert page[1..] == rows[p + 1..PageStart(|rows|, c + 1)];
    }
  }

  /** Over a fixed table, a reader that has returned every row returns null
      and keeps its state. */
  lemma ReadPastEnd(s: ReaderState, rows: seq<LogRow>)
    requires At(s, rows, |rows|)
    ensures Read(s, TableLoader(rows)) == Step(EndOfData, s)
  {
    assert FindAll(rows, s.currentPage) == [];
  }

  /** A reader that is not yet initialised reads as if it were, from page 0. */
  lemma ReadInitializes(s: ReaderState, load: Loader)
    requires !s.initialized
    ensures Read(s, load) == Read(Initialize(s), load)
  {
  }

  /** A new reader returns what an initialised one at page 0 returns, call
      after call, and after the first call their states agree. */
  lemma ReadsFresh(load: Loader, k: nat)
    ensures Reads(Fresh, load, k).results == Reads(Initialize(Fresh), load, k).results
    ensures k > 0 ==> Reads(Fresh, load, k).state == Reads(Initialize(Fresh), load, k).state
  {
    if k > 0 {
      var st := Read(Fresh, load);
      ReadInitializes(Fresh, load);
      var rest := Reads(st.state, load, k - 1);
      assert Reads(Fresh, load, k) == Run([st.result] + rest.results, rest.state);
      assert Reads(Initialize(Fresh), load, k) == Run([st.result] + rest.results, rest.state);
    }
  }

  /** One read over a fixed table: the next row if there is one, else null. */
  lemma ReadOnce(s: ReaderState, rows: seq<LogRow>, p: nat)
    requires At(s, rows, p)
    ensures Read(s, TableLoader(rows)).result == if p < |rows| then Item(rows[p]) else EndOfData
    ensures At(Read(s, TableLoader(rows)).state, rows, if p < |rows| then p + 1 else p)
  {
    if p < |rows| {
      ReadNextRow(s, rows, p);
    } else {
      ReadPastEnd(s, rows);
    }
  }

  /** Over a fixed table, `k` reads by a reader that has returned the first
      `p` rows return the following rows in table order, then null. */
  lemma {:induction false} ReadsFrom(s: ReaderState, rows: seq<LogRow>, p: nat, k: nat)
    requires At(s, rows, p)
    ensures forall i :: 0 <= i < k ==>
      Reads(s, TableLoader(rows), k).results[i] == if p + i < |rows| then Item(rows[p + i]) else EndOfData
    decreases k
  {
    if k > 0 {
      var load := TableLoader(rows);
      var st := Read(s, load);
      ReadOnce(s, rows, p);
      ReadsFrom(st.state, rows, if p < |rows| then p + 1 else p, k - 1);
      var r := Reads(s, load, k);
      var rest := Reads(st.state, load, k - 1);
      assert r.results == [st.result] + rest.results;
      forall i | 0 < i < k
        ensures r.results[i] == if p + i < |rows| then Item(rows[p + i]) else EndOfData
      {
        assert r.results[i] == rest.results[i - 1];
      }
    }
  }

  /** A new reader over a fixed table returns the rows in table order, then
      null. */
  lemma {:induction false} ReadsFromFresh(rows: seq<LogRow>, k: nat)
    ensures forall i :: 0 <= i < k ==>
      Reads(Fresh, TableLoader(rows), k).results[i] == if i < |rows| then Item(rows[i]) else EndOfData
  {
    var load := TableLoader(rows);
    var a := Reads(Fresh, load, k).results;
    var b := Reads(Initialize(Fresh), load, k).results;
    ReadsFresh(load, k);
    ReadsFrom(Initialize(Fresh), rows, 0, k);
    assert forall i :: 0 <= i < k ==> b[i] == if i < |rows| then Item(rows[i]) else EndOfData;
  }

  /** A new reader over a table of `n` rows returns each row exactly once, in
      table order (page 0 first, then page 1 and so on), and then null on
      every later call. */
  lemma DrainTable(rows: seq<LogRow>, k: nat)
    ensures var results := Reads(Fresh, TableLoader(rows), |rows| + k).results;
      && (forall i :: 0 <= i < |rows| ==> results[i] == Item(rows[i]))
      && (forall i :: |rows| <= i < |rows| + k ==> results[i] == EndOfData)
  {
    ReadsFromFresh(rows, |rows| + k);
  }

  /** After `reset`, the reader replays the table from its first row, whatever
      it had read before. */
  lemma ResetReplays(s: ReaderState, rows: seq<LogRow>, k: nat)
    ensures Reads(Reset(s), TableLoader(rows), k) == Reads(Fresh, TableLoader(rows), k)
    ensures forall i :: 0 <= i < k && i < |rows| ==> Reads(Reset(s), TableLoader(rows), k).results[i] == Item(rows[i])
  {
    ReadsFromFresh(rows, k);
  }

  /** A page that fails to load does not advance `currentPage`: once the
      repository recovers, the next read loads the same page and returns
      what it would have returned without the failure. */
  lemma FailureRetriesSamePage(s: ReaderState, failing: Loader, load: Loader)
    requires Read(s, failing).result.Failure?
    ensures Read(s, failing).state.currentPage == (if s.initialized then s.currentPage else 0)
    ensures Read(Read(s, failing).state, load) == Read(s, load)
  {
  }
}
