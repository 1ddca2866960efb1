/**
 * What `run_pipeline` promises about offsets, saves, inserts, the returned flag and the
 * classification step, stated over the pipeline model for any page source, processor, insert and
 * classifier.
 */
module PipelineProperties {
  import opened Wrappers
  import opened Exceptions
  import opened Normalizer
  import opened MultiLabel
  import opened Pipeline

  /** The state a pass of the fetch loop leaves, whether or not the loop goes on. */
  function StepState(st: Step): State {
    match st
    case Stop(o) => o.state
    case Continue(t) => t
  }

  /** The progress snapshots saved, in order. */
  function SavesOf(trace: seq<Event>): seq<map<string, int>>
    decreases |trace|
  {
    if trace == [] then []
    else
      var last := trace[|trace| - 1];
      SavesOf(trace[..|trace| - 1]) + (if last.ProgressSaved? then [last.progress] else [])
  }

  /** The first `k` snapshots a category saves when it starts at `start`. */
  function Snapshots(progress: map<string, int>, cat: string, start: int, pageSize: int, k: nat): (r: seq<map<string, int>>)
    ensures |r| == k
  {
    seq(k, i requires 0 <= i < k => progress[cat := start + (i + 1) * pageSize])
  }

  lemma {:induction false} SavesOfAppend(a: seq<Event>, b: seq<Event>)
    ensures SavesOf(a + b) == SavesOf(a) + SavesOf(b)
    decreases |b|
  {
    if b == [] {
      assert a + b == a;
    } else {
      var init := b[..|b| - 1];
      assert (a + b)[..|a + b| - 1] == a + init;
      SavesOfAppend(a, init);
    }
  }

  /** Inserts leave the saved snapshots alone. */
  lemma {:induction false} SavesOfInserts(a: seq<Event>, b: seq<Event>)
    requires |a| <= |b| && b[..|a|] == a
    requires forall k :: |a| <= k < |b| ==> b[k].Inserted?
    ensures SavesOf(b) == SavesOf(a)
    decreases |b|
  {
    if |b| > |a| {
      assert b[..|b| - 1][..|a|] == a;
      SavesOfInserts(a, b[..|b| - 1]);
    } else {
      assert b == a;
    }
  }

  /** `events` is one `Inserted` event per row of `rows`, in the same order. */
  ghost predicate InsertedRows(events: seq<Event>, rows: seq<PaperRow>) {
    && |events| == |rows|
    && forall i :: 0 <= i < |rows| ==> events[i].Inserted? && events[i].isNumber == rows[i].isNumber
  }

  /** One `Inserted` event per row, in row order, whatever each insert returned. */
  lemma {:induction false} InsertsEveryRow(s: State, rows: seq<PaperRow>, insert: Inserter)
    ensures InsertedRows(InsertAll(s, rows, insert).trace[|s.trace|..], rows)
    decreases |rows|
  {
    if rows != [] {
      var init := rows[..|rows| - 1];
      var last := rows[|rows| - 1];
      InsertsEveryRow(s, init, insert);
      var prev := InsertAll(s, init, insert);
      var t := InsertAll(s, rows, insert);
      var e := Inserted(last.isNumber, insert(prev.db, last).raised);
      assert t.trace == prev.trace + [e];
      assert t.trace[|s.trace|..] == prev.trace[|s.trace|..] + [e];
      assert rows == init + [last];
    }
  }

  /** Even an insert that always raises is attempted for every row of the page. */
  lemma {:induction false} FailingInsertsDoNotStopThePage(s: State, rows: seq<PaperRow>, insert: Inserter)
    requires forall db, row :: insert(db, row).raised
    ensures InsertAll(s, rows, insert).trace[|s.trace|..]
            == seq(|rows|, i requires 0 <= i < |rows| => Inserted(rows[i].isNumber, true))
    decreases |rows|
  {
    if rows == [] {
      assert InsertAll(s, rows, insert).trace[|s.trace|..] == [];
    } else {
      var init := rows[..|rows| - 1];
      var last := rows[|rows| - 1];
      FailingInsertsDoNotStopThePage(s, init, insert);
      var prev := InsertAll(s, init, insert);
      var t := InsertAll(s, rows, insert);
      assert t.trace == prev.trace + [Inserted(last.isNumber, true)];
      assert t.trace[|s.trace|..] == prev.trace[|s.trace|..] + [Inserted(last.isNumber, true)];
    }
  }

  /** One pass of the loop body makes exactly one fetch, first, with the start record it was given. */
  lemma PageStepFetchesOnce(s: State, cat: string, start: int, page: RawFrame, pageSize: int, process: Processor, insert: Inserter)
    ensures var st := StepState(PageStep(s, cat, start, page, pageSize, process, insert));
            && |st.trace| > |s.trace| && st.trace[..|s.trace| + 1] == s.trace + [Fetched(cat, start)]
            && (forall k :: |s.trace| < k < |st.trace| ==> !st.trace[k].Fetched?)
  {
    if !FrameEmpty(page) && process(page).Success? {
      var rows := process(page).value.rows;
      var flagged := s.(trace := s.trace + [Fetched(cat, start)], retrieved := true);
      InsertsEveryRow(flagged, rows, insert);
      var inserted := InsertAll(flagged, rows, insert);
      var st := StepState(PageStep(s, cat, start, page, pageSize, process, insert));
      assert st.trace == inserted.trace + [ProgressSaved(st.progress)];
      assert st.trace[..|s.trace| + 1] == inserted.trace[..|flagged.trace|];
      var ins := inserted.trace[|flagged.trace|..];
      forall k | |s.trace| < k < |st.trace|
        ensures !st.trace[k].Fetched?
      {
        if k < |st.trace| - 1 {
          assert st.trace[k] == ins[k - |s.trace| - 1];
        }
      }
    }
  }

  /**
   * A processed page sets the flag, inserts its rows in order right after the fetch, advances the
   * category's start record by the page size, saves the whole map, and ends the loop exactly when
   * it is short.
   */
  lemma PageStepProcessed(s: State, cat: string, start: int, page: RawFrame, pageSize: int, process: Processor, insert: Inserter)
    requires !FrameEmpty(page) && process(page).Success?
    ensures var step := PageStep(s, cat, start, page, pageSize, process, insert);
            var st := StepState(step);
            var rows := process(page).value.rows;
            && st.retrieved
            && st.progress == s.progress[cat := start + pageSize]
            && st.file == Stored(st.progress)
            && |st.trace| == |s.trace| + |rows| + 2
            && st.trace[..|s.trace| + 1] == s.trace + [Fetched(cat, start)]
            && InsertedRows(st.trace[|s.trace| + 1..|st.trace| - 1], rows)
            && st.trace[|st.trace| - 1] == ProgressSaved(st.progress)
            && (step.Stop? <==> |page.rows| < pageSize)
            && (step.Stop? ==> step.outcome.raised.None?)
  {
    var rows := process(page).value.rows;
    var flagged := s.(trace := s.trace + [Fetched(cat, start)], retrieved := true);
    InsertsEveryRow(flagged, rows, insert);
    var inserted := InsertAll(flagged, rows, insert);
    var st := StepState(PageStep(s, cat, start, page, pageSize, process, insert));
    assert st.trace == inserted.trace + [ProgressSaved(st.progress)];
    assert st.trace[|s.trace| + 1..|st.trace| - 1] == inserted.trace[|flagged.trace|..];
  }

  /** The fetch loop's trace extends that of its first pass, which starts with the fetch at `start`. */
  lemma FetchLoopExtends(s: State, cat: string, start: int, pages: seq<RawFrame>, j: nat, pageSize: int,
                         process: Processor, insert: Inserter)
    ensures var r := FetchLoop(s, cat, start, pages, j, pageSize, process, insert);
            var first := StepState(PageStep(s, cat, start, PageAt(pages, j), pageSize, process, insert));
            && |r.state.trace| >= |first.trace| && r.state.trace[..|first.trace|] == first.trace
            && |r.state.trace| > |s.trace| && r.state.trace[..|s.trace| + 1] == s.trace + [Fetched(cat, start)]
  {
    var first := StepState(PageStep(s, cat, start, PageAt(pages, j), pageSize, process, insert));
    var r := FetchLoop(s, cat, start, pages, j, pageSize, process, insert);
    PageStepFetchesOnce(s, cat, start, PageAt(pages, j), pageSize, process, insert);
    FetchLoopExtendsFirst(s, cat, start, pages, j, pageSize, process, insert);
    assert r.state.trace[..|s.trace| + 1] == r.state.trace[..|first.trace|][..|s.trace| + 1];
  }

  lemma FetchLoopExtendsFirst(s: State, cat: string, start: int, pages: seq<RawFrame>, j: nat, pageSize: int,
                               process: Processor, insert: Inserter)
    ensures var r := FetchLoop(s, cat, start, pages, j, pageSize, process, insert);
            var first := StepState(PageStep(s, cat, start, PageAt(pages, j), pageSize, process, insert));
            IsPrefix(first.trace, r.state.trace)
  {
    var step := PageStep(s, cat, start, PageAt(pages, j), pageSize, process, insert);
    FetchLoopStep(s, cat, start, pages, j, pageSize, process, insert);
    if step.Continue? {
      FetchLoopOnlyAppends(step.state, cat, start + pageSize, pages, j + 1, pageSize, process, insert);
    }
  }

  /** The fetch loop only appends to the trace. */
  lemma {:induction false} FetchLoopOnlyAppends(s: State, cat: string, start: int, pages: seq<RawFrame>, j: nat, pageSize: int,
                                                process: Processor, insert: Inserter)
    ensures IsPrefix(s.trace, FetchLoop(s, cat, start, pages, j, pageSize, process, insert).state.trace)
    decreases if j <= |pages| then |pages| - j else 0
  {
    var step := PageStep(s, cat, start, PageAt(pages, j), pageSize, process, insert);
    FetchLoopStep(s, cat, start, pages, j, pageSize, process, insert);
    PageStepExtends(s, cat, start, PageAt(pages, j), pageSize, process, insert);
    if step.Continue? {
      var t := step.state;
      FetchLoopOnlyAppends(t, cat, start + pageSize, pages, j + 1, pageSize, process, insert);
      PrefixTrans(s.trace, t.trace, FetchLoop(t, cat, start + pageSize, pages, j + 1, pageSize, process, insert).state.trace);
    }
  }

  /** `a` is an initial segment of `b`. */
  ghost predicate IsPrefix(a: seq<Event>, b: seq<Event>) {
    |a| <= |b| && b[..|a|] == a
  }

  lemma PrefixTrans(a: seq<Event>, b: seq<Event>, c: seq<Event>)
    requires IsPrefix(a, b) && IsPrefix(b, c)
    ensures IsPrefix(a, c)
  {
    assert c[..|a|] == c[..|b|][..|a|];
  }

  /** A page step only appends to the trace. */
  lemma PageStepExtends(s: State, cat: string, start: int, page: RawFrame, pageSize: int, process: Processor, insert: Inserter)
    ensures IsPrefix(s.trace, StepState(PageStep(s, cat, start, page, pageSize, process, insert)).trace)
  {
    var st := StepState(PageStep(s, cat, start, page, pageSize, process, insert));
    PageStepFetchesOnce(s, cat, start, page, pageSize, process, insert);
    assert st.trace[..|s.trace|] == st.trace[..|s.trace| + 1][..|s.trace|];
  }

  /** The fetch loop fetches only its own category. */
  lemma {:induction false} FetchLoopCategory(s: State, cat: string, start: int, pages: seq<RawFrame>, j: nat, pageSize: int,
                                             process: Processor, insert: Inserter)
    ensures var r := FetchLoop(s, cat, start, pages, j, pageSize, process, insert);
            forall k :: |s.trace| <= k < |r.state.trace| && r.state.trace[k].Fetched? ==> r.state.trace[k].category == cat
    decreases if j <= |pages| then |pages| - j else 0
  {
    var step := PageStep(s, cat, start, PageAt(pages, j), pageSize, process, insert);
    var first := StepState(step);
    var r := FetchLoop(s, cat, start, pages, j, pageSize, process, insert);
    PageStepFetchesOnce(s, cat, start, PageAt(pages, j), pageSize, process, insert);
    FetchLoopExtends(s, cat, start, pages, j, pageSize, process, insert);
    FetchLoopStep(s, cat, start, pages, j, pageSize, process, insert);
    if step.Continue? {
      FetchLoopCategory(step.state, cat, start + pageSize, pages, j + 1, pageSize, process, insert);
    }
    forall k | |s.trace| <= k < |r.state.trace| && r.state.trace[k].Fetched?
      ensures r.state.trace[k].category == cat
    {
      if k < |first.trace| {
        assert r.state.trace[k] == r.state.trace[..|first.trace|][k];
        if k == |s.trace| {
          assert first.trace[k] == first.trace[..|s.trace| + 1][k];
        }
      }
    }
  }

  /** The flag ends set exactly when the first page was non-empty; an exception implies it. */
  lemma {:induction false} FetchLoopFlag(s: State, cat: string, start: int, pages: seq<RawFrame>, j: nat, pageSize: int,
                                         process: Processor, insert: Inserter)
    ensures var r := FetchLoop(s, cat, start, pages, j, pageSize, process, insert);
            && r.state.retrieved == (s.retrieved || !FrameEmpty(PageAt(pages, j)))
            && (r.raised.Some? ==> r.state.retrieved)
    decreases if j <= |pages| then |pages| - j else 0
  {
    var step := PageStep(s, cat, start, PageAt(pages, j), pageSize, process, insert);
    FetchLoopStep(s, cat, start, pages, j, pageSize, process, insert);
    if step.Continue? {
      FetchLoopFlag(step.state, cat, start + pageSize, pages, j + 1, pageSize, process, insert);
    }
  }

  /**
   * From `s` to `r`, `k` pages were saved: the snapshots saved are start + page size, start + 2 *
   * page size, ..., start + k * page size for the category, each a copy of the whole map; the
   * progress and the file are untouched when `k` is 0, and otherwise hold the last snapshot.
   */
  ghost predicate SavedPages(s: State, r: State, cat: string, start: int, pageSize: int, k: nat) {
    && SavesOf(r.trace) == SavesOf(s.trace) + Snapshots(s.progress, cat, start, pageSize, k)
    && (k == 0 ==> r.progress == s.progress && r.file == s.file)
    && (k > 0 ==> r.progress == s.progress[cat := start + k * pageSize] && r.file == Stored(r.progress))
  }

  /** One saved page followed by `k` more is `k + 1` saved pages. */
  lemma SavedPagesCompose(s: State, t: State, r: State, cat: string, start: int, pageSize: int, k: nat)
    requires SavedPages(s, t, cat, start, pageSize, 1)
    requires SavedPages(t, r, cat, start + pageSize, pageSize, k)
    ensures SavedPages(s, r, cat, start, pageSize, k + 1)
  {
    SnapshotsShift(s.progress, cat, start, pageSize, k);
    assert Snapshots(s.progress, cat, start, pageSize, 1) == [s.progress[cat := start + pageSize]];
    if k > 0 {
      assert start + pageSize + k * pageSize == start + (k + 1) * pageSize;
    }
  }

  /**
   * After the loop the category's progress entry is untouched if no page was saved, and otherwise
   * is start + k * page size for the k pages saved; the snapshots saved are exactly start + page
   * size, start + 2 * page size, and so on, each a copy of the whole map; the file holds the last.
   */
  lemma {:induction false} FetchLoopProgress(s: State, cat: string, start: int, pages: seq<RawFrame>, j: nat, pageSize: int,
                                             process: Processor, insert: Inserter)
    ensures exists k: nat :: SavedPages(s, FetchLoop(s, cat, start, pages, j, pageSize, process, insert).state, cat, start, pageSize, k)
    decreases if j <= |pages| then |pages| - j else 0
  {
    var page := PageAt(pages, j);
    var step := PageStep(s, cat, start, page, pageSize, process, insert);
    var r := FetchLoop(s, cat, start, pages, j, pageSize, process, insert);
    FetchLoopStep(s, cat, start, pages, j, pageSize, process, insert);
    if FrameEmpty(page) || process(page).Failure? {
      UnprocessedPageSavesNothing(s, cat, start, page, pageSize, process, insert);
    } else {
      var st := StepState(step);
      ProcessedPageSavesOne(s, cat, start, page, pageSize, process, insert);
      if step.Continue? {
        FetchLoopProgress(st, cat, start + pageSize, pages, j + 1, pageSize, process, insert);
        var k: nat :| SavedPages(st, r.state, cat, start + pageSize, pageSize, k);
        SavedPagesCompose(s, st, r.state, cat, start, pageSize, k);
      }
    }
  }

  /** A page that is empty or fails to process stops the loop with nothing saved. */
  lemma UnprocessedPageSavesNothing(s: State, cat: string, start: int, page: RawFrame, pageSize: int,
                                    process: Processor, insert: Inserter)
    requires FrameEmpty(page) || process(page).Failure?
    ensures var step := PageStep(s, cat, start, page, pageSize, process, insert);
            step.Stop? && SavedPages(s, step.outcome.state, cat, start, pageSize, 0)
  {
    var step := PageStep(s, cat, start, page, pageSize, process, insert);
    assert step.outcome.state.trace == s.trace + [Fetched(cat, start)];
    SavesOfAppend(s.trace, [Fetched(cat, start)]);
    assert SavesOf([Fetched(cat, start)]) == [];
  }

  /** A processed page is one saved page. */
  lemma ProcessedPageSavesOne(s: State, cat: string, start: int, page: RawFrame, pageSize: int,
                              process: Processor, insert: Inserter)
    requires !FrameEmpty(page) && process(page).Success?
    ensures SavedPages(s, StepState(PageStep(s, cat, start, page, pageSize, process, insert)), cat, start, pageSize, 1)
  {
    PageStepSaves(s, cat, start, page, pageSize, process, insert);
    assert Snapshots(s.progress, cat, start, pageSize, 1) == [s.progress[cat := start + pageSize]];
  }

  /** A processed page adds exactly one snapshot, the advanced map, and leaves it in the progress and the file. */
  lemma PageStepSaves(s: State, cat: string, start: int, page: RawFrame, pageSize: int, process: Processor, insert: Inserter)
    requires !FrameEmpty(page) && process(page).Success?
    ensures var st := StepState(PageStep(s, cat, start, page, pageSize, process, insert));
            && SavesOf(st.trace) == SavesOf(s.trace) + [s.progress[cat := start + pageSize]]
            && st.progress == s.progress[cat := start + pageSize]
            && st.file == Stored(st.progress)
  {
    PageStepProcessed(s, cat, start, page, pageSize, process, insert);
    var st := StepState(PageStep(s, cat, start, page, pageSize, process, insert));
    var fetched := s.trace + [Fetched(cat, start)];
    var withInserts := st.trace[..|st.trace| - 1];
    var ins := st.trace[|s.trace| + 1..|st.trace| - 1];
    assert withInserts[..|fetched|] == fetched by {
      assert withInserts[..|fetched|] == st.trace[..|s.trace| + 1];
    }
    forall k | |fetched| <= k < |withInserts|
      ensures withInserts[k].Inserted?
    {
      assert withInserts[k] == ins[k - |fetched|];
    }
    SavesOfInserts(fetched, withInserts);
    SavesOfAppend(s.trace, [Fetched(cat, start)]);
    assert SavesOf([Fetched(cat, start)]) == [];
    assert st.trace == withInserts + [ProgressSaved(st.progress)];
    SavesOfAppend(withInserts, [ProgressSaved(st.progress)]);
    assert SavesOf([ProgressSaved(st.progress)]) == [st.progress];
  }

  /** The snapshots after the first page are those of a run starting one page later. */
  lemma SnapshotsShift(progress: map<string, int>, cat: string, start: int, pageSize: int, k: nat)
    ensures Snapshots(progress, cat, start, pageSize, k + 1)
            == [progress[cat := start + pageSize]] + Snapshots(progress[cat := start + pageSize], cat, start + pageSize, pageSize, k)
  {
    var next := progress[cat := start + pageSize];
    var longer := Snapshots(progress, cat, start, pageSize, k + 1);
    var shifted := Snapshots(next, cat, start + pageSize, pageSize, k);
    forall i | 0 <= i < k
      ensures shifted[i] == longer[1..][i]
    {
      assert start + pageSize + (i + 1) * pageSize == start + (i + 1 + 1) * pageSize;
    }
    assert longer == [longer[0]] + longer[1..];
  }

  /** With a non-negative page size the saved start records never decrease. */
  lemma SnapshotsNonDecreasing(progress: map<string, int>, cat: string, start: int, pageSize: int, k: nat)
    requires pageSize >= 0
    ensures forall i, i' :: 0 <= i <= i' < k ==>
              Snapshots(progress, cat, start, pageSize, k)[i][cat] <= Snapshots(progress, cat, start, pageSize, k)[i'][cat]
  {
    forall i, i' | 0 <= i <= i' < k
      ensures Snapshots(progress, cat, start, pageSize, k)[i][cat] <= Snapshots(progress, cat, start, pageSize, k)[i'][cat]
    {
      MulMonotone(i + 1, i' + 1, pageSize);
    }
  }

  lemma MulMonotone(a: int, b: int, c: int)
    requires a <= b && c >= 0
    ensures a * c <= b * c
  {
    assert b * c - a * c == (b - a) * c;
  }

  /** A pass that goes on has made one fetch and ends with the save of the start record of the next. */
  lemma ContinueFacts(s: State, cat: string, start: int, page: RawFrame, pageSize: int, process: Processor, insert: Inserter)
    requires PageStep(s, cat, start, page, pageSize, process, insert).Continue?
    ensures var t := PageStep(s, cat, start, page, pageSize, process, insert).state;
            && |t.trace| > |s.trace| + 1
            && (forall k :: |s.trace| < k < |t.trace| ==> !t.trace[k].Fetched?)
            && t.trace[|t.trace| - 1] == ProgressSaved(t.progress)
            && cat in t.progress && t.progress[cat] == start + pageSize
  {
    PageStepProcessed(s, cat, start, page, pageSize, process, insert);
    PageStepFetchesOnce(s, cat, start, page, pageSize, process, insert);
  }

  /** Every fetch after the first comes right after a save that holds the start record it uses. */
  lemma {:induction false} SaveBeforeNextFetch(s: State, cat: string, start: int, pages: seq<RawFrame>, j: nat, pageSize: int,
                                               process: Processor, insert: Inserter)
    ensures var r := FetchLoop(s, cat, start, pages, j, pageSize, process, insert);
            forall idx :: |s.trace| < idx < |r.state.trace| && r.state.trace[idx].Fetched? ==>
              && r.state.trace[idx - 1].ProgressSaved?
              && cat in r.state.trace[idx - 1].progress
              && r.state.trace[idx - 1].progress[cat] == r.state.trace[idx].startRecord
    decreases if j <= |pages| then |pages| - j else 0
  {
    var page := PageAt(pages, j);
    var step := PageStep(s, cat, start, page, pageSize, process, insert);
    FetchLoopStep(s, cat, start, pages, j, pageSize, process, insert);
    if step.Stop? {
      PageStepFetchesOnce(s, cat, start, page, pageSize, process, insert);
    } else {
      var t := step.state;
      var next := start + pageSize;
      var r := FetchLoop(t, cat, next, pages, j + 1, pageSize, process, insert);
      ContinueFacts(s, cat, start, page, pageSize, process, insert);
      SaveBeforeNextFetch(t, cat, next, pages, j + 1, pageSize, process, insert);
      FetchLoopExtends(t, cat, next, pages, j + 1, pageSize, process, insert);
      var head := r.state.trace[..|t.trace| + 1];
      assert head == t.trace + [Fetched(cat, next)];
      forall idx | |s.trace| < idx < |r.state.trace| && r.state.trace[idx].Fetched?
        ensures && r.state.trace[idx - 1].ProgressSaved?
                && cat in r.state.trace[idx - 1].progress
                && r.state.trace[idx - 1].progress[cat] == r.state.trace[idx].startRecord
      {
        if idx <= |t.trace| {
          assert r.state.trace[idx] == head[idx];
          assert r.state.trace[idx - 1] == head[idx - 1];
        }
      }
    }
  }

  /** A category's first fetch uses its saved start record, or 1 when the map has no entry for it. */
  lemma FirstFetchUsesSavedOffset(s: State, cat: string, pages: seq<RawFrame>, pageSize: int, process: Processor, insert: Inserter)
    ensures |CategoryRun(s, cat, pages, pageSize, process, insert).state.trace| > |s.trace|
    ensures CategoryRun(s, cat, pages, pageSize, process, insert).state.trace[|s.trace|]
            == Fetched(cat, if cat in s.progress then s.progress[cat] else 1)
  {
    var r := CategoryRun(s, cat, pages, pageSize, process, insert);
    FetchLoopExtends(s, cat, StartRecord(s.progress, cat), pages, 0, pageSize, process, insert);
    assert r.state.trace[|s.trace|] == r.state.trace[..|s.trace| + 1][|s.trace|];
  }

  /** An empty first page: one fetch, and progress, file, flag and database stay as they were. */
  lemma EmptyPageChangesNothing(s: State, cat: string, pages: seq<RawFrame>, pageSize: int, process: Processor, insert: Inserter)
    requires FrameEmpty(PageAt(pages, 0))
    ensures CategoryRun(s, cat, pages, pageSize, process, insert)
            == Outcome(s.(trace := s.trace + [Fetched(cat, StartRecord(s.progress, cat))]), None)
  {
  }

  /**
   * A processed page shorter than the page size ends the loop right after its save: no further
   * fetch, no exception, and the category advanced by exactly one page size.
   */
  lemma ShortPageEndsAfterSave(s: State, cat: string, start: int, pages: seq<RawFrame>, j: nat, pageSize: int,
                               process: Processor, insert: Inserter)
    requires !FrameEmpty(PageAt(pages, j)) && process(PageAt(pages, j)).Success?
    requires |PageAt(pages, j).rows| < pageSize
    ensures var r := FetchLoop(s, cat, start, pages, j, pageSize, process, insert);
            && r.raised.None?
            && r.state.progress == s.progress[cat := start + pageSize]
            && r.state.file == Stored(r.state.progress)
            && r.state.trace[|r.state.trace| - 1] == ProgressSaved(r.state.progress)
            && (forall k :: |s.trace| < k < |r.state.trace| ==> !r.state.trace[k].Fetched?)
  {
    PageStepProcessed(s, cat, start, PageAt(pages, j), pageSize, process, insert);
    PageStepFetchesOnce(s, cat, start, PageAt(pages, j), pageSize, process, insert);
    FetchLoopStep(s, cat, start, pages, j, pageSize, process, insert);
  }

  /** A processed page's rows are inserted right after its fetch, in order. */
  lemma PageRowsInsertedInOrder(s: State, cat: string, start: int, pages: seq<RawFrame>, j: nat, pageSize: int,
                                process: Processor, insert: Inserter)
    requires !FrameEmpty(PageAt(pages, j)) && process(PageAt(pages, j)).Success?
    ensures var r := FetchLoop(s, cat, start, pages, j, pageSize, process, insert);
            var rows := process(PageAt(pages, j)).value.rows;
            && |r.state.trace| >= |s.trace| + 1 + |rows|
            && InsertedRows(r.state.trace[|s.trace| + 1..|s.trace| + 1 + |rows|], rows)
  {
    PageStepProcessed(s, cat, start, PageAt(pages, j), pageSize, process, insert);
    FetchLoopExtends(s, cat, start, pages, j, pageSize, process, insert);
    var r := FetchLoop(s, cat, start, pages, j, pageSize, process, insert);
    var first := StepState(PageStep(s, cat, start, PageAt(pages, j), pageSize, process, insert));
    var rows := process(PageAt(pages, j)).value.rows;
    assert r.state.trace[|s.trace| + 1..|s.trace| + 1 + |rows|] == r.state.trace[..|first.trace|][|s.trace| + 1..|first.trace| - 1];
  }

  /** A category's run changes only that category's progress entry. */
  lemma CategoryRunTouchesOnlyItsEntry(s: State, cat: string, pages: seq<RawFrame>, pageSize: int, process: Processor, insert: Inserter)
    ensures var r := CategoryRun(s, cat, pages, pageSize, process, insert);
            forall c :: c != cat ==>
              (c in r.state.progress <==> c in s.progress)
              && (c in s.progress ==> r.state.progress[c] == s.progress[c])
  {
    FetchLoopProgress(s, cat, StartRecord(s.progress, cat), pages, 0, pageSize, process, insert);
    var r := CategoryRun(s, cat, pages, pageSize, process, insert);
    var k: nat :| SavedPages(s, r.state, cat, StartRecord(s.progress, cat), pageSize, k);
  }

  /** Over the categories the trace only grows, and only the given categories are fetched. */
  lemma {:induction false} CategoriesRunTrace(s: State, cats: seq<string>, fetch: Fetcher, pageSize: int, process: Processor, insert: Inserter)
    ensures var r := CategoriesRun(s, cats, fetch, pageSize, process, insert);
            && |r.state.trace| >= |s.trace| && r.state.trace[..|s.trace|] == s.trace
            && (forall k :: |s.trace| <= k < |r.state.trace| && r.state.trace[k].Fetched? ==> r.state.trace[k].category in cats)
    decreases |cats|
  {
    if cats != [] {
      var init := cats[..|cats| - 1];
      var last := cats[|cats| - 1];
      CategoriesRunTrace(s, init, fetch, pageSize, process, insert);
      var prev := CategoriesRun(s, init, fetch, pageSize, process, insert);
      var r := CategoriesRun(s, cats, fetch, pageSize, process, insert);
      assert forall x :: x in init ==> x in cats;
      if prev.raised.None? {
        var start := StartRecord(prev.state.progress, last);
        FetchLoopExtends(prev.state, last, start, fetch(last), 0, pageSize, process, insert);
        FetchLoopCategory(prev.state, last, start, fetch(last), 0, pageSize, process, insert);
        assert r.state.trace[..|s.trace|] == r.state.trace[..|prev.state.trace| + 1][..|s.trace|];
        forall k | |s.trace| <= k < |r.state.trace| && r.state.trace[k].Fetched?
          ensures r.state.trace[k].category in cats
        {
          if k < |prev.state.trace| {
            assert r.state.trace[k] == r.state.trace[..|prev.state.trace| + 1][k];
          }
        }
      }
    }
  }

  /**
   * Over the categories the flag ends true exactly when some category's first page was non-empty,
   * and an exception implies the flag.
   */
  lemma {:induction false} CategoriesRunFlag(s: State, cats: seq<string>, fetch: Fetcher, pageSize: int, process: Processor, insert: Inserter)
    ensures var r := CategoriesRun(s, cats, fetch, pageSize, process, insert);
            && (r.raised.None? ==>
                  (r.state.retrieved <==> s.retrieved || exists i :: 0 <= i < |cats| && !FrameEmpty(PageAt(fetch(cats[i]), 0))))
            && (r.raised.Some? ==> r.state.retrieved)
    decreases |cats|
  {
    if cats != [] {
      var init := cats[..|cats| - 1];
      var last := cats[|cats| - 1];
      CategoriesRunFlag(s, init, fetch, pageSize, process, insert);
      var prev := CategoriesRun(s, init, fetch, pageSize, process, insert);
      assert forall i :: 0 <= i < |init| ==> init[i] == cats[i];
      if prev.raised.None? {
        FetchLoopFlag(prev.state, last, StartRecord(prev.state.progress, last), fetch(last), 0, pageSize, process, insert);
      }
    }
  }

  /** The last category of the list is never fetched unless it also appears earlier in the list. */
  lemma LastCategoryNeverFetched(file: ProgressFile, db: Db, cats: seq<string>, fetch: Fetcher, pageSize: int,
                                 process: Processor, insert: Inserter, classify: Classifier)
    ensures var r := PipelineRun(file, db, cats, fetch, pageSize, process, insert, classify);
            forall k :: 0 <= k < |r.state.trace| && r.state.trace[k].Fetched? ==> r.state.trace[k].category in AllButLast(cats)
    ensures var r := PipelineRun(file, db, cats, fetch, pageSize, process, insert, classify);
            cats != [] && cats[|cats| - 1] !in AllButLast(cats) ==>
              forall k :: 0 <= k < |r.state.trace| && r.state.trace[k].Fetched? ==> r.state.trace[k].category != cats[|cats| - 1]
  {
    if LoadProgress(file).Success? {
      CategoriesRunTrace(State(LoadProgress(file).value, file, db, false, []), AllButLast(cats), fetch, pageSize, process, insert);
    }
  }

  /**
   * A run that returns, as written or as intended, returns true exactly when some category but the
   * last had a non-empty first page.
   */
  lemma ReturnsWhetherAnyPageArrived(file: ProgressFile, db: Db, cats: seq<string>, fetch: Fetcher, pageSize: int,
                                     process: Processor, insert: Inserter, classify: Classifier)
    ensures var r := PipelineResult(PipelineRun(file, db, cats, fetch, pageSize, process, insert, classify));
            r.Success? ==>
              (r.value <==> exists i :: 0 <= i < |AllButLast(cats)| && !FrameEmpty(PageAt(fetch(AllButLast(cats)[i]), 0)))
    ensures var r := PipelineResult(IntendedPipelineRun(file, db, cats, fetch, pageSize, process, insert, classify));
            r.Success? ==>
              (r.value <==> exists i :: 0 <= i < |AllButLast(cats)| && !FrameEmpty(PageAt(fetch(AllButLast(cats)[i]), 0)))
  {
    if LoadProgress(file).Success? {
      CategoriesRunFlag(State(LoadProgress(file).value, file, db, false, []), AllButLast(cats), fetch, pageSize, process, insert);
    }
  }

  /**
   * The run as written against the run as intended: both leave the categories' trace, progress,
   * file and flag; when the categories raise, both end with that exception; when nothing is pending
   * they are the same run; and when a paper is pending, the written run raises `TypeError` where
   * the intended one returns.
   */
  lemma AsWrittenAgainstIntended(file: ProgressFile, db: Db, cats: seq<string>, fetch: Fetcher, pageSize: int,
                                 process: Processor, insert: Inserter, classify: Classifier)
    ensures var o := IngestRun(file, db, cats, fetch, pageSize, process, insert);
            var w := PipelineRun(file, db, cats, fetch, pageSize, process, insert, classify);
            var v := IntendedPipelineRun(file, db, cats, fetch, pageSize, process, insert, classify);
            && w.state.(db := o.state.db) == o.state
            && (o.raised.Some? ==> w == o && v == o)
            && (o.raised.None? && Unclassified(o.state.db) == [] ==> w == v && w.raised.None?)
            && (o.raised.None? && Unclassified(o.state.db) != [] ==>
                  w == Outcome(o.state, Some(TimerError)) && v.raised.None?)
  {
    var o := IngestRun(file, db, cats, fetch, pageSize, process, insert);
    if o.raised.None? && Unclassified(o.state.db) == [] {
      assert ClassifyNewUnclassified(o.state.db, classify) == o.state.db;
    }
  }

  /**
   * When the classifier gives every text at least one label, no paper is left unclassified after
   * the classification step.
   */
  lemma ClassificationLeavesNothingUnclassified(db: Db, classify: Classifier)
    requires forall text :: |MultiLabel.ClassifyText(classify(text))| > 0
    ensures forall p :: p !in Unclassified(ClassifyNewUnclassified(db, classify))
  {
    var pending := Unclassified(db);
    var r := ClassifyNewUnclassified(db, classify);
    forall p
      ensures p !in Unclassified(r)
    {
      if p in pending {
        var i :| 0 <= i < |pending| && pending[i] == p;
        var pairs := MultiLabel.ClassifyText(classify(p.promptText));
        var c := ClassificationRow(p.paperId, pairs[0].0, pairs[0].1);
        assert (c.category, c.confidence) in pairs;
        ClassificationsMembership(pending, classify, c);
        assert c in r.classification;
        assert Classified(r, p.paperId);
      } else if p in db.prompts && p.paperId in db.paperIds {
        assert Classified(db, p.paperId);
        var c :| c in db.classification && c.paperId == p.paperId;
        assert c in r.classification by {
          var n :| 0 <= n < |db.classification| && db.classification[n] == c;
          assert r.classification[n] == (r.classification[..|db.classification|])[n];
        }
      }
    }
  }

  /**
   * The written classification step raises `TypeError` on a database holding one stored, prompted,
   * unclassified paper, where the intended step classifies that paper.
   */
  lemma TimerKeywordRaises(classify: Classifier)
    ensures var db := Db({7}, [PromptRow(7, "title: T")], []);
            && ClassifyNewUnclassifiedAsWritten(db, classify).Failure?
            && ClassifyNewUnclassifiedAsWritten(db, classify).error.TypeError?
            && ClassifyNewUnclassified(db, classify).classification == Classifications([PromptRow(7, "title: T")], classify)
  {
    var db := Db({7}, [PromptRow(7, "title: T")], []);
    assert !Classified(db, 7);
    assert PromptRow(7, "title: T") in Unclassified(db);
    assert db.prompts[..0] == [];
    assert Unclassified(db) == [PromptRow(7, "title: T")];
  }

  /**
   * An empty progress file, one full page of two papers for "energy" and nothing after it, with a
   * page size of two: the category is fetched at 1 and then at 3, both rows are inserted, and
   * progress ends as {"energy": 3}. The intended run returns true; the written run returns true
   * only when no paper is then pending, and otherwise raises `TypeError`.
   */
  lemma EnergyScenario(page: RawFrame, fetch: Fetcher, db: Db, process: Processor, insert: Inserter, classify: Classifier)
    requires fetch("energy") == [page]
    requires !FrameEmpty(page) && |page.rows| == 2
    requires process(page).Success? && |process(page).value.rows| == 2
    ensures var o := IngestRun(NoFile, db, ["energy", "others"], fetch, 2, process, insert);
            && o.raised.None?
            && o.state.progress == map["energy" := 3]
            && o.state.file == Stored(map["energy" := 3])
            && |o.state.trace| == 5
            && o.state.trace[0] == Fetched("energy", 1)
            && InsertedRows(o.state.trace[1..3], process(page).value.rows)
            && o.state.trace[3] == ProgressSaved(map["energy" := 3])
            && o.state.trace[4] == Fetched("energy", 3)
    ensures PipelineResult(IntendedPipelineRun(NoFile, db, ["energy", "others"], fetch, 2, process, insert, classify)) == Success(true)
    ensures var o := IngestRun(NoFile, db, ["energy", "others"], fetch, 2, process, insert);
            PipelineResult(PipelineRun(NoFile, db, ["energy", "others"], fetch, 2, process, insert, classify))
            == if Unclassified(o.state.db) == [] then Success(true) else Failure(TimerError)
  {
    var cats := ["energy", "others"];
    assert AllButLast(cats) == ["energy"];
    var s := State(map[], NoFile, db, false, []);
    assert ["energy"][..0] == [];
    assert CategoriesRun(s, ["energy"], fetch, 2, process, insert) == CategoryRun(s, "energy", [page], 2, process, insert);
    assert StartRecord(map[], "energy") == 1;
    PageStepProcessed(s, "energy", 1, page, 2, process, insert);
    var step := PageStep(s, "energy", 1, page, 2, process, insert);
    var t := StepState(step);
    assert map[]["energy" := 1 + 2] == map["energy" := 3];
    assert step.Continue?;
    assert FetchLoop(s, "energy", 1, [page], 0, 2, process, insert) == FetchLoop(t, "energy", 3, [page], 1, 2, process, insert);
    assert FrameEmpty(PageAt([page], 1));
  }
}
