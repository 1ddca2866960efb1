/**
 * The incremental pipeline (src/data/pipeline.py): for every category but the last, fetch pages
 * from the saved start record on, normalise each non-empty page, insert its rows, advance and save
 * the start record; then classify the stored papers that have a prompt and no classification.
 *
 * The page source, the row insert and the classifier are parameters. The progress file and the
 * database are values threaded through the run, and `trace` records the calls with outside effects
 * (fetches, inserts, progress saves) in the order they are made.
 */
module Pipeline {
  import opened Wrappers
  import opened Exceptions
  import opened Normalizer
  import opened MultiLabel

  /** The progress file: absent, not valid JSON, or a saved map from category to next start record. */
  datatype ProgressFile = NoFile | Corrupt | Stored(offsets: map<string, int>)

  /** `load_progress`: a missing file is an empty map; a corrupt one raises. */
  function LoadProgress(file: ProgressFile): (r: Result<map<string, int>, Error>)
    ensures r.Failure? <==> file.Corrupt?
    ensures file.NoFile? ==> r == Success(map[])
  {
    match file
    case NoFile => Success(map[])
    case Corrupt => Failure(JsonDecodeError)
    case Stored(offsets) => Success(offsets)
  }

  /** `save_progress`: overwrite the file with the whole map, so the next load reads it back. */
  function SaveProgress(progress: map<string, int>): (file: ProgressFile)
    ensures LoadProgress(file) == Success(progress)
  {
    Stored(progress)
  }

  datatype Event =
    | Fetched(category: string, startRecord: int)
    | Inserted(isNumber: int, raised: bool)
    | ProgressSaved(progress: map<string, int>)

  /** The three database tables the pipeline reads: paper ids, prompts and classifications. */
  datatype Db = Db(paperIds: set<int>, prompts: seq<PromptRow>, classification: seq<ClassificationRow>)

  /** What one `insert_full_paper` call leaves behind, and whether it raised. */
  datatype InsertOutcome = InsertOutcome(db: Db, raised: bool)

  type Inserter = (Db, PaperRow) -> InsertOutcome

  /** The pages a category's successive fetches return; every fetch past the end returns an empty page. */
  type Fetcher = string -> seq<RawFrame>

  /** The page processor; `run_pipeline` uses `process_papers`, that is `Normalizer.Normalized`. */
  type Processor = RawFrame -> Result<PaperFrame, Error>

  datatype State = State(progress: map<string, int>, file: ProgressFile, db: Db, retrieved: bool, trace: seq<Event>)

  /** A run's final state, and the exception it ended with, if any. */
  datatype Outcome = Outcome(state: State, raised: Option<Error>)

  /** The insert loop: every row is attempted, in order, whether or not an earlier insert raised. */
  function InsertAll(s: State, rows: seq<PaperRow>, insert: Inserter): (t: State)
    ensures t.progress == s.progress && t.file == s.file && t.retrieved == s.retrieved
    ensures |t.trace| == |s.trace| + |rows| && t.trace[..|s.trace|] == s.trace
    decreases |rows|
  {
    if rows == [] then s
    else
      var prev := InsertAll(s, rows[..|rows| - 1], insert);
      var out := insert(prev.db, rows[|rows| - 1]);
      prev.(db := out.db, trace := prev.trace + [Inserted(rows[|rows| - 1].isNumber, out.raised)])
  }

  function PageAt(pages: seq<RawFrame>, j: nat): RawFrame {
    if j < |pages| then pages[j] else RawFrame([], [])
  }

  /** pandas' `DataFrame.empty`: no rows or no columns. */
  predicate FrameEmpty(df: RawFrame) {
    df.rows == [] || df.columns == []
  }

  /** `progress.get(category, 1)`. */
  function StartRecord(progress: map<string, int>, category: string): int {
    if category in progress then progress[category] else 1
  }

  /** What one pass of the `while True` body leaves: the loop ends, or it fetches again. */
  datatype Step = Stop(outcome: Outcome) | Continue(state: State)

  /**
   * One pass of the `while True` body for the page fetched at `start`: an empty page ends the loop;
   * otherwise the flag is set, the page normalised (an exception ends the run), its rows inserted,
   * the start record advanced by the page size and saved, and a short page ends the loop.
   */
  function PageStep(s: State, cat: string, start: int, page: RawFrame, pageSize: int, process: Processor, insert: Inserter): (r: Step)
    ensures r.Continue? ==> !FrameEmpty(page)
  {
    var fetched := s.(trace := s.trace + [Fetched(cat, start)]);
    if FrameEmpty(page) then Stop(Outcome(fetched, None))
    else
      var flagged := fetched.(retrieved := true);
      match process(page)
      case Failure(e) => Stop(Outcome(flagged, Some(e)))
      case Success(df) =>
        var inserted := InsertAll(flagged, df.rows, insert);
        var progress := inserted.progress[cat := start + pageSize];
        var saved := inserted.(progress := progress, file := SaveProgress(progress),
                                trace := inserted.trace + [ProgressSaved(progress)]);
        if |page.rows| < pageSize then Stop(Outcome(saved, None)) else Continue(saved)
  }

  /** The `while True` loop from the `j`-th fetch on, with `start` the start record of that fetch. */
  function FetchLoop(s: State, cat: string, start: int, pages: seq<RawFrame>, j: nat, pageSize: int, process: Processor, insert: Inserter): Outcome
    decreases if j <= |pages| then |pages| - j else 0
  {
    match PageStep(s, cat, start, PageAt(pages, j), pageSize, process, insert)
    case Stop(o) => o
    case Continue(t) => FetchLoop(t, cat, start + pageSize, pages, j + 1, pageSize, process, insert)
  }

  /** One category's run, starting from its saved start record, or 1 when it has none. */
  function CategoryRun(s: State, cat: string, pages: seq<RawFrame>, pageSize: int, process: Processor, insert: Inserter): Outcome {
    FetchLoop(s, cat, StartRecord(s.progress, cat), pages, 0, pageSize, process, insert)
  }

  /** `xs[:-1]`. */
  function AllButLast<T>(xs: seq<T>): (r: seq<T>)
    ensures |r| == if xs == [] then 0 else |xs| - 1
    ensures r == xs[..|r|]
  {
    if xs == [] then [] else xs[..|xs| - 1]
  }

  /** The categories in order; an exception stops the run. */
  function CategoriesRun(s: State, cats: seq<string>, fetch: Fetcher, pageSize: int, process: Processor, insert: Inserter): Outcome
    decreases |cats|
  {
    if cats == [] then Outcome(s, None)
    else
      var prev := CategoriesRun(s, cats[..|cats| - 1], fetch, pageSize, process, insert);
      if prev.raised.Some? then prev
      else CategoryRun(prev.state, cats[|cats| - 1], fetch(cats[|cats| - 1]), pageSize, process, insert)
  }

  /** Some classification row carries this paper id. */
  predicate Classified(db: Db, paperId: int) {
    exists c :: c in db.classification && c.paperId == paperId
  }

  /** The prompts among `prompts` whose paper is stored and not classified, in order. */
  function PendingAmong(db: Db, prompts: seq<PromptRow>): (r: seq<PromptRow>)
    ensures forall p :: p in r <==> p in prompts && p.paperId in db.paperIds && !Classified(db, p.paperId)
    decreases |prompts|
  {
    if prompts == [] then []
    else
      var init := PendingAmong(db, prompts[..|prompts| - 1]);
      var last := prompts[|prompts| - 1];
      assert prompts == prompts[..|prompts| - 1] + [last];
      if last.paperId in db.paperIds && !Classified(db, last.paperId) then init + [last] else init
  }

  /** The anti-join query: papers with a prompt and no classification row. */
  function Unclassified(db: Db): (r: seq<PromptRow>)
    ensures forall p :: p in r <==> p in db.prompts && p.paperId in db.paperIds && !Classified(db, p.paperId)
  {
    PendingAmong(db, db.prompts)
  }

  /**
   * `_classify_new_unclassified_papers` as intended: when nothing is unclassified the database is
   * left alone; otherwise the classifications of the unclassified prompts are appended.
   */
  function ClassifyNewUnclassified(db: Db, classify: Classifier): (r: Db)
    ensures Unclassified(db) == [] ==> r == db
    ensures r.paperIds == db.paperIds && r.prompts == db.prompts
    ensures |r.classification| >= |db.classification| && r.classification[..|db.classification|] == db.classification
  {
    var pending := Unclassified(db);
    if pending == [] then db
    else db.(classification := db.classification + Classifications(pending, classify))
  }

  /**
   * `_classify_new_unclassified_papers` as written: `classify_all_papers` takes no `timer` keyword,
   * so the call raises whenever there is something to classify.
   */
  function ClassifyNewUnclassifiedAsWritten(db: Db, classify: Classifier): (r: Result<Db, Error>)
    ensures r.Success? <==> Unclassified(db) == []
    ensures r.Success? ==> r.value == db
    ensures r.Failure? ==> r.error == TimerError
  {
    if Unclassified(db) == [] then Success(db)
    else Failure(TimerError)
  }

  /** What calling `classify_all_papers` with the `timer` keyword it does not accept raises. */
  const TimerError := TypeError("classify_all_papers() got an unexpected keyword argument 'timer'")

  /** `run_pipeline` up to the classification step: load the progress, then every category but the last. */
  function IngestRun(file: ProgressFile, db: Db, cats: seq<string>, fetch: Fetcher, pageSize: int,
                     process: Processor, insert: Inserter): (r: Outcome)
    ensures LoadProgress(file).Failure? ==> r.raised == Some(JsonDecodeError) && r.state.trace == []
  {
    match LoadProgress(file)
    case Failure(e) => Outcome(State(map[], file, db, false, []), Some(e))
    case Success(progress) => CategoriesRun(State(progress, file, db, false, []), AllButLast(cats), fetch, pageSize, process, insert)
  }

  /**
   * `run_pipeline` as written: after the categories, the classification step raises whenever a
   * paper is pending, so the run returns only when nothing was left to classify.
   */
  function PipelineRun(file: ProgressFile, db: Db, cats: seq<string>, fetch: Fetcher, pageSize: int,
                       process: Processor, insert: Inserter, classify: Classifier): (r: Outcome)
    ensures LoadProgress(file).Failure? ==> r.raised == Some(JsonDecodeError) && r.state.trace == []
    ensures var o := IngestRun(file, db, cats, fetch, pageSize, process, insert);
            o.raised.None? ==> (r.raised.None? <==> Unclassified(o.state.db) == [])
    ensures r.raised.None? ==> Unclassified(r.state.db) == []
  {
    var o := IngestRun(file, db, cats, fetch, pageSize, process, insert);
    if o.raised.Some? then o
    else
      match ClassifyNewUnclassifiedAsWritten(o.state.db, classify)
      case Failure(e) => Outcome(o.state, Some(e))
      case Success(d) => Outcome(o.state.(db := d), None)
  }

  /** `run_pipeline` with the classification step as intended: the pending papers are classified. */
  function IntendedPipelineRun(file: ProgressFile, db: Db, cats: seq<string>, fetch: Fetcher, pageSize: int,
                               process: Processor, insert: Inserter, classify: Classifier): (r: Outcome)
    ensures var o := IngestRun(file, db, cats, fetch, pageSize, process, insert);
            && r.raised == o.raised
            && r.state.(db := o.state.db) == o.state
            && r.state.db.paperIds == o.state.db.paperIds && r.state.db.prompts == o.state.db.prompts
  {
    var o := IngestRun(file, db, cats, fetch, pageSize, process, insert);
    if o.raised.Some? then o
    else Outcome(o.state.(db := ClassifyNewUnclassified(o.state.db, classify)), None)
  }

  /** The value `run_pipeline` returns, or the exception it raises. */
  function PipelineResult(o: Outcome): Result<bool, Error> {
    match o.raised
    case Some(e) => Failure(e)
    case None => Success(o.state.retrieved)
  }

  /** The insert loop over one processed page. */
  method InsertRows(s: State, rows: seq<PaperRow>, insert: Inserter) returns (t: State)
    ensures t == InsertAll(s, rows, insert)
  {
    t := s;
    for i := 0 to |rows|
      invariant t == InsertAll(s, rows[..i], insert)
    {
      assert rows[..i + 1][..i] == rows[..i];
      var out := insert(t.db, rows[i]);
      t := t.(db := out.db, trace := t.trace + [Inserted(rows[i].isNumber, out.raised)]);
    }
    assert rows[..|rows|] == rows;
  }

  /** One pass of the `while True` body. */
  method FetchPage(s: State, cat: string, start: int, page: RawFrame, pageSize: int, process: Processor, insert: Inserter) returns (st: Step)
    ensures st == PageStep(s, cat, start, page, pageSize, process, insert)
  {
    var fetched := s.(trace := s.trace + [Fetched(cat, start)]);
    if FrameEmpty(page) {
      return Stop(Outcome(fetched, None));
    }
    var flagged := fetched.(retrieved := true);
    var processed := process(page);
    if processed.Failure? {
      return Stop(Outcome(flagged, Some(processed.error)));
    }
    var inserted := InsertRows(flagged, processed.value.rows, insert);
    var progress := inserted.progress[cat := start + pageSize];
    var saved := inserted.(progress := progress, file := SaveProgress(progress),
                            trace := inserted.trace + [ProgressSaved(progress)]);
    if |page.rows| < pageSize {
      return Stop(Outcome(saved, None));
    }
    st := Continue(saved);
  }

  /** The loop either ends with this pass or goes on from the next page. */
  lemma FetchLoopStep(s: State, cat: string, start: int, pages: seq<RawFrame>, j: nat, pageSize: int, process: Processor, insert: Inserter)
    ensures PageStep(s, cat, start, PageAt(pages, j), pageSize, process, insert).Stop? ==>
              FetchLoop(s, cat, start, pages, j, pageSize, process, insert) == PageStep(s, cat, start, PageAt(pages, j), pageSize, process, insert).outcome
    ensures PageStep(s, cat, start, PageAt(pages, j), pageSize, process, insert).Continue? ==>
              j < |pages|
              && FetchLoop(s, cat, start, pages, j, pageSize, process, insert)
                 == FetchLoop(PageStep(s, cat, start, PageAt(pages, j), pageSize, process, insert).state, cat, start + pageSize, pages, j + 1, pageSize, process, insert)
  {
  }

  /** The `while True` loop of one category. */
  method RunCategory(s0: State, cat: string, pages: seq<RawFrame>, pageSize: int, process: Processor, insert: Inserter) returns (o: Outcome)
    ensures o == CategoryRun(s0, cat, pages, pageSize, process, insert)
  {
    var s := s0;
    var startRecord := StartRecord(s0.progress, cat);
    var j: nat := 0;
    while true
      invariant j <= |pages|
      invariant FetchLoop(s, cat, startRecord, pages, j, pageSize, process, insert) == CategoryRun(s0, cat, pages, pageSize, process, insert)
      decreases |pages| - j
    {
      var step := FetchPage(s, cat, startRecord, PageAt(pages, j), pageSize, process, insert);
      FetchLoopStep(s, cat, startRecord, pages, j, pageSize, process, insert);
      if step.Stop? {
        return step.outcome;
      }
      s := step.state;
      startRecord := startRecord + pageSize;
      j := j + 1;
    }
  }

  /** Once a prefix of the categories has raised, the later categories are never run. */
  lemma {:induction false} RaisedStaysRaised(s: State, cats: seq<string>, k: nat, fetch: Fetcher, pageSize: int, process: Processor, insert: Inserter)
    requires k <= |cats|
    requires CategoriesRun(s, cats[..k], fetch, pageSize, process, insert).raised.Some?
    ensures CategoriesRun(s, cats, fetch, pageSize, process, insert) == CategoriesRun(s, cats[..k], fetch, pageSize, process, insert)
    decreases |cats| - k
  {
    if k < |cats| {
      assert cats[..k + 1][..k] == cats[..k];
      RaisedStaysRaised(s, cats, k + 1, fetch, pageSize, process, insert);
    } else {
      assert cats[..k] == cats;
    }
  }

  /**
   * `run_pipeline`: load the progress, run every category but the last, then the classification
   * step as written, which raises when a paper is pending.
   */
  method RunPipeline(file: ProgressFile, db: Db, cats: seq<string>, fetch: Fetcher, pageSize: int,
                     process: Processor, insert: Inserter, classify: Classifier) returns (o: Outcome)
    ensures o == PipelineRun(file, db, cats, fetch, pageSize, process, insert, classify)
  {
    var loaded := LoadProgress(file);
    if loaded.Failure? {
      return Outcome(State(map[], file, db, false, []), Some(loaded.error));
    }
    var s0 := State(loaded.value, file, db, false, []);
    var s := s0;
    var todo := AllButLast(cats);
    for i := 0 to |todo|
      invariant CategoriesRun(s0, todo[..i], fetch, pageSize, process, insert) == Outcome(s, None)
    {
      var cat := todo[i];
      assert todo[..i + 1][..i] == todo[..i];
      var step := RunCategory(s, cat, fetch(cat), pageSize, process, insert);
      if step.raised.Some? {
        RaisedStaysRaised(s0, todo, i + 1, fetch, pageSize, process, insert);
        return step;
      }
      s := step.state;
    }
    assert todo[..|todo|] == todo;
    var pending := Unclassified(s.db);
    if pending != [] {
      return Outcome(s, Some(TimerError));
    }
    o := Outcome(s, None);
  }
}
