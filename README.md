# ieee-papers-mapper, modelled in Dafny

This project models the ingest core of ieee-papers-mapper, a tool that collects IEEE Xplore paper
records by search category, stores them in SQLite and classifies them with a zero-shot model.

- **The incremental ingest loop** (`run_pipeline`). For every category but the last, it reads a start
  record from the progress map, defaulting to 1. Then it fetches pages until one comes back empty or
  short:
  - each page is normalised;
  - each row is inserted, and an insert that raises does not stop the rest of the page;
  - after each page the start record advances by the page size and the whole map is saved.

  The run then classifies the stored papers that have a prompt but no classification row, and
  returns whether any page was non-empty. As written, that classification step raises `TypeError`
  whenever a paper is pending (see Findings); the model keeps both that run and the intended one.
- **The record normaliser** (`process_papers`, current and older revision):
  - column selection, renaming, dropping and final order;
  - the `insert_date` transform: compact `YYYYMMDD` to ISO, or null; the older revision re-prints the
    compact form and raises on a bad date;
  - `publication_year` as a numeral;
  - the author projection to id, full name and affiliation;
  - the prompt `title: T - abstract: A - index_terms: a, b, c`.
- **Classification shaping:**
  - the multi-label flattening of classifier output into (paper id, category, confidence) rows;
  - the older single-label first-argmax selection and per-row assignment.
- **The older text-input builder** (`create_text_input`) and its column projection.

Modules:

- `Wrappers` and `Exceptions`: `Option`/`Result`, and the Python exception kinds the code can raise.
- `Strings`: `", ".join`, `str(int)` and its inverse.
- `Dates`: the Gregorian calendar, the pandas timestamp range and the date formats.
- `Columns`: frame column lists and the pandas column operations.
- `Normalizer` and `LegacyNormalizer`: the two `process_papers` revisions.
- `MultiLabel`: `src/data/classify_papers.py`.
- `SingleLabel`: `src/classification.py`.
- `TextInput`: `src/data_preprocessing.py`.
- `Pipeline` and `PipelineProperties`: `src/data/pipeline.py`.

The loops of the source are methods whose loop invariants tie them to recursive specification
functions: `Pipeline.RunCategory` to `Pipeline.FetchLoop`, `Pipeline.InsertRows` to
`Pipeline.InsertAll`, `MultiLabel.ClassifyAllPapers` to `MultiLabel.Classifications`, and
`Pipeline.RunPipeline`, whose loop over the categories keeps it equal to `Pipeline.CategoriesRun`
and whose result is the non-recursive `Pipeline.PipelineRun`. The properties of the source are then
lemmas about those functions.
The step-by-step frame code is also written as methods: `Normalizer.ProcessPapers` and
`LegacyNormalizer.LegacyProcessPapers` are proved equal to the non-recursive functions
`Normalizer.Normalized` and `LegacyNormalizer.LegacyNormalized`, and `TextInput.PreprocessCsv`
states its result directly.

Outside effects are recorded in the pipeline state as a trace of events, in order:

- `Fetched(category, startRecord)`;
- `Inserted(isNumber, raised)`;
- `ProgressSaved(map)`.

The fetcher, the row insert, the page processor and the classifier are function parameters:

- **fetcher**: the finite list of pages a category's successive fetches return; every fetch past its
  end returns an empty page;
- **inserter**: the database write, which may raise;
- **processor**: `process_papers`, whose intended instance is `Normalizer.Normalized`;
- **classifier**: the zero-shot model.

Facts of the code that the model keeps as written:

- The progress default is 1 (`src/data/pipeline.py:49`), and each saved page advances the entry by
  the page size (`src/data/pipeline.py:83-85`). So one full page of two papers with page size 2
  saves 3 (`PipelineProperties.EnergyScenario`).
- An author record that lacks `id`, `full_name` or `affiliation` raises `KeyError` out of
  `process_papers` (`src/data/process_papers.py:79-92`). The call at `src/data/pipeline.py:71` has no
  handler, so the run ends with that exception; the record is not skipped.
- A page with the kept columns and no rows makes the `prompt` assignment raise `ValueError`
  (`src/data/process_papers.py:112`, `src/process_papers.py:86`): `apply` over no rows probes
  `_create_prompt` with an all-missing row, the join fails, and the multi-column frame `apply` then
  returns cannot be stored in one column. The pipeline never passes such a page, since it stops on
  an empty page first (`src/data/pipeline.py:63-65`).
- A progress file that is not valid JSON raises out of `json.load` (`src/data/pipeline.py:136-137`).
- The save opens the file for writing and dumps the map (`src/data/pipeline.py:150-151`): a plain
  overwrite.

## Model

| member | source | states |
|---|---|---|
| Pipeline.LoadProgress | src/data/pipeline.py:122-138 | a missing progress file loads as the empty map; only an unreadable file raises |
| Pipeline.SaveProgress | src/data/pipeline.py:141-151 | the saved file loads back as exactly the map that was saved |
| Pipeline.InsertAll | src/data/pipeline.py:75-81 | the insert loop leaves progress, file and flag alone, and appends exactly one event per row to the trace |
| Pipeline.InsertRows | src/data/pipeline.py:75-81 | the `for` loop over the processed rows computes `InsertAll` |
| PipelineProperties.InsertsEveryRow | src/data/pipeline.py:75-81 | the new events are one `Inserted` per row, carrying that row's `is_number`, in row order |
| PipelineProperties.FailingInsertsDoNotStopThePage | src/data/pipeline.py:75-81 | even when every insert raises, every row of the page is attempted, in order |
| Pipeline.PageStep | src/data/pipeline.py:53-89 | the loop goes on only after a non-empty page |
| Pipeline.FetchPage | src/data/pipeline.py:53-89 | one pass of the `while True` body computes `PageStep` |
| Pipeline.FetchLoopStep | src/data/pipeline.py:52-89 | the loop ends with the outcome of this pass, or continues from the next page with the advanced start record |
| Pipeline.FetchLoop | src/data/pipeline.py:52-89 | computes the `while True` loop from one fetch on: a pass that stops gives the outcome, otherwise the loop goes on at the advanced start record; its properties are `PipelineProperties.FetchLoopExtends`, `FetchLoopProgress` and `SaveBeforeNextFetch` |
| Pipeline.StartRecord | src/data/pipeline.py:49 | computes `progress.get(category, 1)`; `PipelineProperties.FirstFetchUsesSavedOffset` states it is where the first fetch starts |
| Pipeline.CategoryRun | src/data/pipeline.py:49-89 | computes one category's run from its saved start record; `PipelineProperties.CategoryRunTouchesOnlyItsEntry` and `FetchLoopCategory` state what it touches |
| Pipeline.RunCategory | src/data/pipeline.py:49-89 | the `while True` loop of one category computes `CategoryRun` |
| PipelineProperties.PageStepFetchesOnce | src/data/pipeline.py:53-85 | a pass makes exactly one fetch, first, with its start record |
| PipelineProperties.PageStepProcessed | src/data/pipeline.py:67-89 | a processed page sets the flag, inserts its rows right after the fetch, advances the entry by the page size, saves the whole map last, and ends the loop iff it is short |
| PipelineProperties.FetchLoopExtends | src/data/pipeline.py:52-89 | the loop's trace extends that of its first pass, which begins with the fetch at the start record |
| PipelineProperties.FetchLoopOnlyAppends | src/data/pipeline.py:52-89 | the loop only appends to the trace |
| PipelineProperties.FetchLoopCategory | src/data/pipeline.py:52-89 | a category's loop fetches only that category |
| PipelineProperties.FetchLoopFlag | src/data/pipeline.py:63-67 | the flag ends set iff it was set or the first page was non-empty; an exception implies the flag |
| PipelineProperties.FetchLoopProgress | src/data/pipeline.py:83-85 | after k saved pages, the saved snapshots are start + page size, ..., start + k·page size, and the progress and file hold the last (no change when k = 0) |
| PipelineProperties.SavedPagesCompose | src/data/pipeline.py:83-85 | one saved page followed by k more is k + 1 saved pages |
| PipelineProperties.SnapshotsNonDecreasing | src/data/pipeline.py:83-84 | with a non-negative page size the saved start records never decrease |
| PipelineProperties.SaveBeforeNextFetch | src/data/pipeline.py:83-85 | every fetch after the first comes right after a save whose entry is that fetch's start record |
| PipelineProperties.FirstFetchUsesSavedOffset | src/data/pipeline.py:49 | the first fetch uses the saved entry, or 1 when the map has none |
| PipelineProperties.EmptyPageChangesNothing | src/data/pipeline.py:63-65 | an empty first page: one fetch, and progress, file, flag and database are unchanged |
| PipelineProperties.UnprocessedPageSavesNothing | src/data/pipeline.py:63-71 | an empty page, or one the processor raises on, stops the loop with nothing saved |
| PipelineProperties.ShortPageEndsAfterSave | src/data/pipeline.py:83-89 | a short page ends the loop after the save, with no further fetch, no exception, and the entry advanced by one page size |
| PipelineProperties.PageRowsInsertedInOrder | src/data/pipeline.py:71-81 | a processed page's rows are inserted right after its fetch, in order |
| PipelineProperties.CategoryRunTouchesOnlyItsEntry | src/data/pipeline.py:84 | a category's run leaves every other category's entry as it was, present or absent |
| Pipeline.AllButLast | src/data/pipeline.py:47 | `categories[:-1]` is the list without its last element |
| Pipeline.RaisedStaysRaised | src/data/pipeline.py:47-89 | once a category raises, the later categories are never run |
| Pipeline.CategoriesRun | src/data/pipeline.py:47-89 | computes the `for` loop over the categories, stopping at the first exception; `PipelineProperties.CategoriesRunTrace`, `CategoriesRunFlag` and `LastCategoryNeverFetched` state its properties |
| PipelineProperties.CategoriesRunTrace | src/data/pipeline.py:47-89 | over the categories the trace only grows, and only listed categories are fetched |
| PipelineProperties.CategoriesRunFlag | src/data/pipeline.py:45-67 | the flag ends set iff some category's first page was non-empty |
| PipelineProperties.LastCategoryNeverFetched | src/data/pipeline.py:47 | every fetch is of a category in `categories[:-1]`; the last category is never fetched unless it also appears earlier |
| Pipeline.PendingAmong | src/data/pipeline.py:102-112 | a prompt is kept iff its paper is stored and no classification row carries its id |
| Pipeline.Unclassified | src/data/pipeline.py:102-112 | the anti-join query returns exactly the stored papers with a prompt and no classification |
| Pipeline.ClassifyNewUnclassified | src/data/pipeline.py:98-119 | with nothing unclassified, the database is unchanged; otherwise only classification rows are appended |
| PipelineProperties.ClassificationLeavesNothingUnclassified | src/data/pipeline.py:98-119 | if the classifier gives every text at least one label, no paper is left unclassified |
| Pipeline.ClassifyNewUnclassifiedAsWritten | src/data/pipeline.py:113-117 | the step as written succeeds iff nothing is unclassified, and then changes nothing |
| PipelineProperties.TimerKeywordRaises | src/data/pipeline.py:117 | on one pending paper the step as written raises `TypeError`, where the intended step classifies it |
| Pipeline.IngestRun | src/data/pipeline.py:44-89 | an unreadable progress file raises before any fetch |
| Pipeline.PipelineRun | src/data/pipeline.py:25-95 | as written: an unreadable progress file raises before any fetch; after a completed ingest the run completes iff nothing is left unclassified, and only then |
| Pipeline.IntendedPipelineRun | src/data/pipeline.py:25-95 | with the classification step as intended: the ingest's outcome and exception, with only classification rows changed |
| Pipeline.RunPipeline | src/data/pipeline.py:25-95 | the method computes `PipelineRun`, the run as written |
| PipelineProperties.AsWrittenAgainstIntended | src/data/pipeline.py:93-95 | the two runs agree when the ingest raises or nothing is pending; with a paper pending, the run as written raises `TypeError` with the ingest's state, where the intended run completes |
| PipelineProperties.ReturnsWhetherAnyPageArrived | src/data/pipeline.py:45-95 | a completed run, as written or intended, returns true iff some category but the last had a non-empty first page |
| PipelineProperties.EnergyScenario | src/data/pipeline.py:44-95 | with no progress file, one full page of two papers and then nothing: fetches at 1 and 3, both rows inserted, progress {"energy": 3} saved; the intended run returns true, the run as written returns true iff no stored paper is pending and otherwise raises `TypeError` |
| Columns.Select | src/data/process_papers.py:50 | `df[cols]` succeeds iff every wanted column exists, giving exactly them in order; otherwise it names a missing one |
| Columns.Assign | src/data/process_papers.py:94 | an assigned column is present afterwards; a new one goes last; nothing else is added or lost |
| Columns.Rename | src/data/process_papers.py:69-76 | renaming keeps the number of columns |
| Columns.RenameConcat | src/data/process_papers.py:69-76 | renaming works label by label over a concatenation |
| Columns.Drop | src/data/process_papers.py:97 | dropping succeeds iff the column exists, giving the columns without it |
| Normalizer.ProjectAuthor | src/data/process_papers.py:81-90 | one author succeeds iff it has `id`, `full_name` and `affiliation`, giving exactly those three; otherwise `KeyError` for one of the three keys |
| Normalizer.ExtractAuthorInfo | src/data/process_papers.py:79-92 | success iff every author has the three keys; same length, order and fields; otherwise `KeyError` for a missing key |
| Normalizer.Normalized | src/data/process_papers.py:32-131 | success iff the kept columns exist, there are rows and every author is complete; then the twelve columns in order and one normalised row per input row; no rows gives the prompt-assignment `ValueError`; otherwise `KeyError` |
| Normalizer.ReshapeColumns | src/data/process_papers.py:36-129 | the column steps give exactly the twelve-column order without `authors.authors`, or fail on the first missing kept column |
| Normalizer.ProcessPapers | src/data/process_papers.py:32-131 | the method computes `Normalized` |
| Normalizer.RenamedColumns | src/data/process_papers.py:69-76 | the rename gives the three `index_terms_*` names in place, the other kept columns unchanged |
| Normalizer.DroppedColumns | src/data/process_papers.py:94-129 | after the drop and the prompt assignment, every label of the final order is present |
| Normalizer.ProcessedRowsNormalize | src/data/process_papers.py:50-112 | with every kept column present, at least one row and every author complete, the page is processed, and row i of the output is row i of the input: same ids and counts, ISO date or null, year reading back as the year, term lists unchanged, authors projected, exact prompt |
| Normalizer.ShapeRow | src/data/process_papers.py:50-112 | computes one processed row from a raw row and its projected authors; `Normalizer.ProcessedRowsNormalize` states field by field what it gives |
| Normalizer.CreatePrompt | src/data/process_papers.py:101-110 | computes `_create_prompt`; `Normalizer.PromptShape`, `PromptTermGroups`, `PromptExample` and `PromptWithoutTerms` state its form |
| Normalizer.PromptShape | src/data/process_papers.py:110 | every prompt starts with `title: ` and ends with ` - index_terms: ` followed by the joined terms |
| Normalizer.JoinGroups | src/data/process_papers.py:104-109 | joining concatenated groups is joining the non-empty groups' own texts, in order |
| Normalizer.PromptTermGroups | src/data/process_papers.py:101-110 | the terms are author, then IEEE, then dynamic, each non-empty group comma-joined, one separator between groups and none for an empty group, whichever groups are empty; the all-present, no-author, no-IEEE and author-only cases written out |
| Normalizer.PromptExample | src/data/process_papers.py:101-110 | T, A, [x], [y], [z] gives `title: T - abstract: A - index_terms: x, y, z` |
| Normalizer.PromptWithoutTerms | src/data/process_papers.py:104-110 | with no terms the prompt ends in ` - index_terms: `; a missing title prints as `nan` |
| Strings.JoinAppend | src/data/process_papers.py:104-109 | joining a concatenation is the two joins with one separator between them |
| Strings.IntToStringRoundTrip | src/data/process_papers.py:58 | `str(year)` reads back as the year and has no stray leading zero |
| Strings.NatToStringValue | src/data/process_papers.py:58 | the decimal numeral of n denotes n |
| Dates.ParseCompact | src/data/process_papers.py:53-55 | a parsed date is a real calendar day inside the pandas timestamp range |
| Dates.ToIsoDate | src/data/process_papers.py:53-56 | a date is produced iff the input parses; it has the `YYYY-MM-DD` shape: ten characters, dashes at 4 and 7, digits elsewhere |
| Dates.IsoDateRoundTrip | src/data/process_papers.py:53-56 | a date is produced iff the input is eight digits naming a valid representable day; it is ten characters, and deleting its dashes gives the input back |
| Dates.FormatParseRoundTrip | src/data/process_papers.py:53-56 | formatting a representable day compactly and parsing it back gives the day; its ISO output is that day's ISO form |
| Dates.LeapDayExample | src/data/process_papers.py:53-56 | `20240229` becomes `2024-02-29` |
| Dates.NoLeapDayExample | src/data/process_papers.py:53-56 | `20230229` becomes null |
| Dates.OutOfFormatExamples | src/data/process_papers.py:53-56 | a dashed input, or a day before the first representable timestamp, becomes null |
| LegacyNormalizer.LegacyNormalized | src/process_papers.py:15-105 | success iff the kept columns exist, there are rows, every date parses and every author is complete; then twelve columns and one row per input row, in order; no rows gives the prompt-assignment `ValueError` |
| LegacyNormalizer.LegacyProcessPapers | src/process_papers.py:15-105 | the method computes `LegacyNormalized` |
| LegacyNormalizer.BadDateRaises | src/process_papers.py:36-38 | one unparseable date makes the older revision raise `ValueError`, not produce a null |
| LegacyNormalizer.RowsAgree | src/process_papers.py:36-86 | an accepted row differs from the current revision's only in the date's form: compact instead of ISO |
| LegacyNormalizer.RevisionsAgree | src/process_papers.py:15-105 | when the older revision succeeds, so does the current one, and rows agree except for the date form |
| Dates.ToCompactDate | src/process_papers.py:36-38 | succeeds iff the input parses, with eight digits; otherwise `ValueError` |
| Dates.CompactDateIsIdentity | src/process_papers.py:36-38 | the older date transform succeeds iff the date is valid, and then returns its input unchanged |
| Dates.LeapDayCompactExample | src/process_papers.py:36-38 | `20240229` is kept as `20240229` |
| Dates.NoThirteenthMonthExample | src/process_papers.py:36-38 | `20231301` raises |
| MultiLabel.Zip | src/data/classify_papers.py:21-24 | the i-th label is paired with the i-th score, as many pairs as the shorter list |
| MultiLabel.ClassifyText | src/data/classify_papers.py:11-24 | computes `classify_text`: the classifier's labels zipped with its scores, whose pairing `MultiLabel.Zip` states |
| MultiLabel.RowsFor | src/data/classify_papers.py:39-43 | one classification row per pair, carrying the paper id, in pair order |
| MultiLabel.Classifications | src/data/classify_papers.py:37-45 | computes the rows `classify_all_papers` collects; `MultiLabel.ClassificationsAppend`, `ClassificationsLength`, `ClassificationsMembership` and `ClassificationsCarryIds` state its properties |
| MultiLabel.ClassifyAllPapers | src/data/classify_papers.py:27-45 | the `extend` loop computes `Classifications` |
| MultiLabel.ClassificationsAppend | src/data/classify_papers.py:38-44 | the output for xs + ys is the output for xs followed by that for ys |
| MultiLabel.SingleRowGroup | src/data/classify_papers.py:38-44 | one row's group holds each (label, score) pair, in classifier order |
| MultiLabel.ClassificationsLength | src/data/classify_papers.py:37-45 | the output length is the total number of pairs: nothing is filtered |
| MultiLabel.ClassificationsMembership | src/data/classify_papers.py:38-44 | a row is in the output iff it is some input row's id with one of that prompt's pairs |
| MultiLabel.ClassificationsCarryIds | src/data/classify_papers.py:37-45 | every output row carries an input row's paper id; empty input gives empty output |
| SingleLabel.MaxOf | src/classification.py:45 | `max` returns an element not below any other |
| SingleLabel.IndexOf | src/classification.py:45 | `list.index` returns the first position holding the value |
| SingleLabel.ClassifyText | src/classification.py:33-48 | an empty score list raises `ValueError`; a result is the label and score at one common index |
| SingleLabel.ClassifyTextChoosesFirstArgmax | src/classification.py:45-47 | on aligned non-empty lists it succeeds with the label and score at the first maximal position; the score is the maximum and the label a candidate |
| SingleLabel.FirstArgmaxUnique | src/classification.py:45 | the first maximal position is unique |
| SingleLabel.TieExample | src/classification.py:45-47 | scores [0.25, 0.5, 0.5] pick the second label |
| SingleLabel.ClassifyPapers | src/classification.py:62 | success iff `text_input` exists and every row classifies; then one category and confidence per row, row count kept; an empty frame gives an empty frame |
| SingleLabel.ClassifyRow | src/classification.py:33-48 | computes the per-row `classify_text` call, giving the row its category and confidence or the call's error; `SingleLabel.ClassifyPapers` and `ClassifyTextChoosesFirstArgmax` state its effect |
| SingleLabel.ClassifyPapersAsWritten | src/classification.py:62 | as written: `KeyError` without `text_input`, `ValueError` on an empty frame, and otherwise exactly the intended `ClassifyPapers` |
| SingleLabel.EmptyFrameRaises | src/classification.py:62 | the unpacking as written raises on an empty frame, where the intended assignment gives an empty frame |
| TextInput.CreateTextInput | src/data_preprocessing.py:44-51 | computes `create_text_input`; every text starts with `Title: ` and ends with `.`; `TextInput.MissingReadsAsEmpty`, `KeywordSeparator` and `TextInputExample` state its parts |
| TextInput.PreprocessCsv | src/data_preprocessing.py:23-57 | success iff the five kept columns exist (else `KeyError`); then exactly `text_input` and `publication_year`, one text per row |
| TextInput.MissingReadsAsEmpty | src/data_preprocessing.py:45-48 | a missing title, abstract or term list reads exactly as an empty one |
| TextInput.KeywordSeparator | src/data_preprocessing.py:47-50 | with both lists non-empty the keywords are one comma-join; with both empty the text still ends in `. Keywords: , .` |
| TextInput.TextInputExample | src/data_preprocessing.py:44-51 | title T, abstract A, terms [x] and none gives `Title: T. Abstract: A. Keywords: x, .` |

## Left out

- HTTP fetching is a parameter: a finite list of pages per category.
  - The current source reads one fixed CSV file for every fetch, and the API helper ignores the
    start record.
  - With that file, a category whose file holds at least a page of rows would loop forever.
  - A category that appears twice in the list sees its page list from the start again.
- A fetch that raises (the `pd.read_csv` of `src/data/pipeline.py:61`, or an API error) and a
  classifier that raises are not modelled: the fetcher and the classifier parameters are total.
- Pipeline.RunPipeline: takes the page processor as a parameter instead of calling
  `Normalizer.ProcessPapers` itself, because the loop's proof must not unfold the normaliser. The
  intended instance is `Normalizer.Normalized`.
- The progress file is a value (`NoFile`, `Corrupt` or a stored map) rather than JSON on disk.
  File-system failures are not modelled.
- SQLite and the `Database` class (`insert_full_paper`, `initialize`, `close`) are not part of this
  model. The insert is a parameter that returns the new database and whether it raised.
  - No idempotence or duplicate handling is claimed.
  - `to_sql` and `read_sql_query` are modelled as appending to the classification list and as the
    anti-join in prompt order; SQL row order is not otherwise fixed.
- The zero-shot classifier is a parameter, and its scores are reals: no floating-point behaviour.
- `eval` and `ast.literal_eval` of the term and author columns are not modelled: lists and author
  records arrive parsed. The older revision's `pd.to_datetime` without a format is modelled as strict
  `YYYYMMDD` parsing.
- Missing values other than title, abstract and term lists in the text-input builder, and the
  rendering of non-text cells, are not modelled.
- Logging, CSV output files, `os.makedirs` and the file reads of `preprocess_csv` and
  `classify_papers` are not modelled.
- Dashboards, schedulers, entry points and configuration are not modelled; the category list and the
  page size are parameters.
- Pipeline.ClassifyNewUnclassified: states the database's ids and prompts unchanged and the old
  classification rows kept, not the exact rows appended; those are `MultiLabel.Classifications` of
  the pending prompts, as `PipelineProperties.TimerKeywordRaises` shows for one paper.
- Columns.Rename: states only the length; the renamed labels are stated for the one rename the
  normaliser makes, in `Normalizer.RenamedColumns`.

## Findings

| source | as written | input that shows it | evidently intended | confidence | as-written member | corrected member |
|---|---|---|---|---|---|---|
| src/data/pipeline.py:117 | `classify_all_papers(df_unclassified, timer=True)`, but `classify_all_papers` (src/data/classify_papers.py:27) takes no `timer` argument, so the call raises `TypeError` | one stored paper with a prompt and no classification row | classify the pending prompts and append the rows | not executed | Pipeline.ClassifyNewUnclassifiedAsWritten | Pipeline.ClassifyNewUnclassified |
| src/classification.py:62 | `df["category"], df["confidence"] = zip(*...)` unpacks two values from an empty `zip`, so an empty frame raises `ValueError` | a preprocessed frame with a `text_input` column and no rows | an empty frame gains empty `category` and `confidence` columns | not executed | SingleLabel.ClassifyPapersAsWritten | SingleLabel.ClassifyPapers |
