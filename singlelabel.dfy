/**
 * Single-label classification (src/classification.py): for each preprocessed text the classifier's
 * best label, the one at the first position holding the highest score, and that score.
 */
module SingleLabel {
  import opened Wrappers
  import opened Exceptions
  import opened Columns
  import opened MultiLabel
  import opened TextInput

  /** Python's `max` over a non-empty list of scores. */
  function MaxOf(xs: seq<real>): (m: real)
    requires xs != []
    ensures m in xs
    ensures forall i :: 0 <= i < |xs| ==> xs[i] <= m
    decreases |xs|
  {
    if |xs| == 1 then xs[0]
    else var rest := MaxOf(xs[1..]); if xs[0] >= rest then xs[0] else rest
  }

  /** Python's `list.index`: the first position holding `v`. */
  function IndexOf(xs: seq<real>, v: real): (i: nat)
    requires v in xs
    ensures i < |xs| && xs[i] == v
    ensures forall j :: 0 <= j < i ==> xs[j] != v
    decreases |xs|
  {
    if xs[0] == v then 0 else 1 + IndexOf(xs[1..], v)
  }

  /**
   * `classify_text`: `max` of an empty score list raises `ValueError`; a label list shorter than the
   * first maximal position raises `IndexError`; otherwise the label and score at that position.
   */
  function ClassifyText(out: ClassifierOutput): (r: Result<(string, real), Error>)
    ensures out.scores == [] ==> r.Failure? && r.error.ValueError?
    ensures r.Success? ==> exists i :: 0 <= i < |out.scores| && i < |out.labels| && r.value == (out.labels[i], out.scores[i])
  {
    if out.scores == [] then Failure(ValueError("max() arg is an empty sequence"))
    else
      var best := IndexOf(out.scores, MaxOf(out.scores));
      if best < |out.labels| then Success((out.labels[best], out.scores[best]))
      else Failure(IndexError("list index out of range"))
  }

  /** Position `i` holds the highest score, and no earlier position does. */
  ghost predicate IsFirstArgmax(scores: seq<real>, i: int) {
    && 0 <= i < |scores|
    && (forall j :: 0 <= j < |scores| ==> scores[j] <= scores[i])
    && (forall j :: 0 <= j < i ==> scores[j] < scores[i])
  }

  /**
   * On aligned, non-empty lists the choice succeeds, and it is the label and score at the first
   * position of the maximum, so the label is one of the candidates and the score is the maximum.
   */
  lemma ClassifyTextChoosesFirstArgmax(out: ClassifierOutput)
    requires out.scores != [] && |out.labels| == |out.scores|
    ensures ClassifyText(out).Success?
    ensures exists i :: IsFirstArgmax(out.scores, i) && ClassifyText(out).value == (out.labels[i], out.scores[i])
    ensures ClassifyText(out).value.0 in out.labels
    ensures forall j :: 0 <= j < |out.scores| ==> out.scores[j] <= ClassifyText(out).value.1
  {
    var m := MaxOf(out.scores);
    var best := IndexOf(out.scores, m);
    assert IsFirstArgmax(out.scores, best);
  }

  /** There is only one first position of the maximum. */
  lemma FirstArgmaxUnique(scores: seq<real>, i: int, k: int)
    requires IsFirstArgmax(scores, i) && IsFirstArgmax(scores, k)
    ensures i == k
  {
    assert scores[i] == scores[k];
  }

  /** A tie goes to the earlier label. */
  lemma TieExample()
    ensures ClassifyText(ClassifierOutput(["a", "b", "c"], [0.25, 0.5, 0.5])) == Success(("b", 0.5))
  {
    var s: seq<real> := [0.25, 0.5, 0.5];
    assert MaxOf(s[2..]) == 0.5;
    assert MaxOf(s[1..]) == 0.5;
    assert MaxOf(s) == 0.5;
    assert s[1..][0] == 0.5;
    assert IndexOf(s[1..], 0.5) == 0;
  }

  /** One classified row: the preprocessed row with its category and confidence columns. */
  datatype ClassifiedRow = ClassifiedRow(textInput: string, publicationYear: int, category: string, confidence: real)

  datatype ClassifiedFrame = ClassifiedFrame(columns: seq<Column>, rows: seq<ClassifiedRow>)

  function ClassifyRow(classify: Classifier): TextRow --> Result<ClassifiedRow, Error> {
    (row: TextRow) =>
      match ClassifyText(classify(row.textInput))
      case Failure(e) => Failure(e)
      case Success(best) => Success(ClassifiedRow(row.textInput, row.publicationYear, best.0, best.1))
  }

  /**
   * `classify_papers` as written: `df["category"], df["confidence"] = zip(*...)` unpacks nothing on
   * an empty frame and raises `ValueError`; otherwise as `ClassifyPapers`.
   */
  function ClassifyPapersAsWritten(df: TextFrame, classify: Classifier): (r: Result<ClassifiedFrame, Error>)
    ensures TextInputColumn !in df.columns ==> r == Failure(KeyError("text_input"))
    ensures TextInputColumn in df.columns && df.rows == [] ==> r.Failure? && r.error.ValueError?
    ensures df.rows != [] ==> r == ClassifyPapers(df, classify)
  {
    if TextInputColumn !in df.columns then Failure(KeyError("text_input"))
    else if df.rows == [] then Failure(ValueError("not enough values to unpack (expected 2, got 0)"))
    else ClassifyPapers(df, classify)
  }

  /**
   * `classify_papers` as intended: exactly one (category, confidence) per row, every other column
   * kept, the two new columns added after the existing ones; the first failing row's error otherwise.
   */
  function ClassifyPapers(df: TextFrame, classify: Classifier): (r: Result<ClassifiedFrame, Error>)
    ensures r.Success? <==>
              TextInputColumn in df.columns
              && forall i :: 0 <= i < |df.rows| ==> ClassifyText(classify(df.rows[i].textInput)).Success?
    ensures r.Success? ==> r.value.columns == Assign(Assign(df.columns, CategoryColumn), ConfidenceColumn)
    ensures r.Success? ==> |r.value.rows| == |df.rows|
    ensures r.Success? ==> forall i :: 0 <= i < |df.rows| ==>
              && r.value.rows[i].textInput == df.rows[i].textInput
              && r.value.rows[i].publicationYear == df.rows[i].publicationYear
              && (r.value.rows[i].category, r.value.rows[i].confidence) == ClassifyText(classify(df.rows[i].textInput)).value
    ensures df.rows == [] && TextInputColumn in df.columns ==> r == Success(ClassifiedFrame(Assign(Assign(df.columns, CategoryColumn), ConfidenceColumn), []))
  {
    if TextInputColumn !in df.columns then Failure(KeyError("text_input"))
    else
      match MapAll(ClassifyRow(classify), df.rows)
      case Failure(e) => Failure(e)
      case Success(rows) => Success(ClassifiedFrame(Assign(Assign(df.columns, CategoryColumn), ConfidenceColumn), rows))
  }

  /** The discrepancy: an empty frame that the intended version classifies to an empty frame makes the written one raise. */
  lemma EmptyFrameRaises(classify: Classifier)
    ensures ClassifyPapersAsWritten(TextFrame(OutputColumns, []), classify).Failure?
    ensures ClassifyPapers(TextFrame(OutputColumns, []), classify).Success?
    ensures ClassifyPapers(TextFrame(OutputColumns, []), classify).value.rows == []
  {
  }
}
