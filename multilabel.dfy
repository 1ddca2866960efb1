/**
 * Multi-label classification results (src/data/classify_papers.py): the classifier's answer for one
 * prompt as (label, score) pairs, and the flattening of the answers for many prompts into rows
 * (paper_id, category, confidence). The zero-shot classifier itself is a function parameter.
 */
module MultiLabel {

  /** What the zero-shot pipeline returns for one text: labels and scores, aligned by position. */
  datatype ClassifierOutput = ClassifierOutput(labels: seq<string>, scores: seq<real>)

  type Classifier = string -> ClassifierOutput

  /** One row of the unclassified-papers query: a paper and its prompt. */
  datatype PromptRow = PromptRow(paperId: int, promptText: string)

  /** One row of the classification table. */
  datatype ClassificationRow = ClassificationRow(paperId: int, category: string, confidence: real)

  function Min(a: int, b: int): int {
    if a <= b then a else b
  }

  /** Python's `zip`: aligned pairs, as many as the shorter list has items. */
  function Zip(labels: seq<string>, scores: seq<real>): (r: seq<(string, real)>)
    ensures |r| == Min(|labels|, |scores|)
    ensures forall i :: 0 <= i < |r| ==> r[i] == (labels[i], scores[i])
    decreases |labels|
  {
    if labels == [] || scores == [] then [] else [(labels[0], scores[0])] + Zip(labels[1..], scores[1..])
  }

  /** `classify_text`: the i-th label paired with the i-th score, in the classifier's order. */
  function ClassifyText(out: ClassifierOutput): seq<(string, real)> {
    Zip(out.labels, out.scores)
  }

  /** One classification row per pair, each carrying the paper's id. */
  function RowsFor(paperId: int, pairs: seq<(string, real)>): (r: seq<ClassificationRow>)
    ensures |r| == |pairs|
    ensures forall j :: 0 <= j < |pairs| ==> r[j] == ClassificationRow(paperId, pairs[j].0, pairs[j].1)
  {
    seq(|pairs|, j requires 0 <= j < |pairs| => ClassificationRow(paperId, pairs[j].0, pairs[j].1))
  }

  function RowsOf(row: PromptRow, classify: Classifier): seq<ClassificationRow> {
    RowsFor(row.paperId, ClassifyText(classify(row.promptText)))
  }

  /** The rows `classify_all_papers` collects: each input row's classification rows, in input order. */
  function Classifications(rows: seq<PromptRow>, classify: Classifier): seq<ClassificationRow>
    decreases |rows|
  {
    if rows == [] then [] else Classifications(rows[..|rows| - 1], classify) + RowsOf(rows[|rows| - 1], classify)
  }

  /** `classify_all_papers`: a loop over the rows, extending the result with each row's pairs. */
  method ClassifyAllPapers(rows: seq<PromptRow>, classify: Classifier) returns (classifications: seq<ClassificationRow>)
    ensures classifications == Classifications(rows, classify)
  {
    classifications := [];
    for i := 0 to |rows|
      invariant classifications == Classifications(rows[..i], classify)
    {
      assert rows[..i + 1][..i] == rows[..i];
      classifications := classifications + RowsOf(rows[i], classify);
    }
    assert rows[..|rows|] == rows;
  }

  /** The number of pairs the classifier returns over all rows. */
  function PairCount(rows: seq<PromptRow>, classify: Classifier): nat
    decreases |rows|
  {
    if rows == [] then 0 else PairCount(rows[..|rows| - 1], classify) + |ClassifyText(classify(rows[|rows| - 1].promptText))|
  }

  /** Output rows are grouped by input row, groups in input order: the flattening distributes over `+`. */
  lemma {:induction false} ClassificationsAppend(xs: seq<PromptRow>, ys: seq<PromptRow>, classify: Classifier)
    ensures Classifications(xs + ys, classify) == Classifications(xs, classify) + Classifications(ys, classify)
  {
    if ys == [] {
      assert xs + ys == xs;
    } else {
      var init := ys[..|ys| - 1];
      assert (xs + ys)[..|xs + ys| - 1] == xs + init;
      ClassificationsAppend(xs, init, classify);
    }
  }

  /** One row's group holds every pair the classifier returned for its prompt, in the classifier's order. */
  lemma SingleRowGroup(row: PromptRow, classify: Classifier)
    ensures Classifications([row], classify) == RowsOf(row, classify)
    ensures forall j :: 0 <= j < |ClassifyText(classify(row.promptText))| ==>
              Classifications([row], classify)[j]
              == ClassificationRow(row.paperId, classify(row.promptText).labels[j], classify(row.promptText).scores[j])
  {
    assert [row][..0] == [];
  }

  /** No pair is dropped or thresholded: the output has exactly as many rows as the classifier gave pairs. */
  lemma {:induction false} ClassificationsLength(rows: seq<PromptRow>, classify: Classifier)
    ensures |Classifications(rows, classify)| == PairCount(rows, classify)
  {
    if rows != [] {
      ClassificationsLength(rows[..|rows| - 1], classify);
    }
  }

  /**
   * A classification row is in the output exactly when some input row's classifier answer holds its
   * (category, confidence) pair, and it then carries that row's paper id.
   */
  lemma {:induction false} ClassificationsMembership(rows: seq<PromptRow>, classify: Classifier, c: ClassificationRow)
    ensures c in Classifications(rows, classify) <==>
              exists i :: 0 <= i < |rows| && rows[i].paperId == c.paperId
                          && (c.category, c.confidence) in ClassifyText(classify(rows[i].promptText))
  {
    if rows != [] {
      var init := rows[..|rows| - 1];
      var last := rows[|rows| - 1];
      ClassificationsMembership(init, classify, c);
      var pairs := ClassifyText(classify(last.promptText));
      assert c in RowsOf(last, classify) <==> last.paperId == c.paperId && (c.category, c.confidence) in pairs by {
        if c in RowsOf(last, classify) {
          var j :| 0 <= j < |pairs| && RowsOf(last, classify)[j] == c;
        }
        if last.paperId == c.paperId && (c.category, c.confidence) in pairs {
          var j :| 0 <= j < |pairs| && pairs[j] == (c.category, c.confidence);
          assert RowsOf(last, classify)[j] == c;
        }
      }
      if exists i :: 0 <= i < |rows| && rows[i].paperId == c.paperId
                     && (c.category, c.confidence) in ClassifyText(classify(rows[i].promptText)) {
        var i :| 0 <= i < |rows| && rows[i].paperId == c.paperId
                 && (c.category, c.confidence) in ClassifyText(classify(rows[i].promptText));
        if i < |rows| - 1 {
          assert init[i] == rows[i];
        }
      }
    }
  }

  /** Every output row carries the paper id of an input row; empty input gives empty output. */
  lemma ClassificationsCarryIds(rows: seq<PromptRow>, classify: Classifier)
    ensures forall c :: c in Classifications(rows, classify) ==> exists i :: 0 <= i < |rows| && rows[i].paperId == c.paperId
    ensures rows == [] ==> Classifications(rows, classify) == []
  {
    forall c | c in Classifications(rows, classify)
      ensures exists i :: 0 <= i < |rows| && rows[i].paperId == c.paperId
    {
      ClassificationsMembership(rows, classify, c);
    }
  }
}
