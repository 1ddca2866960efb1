/**
 * The earlier preprocessing script (src/data_preprocessing.py): each row of a raw CSV becomes one
 * classifier input text built from its title, abstract and two keyword lists, and the output keeps
 * only that text and the publication year.
 */
module TextInput {
  import opened Wrappers
  import opened Exceptions
  import opened Strings
  import opened Columns

  /** The kept cells of one CSV row; `None` is a `NaN` cell. Keyword lists arrive parsed. */
  datatype CsvRow = CsvRow(
    abstractText: Option<string>,
    title: Option<string>,
    publicationYear: int,
    authorTerms: Option<seq<string>>,
    ieeeTerms: Option<seq<string>>)

  datatype CsvFrame = CsvFrame(columns: seq<Column>, rows: seq<CsvRow>)

  datatype TextRow = TextRow(textInput: string, publicationYear: int)

  datatype TextFrame = TextFrame(columns: seq<Column>, rows: seq<TextRow>)

  const KeepColumns: seq<Column> := [Abstract, Title, PublicationYear, AuthorTermsRaw, IeeeTermsRaw]

  const OutputColumns: seq<Column> := [TextInputColumn, PublicationYear]

  /** A text cell, or the empty string for a missing one. */
  function TextOr(c: Option<string>): string {
    match c
    case Some(s) => s
    case None => ""
  }

  /** A keyword list comma-joined, or the empty string for a missing one. */
  function KeywordsOr(c: Option<seq<string>>): string {
    match c
    case Some(terms) => Join(", ", terms)
    case None => ""
  }

  /** `create_text_input`. */
  function CreateTextInput(row: CsvRow): (r: string)
    ensures |r| >= |"Title: . Abstract: . Keywords: , ."|
    ensures r[..|"Title: "|] == "Title: " && r[|r| - 1] == '.'
  {
    "Title: " + TextOr(row.title) + ". Abstract: " + TextOr(row.abstractText)
    + ". Keywords: " + KeywordsOr(row.authorTerms) + ", " + KeywordsOr(row.ieeeTerms) + "."
  }

  /**
   * `preprocess_csv` without the file handling: select the five columns, add `text_input`, keep
   * only `text_input` and `publication_year`.
   */
  method PreprocessCsv(df: CsvFrame) returns (r: Result<TextFrame, Error>)
    ensures r.Success? <==> forall c :: c in KeepColumns ==> c in df.columns
    ensures r.Failure? ==> r.error.KeyError?
    ensures r.Success? ==> r.value.columns == OutputColumns && |r.value.rows| == |df.rows|
    ensures r.Success? ==> forall i :: 0 <= i < |df.rows| ==>
              r.value.rows[i] == TextRow(CreateTextInput(df.rows[i]), df.rows[i].publicationYear)
  {
    var selected := Select(df.columns, KeepColumns);
    if selected.Failure? {
      return Failure(KeyError(ColumnName(selected.error)));
    }
    var cols := Assign(selected.value, TextInputColumn);
    var texts := seq(|df.rows|, i requires 0 <= i < |df.rows| => CreateTextInput(df.rows[i]));
    var projected := Select(cols, OutputColumns);
    assert projected.Success?;
    var rows := seq(|df.rows|, i requires 0 <= i < |df.rows| => TextRow(texts[i], df.rows[i].publicationYear));
    r := Success(TextFrame(projected.value, rows));
  }

  /** A missing title, abstract or keyword list reads exactly like an empty one. */
  lemma MissingReadsAsEmpty(row: CsvRow)
    ensures CreateTextInput(row.(title := None)) == CreateTextInput(row.(title := Some("")))
    ensures CreateTextInput(row.(abstractText := None)) == CreateTextInput(row.(abstractText := Some("")))
    ensures CreateTextInput(row.(authorTerms := None)) == CreateTextInput(row.(authorTerms := Some([])))
    ensures CreateTextInput(row.(ieeeTerms := None)) == CreateTextInput(row.(ieeeTerms := Some([])))
  {
  }

  /**
   * The `", "` between the two keyword groups is always written: with both groups non-empty the
   * keywords read as one comma-joined list, and with neither the text ends in `Keywords: , .`.
   */
  lemma KeywordSeparator(row: CsvRow)
    ensures row.authorTerms.Some? && row.authorTerms.value != [] && row.ieeeTerms.Some? && row.ieeeTerms.value != [] ==>
              CreateTextInput(row) == "Title: " + TextOr(row.title) + ". Abstract: " + TextOr(row.abstractText)
                                      + ". Keywords: " + Join(", ", row.authorTerms.value + row.ieeeTerms.value) + "."
    ensures KeywordsOr(row.authorTerms) == "" && KeywordsOr(row.ieeeTerms) == "" ==>
              CreateTextInput(row) == "Title: " + TextOr(row.title) + ". Abstract: " + TextOr(row.abstractText) + ". Keywords: , ."
  {
    if row.authorTerms.Some? && row.authorTerms.value != [] && row.ieeeTerms.Some? && row.ieeeTerms.value != [] {
      JoinAppend(", ", row.authorTerms.value, row.ieeeTerms.value);
    }
  }

  /** A row with no IEEE terms still carries the separator after its author keyword. */
  lemma TextInputExample()
    ensures CreateTextInput(CsvRow(Some("A"), Some("T"), 2024, Some(["x"]), None)) == "Title: T. Abstract: A. Keywords: x, ."
  {
  }
}
