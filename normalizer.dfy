/**
 * The normalizer of the current revision (`process_papers` in src/data/process_papers.py): one raw
 * page of search results, already flattened by `json_normalize` and with its list-valued cells
 * parsed, becomes one flat row per paper with ISO dates, projected authors and a classifier prompt.
 */
module Normalizer {
  import opened Wrappers
  import opened Exceptions
  import opened Strings
  import opened Dates
  import opened Columns

  /** One nested author record as the API sends it; a key the record lacks is `None`. */
  datatype RawAuthor = RawAuthor(
    id: Option<int>,
    fullName: Option<string>,
    affiliation: Option<string>)

  /** The three fields of an author that are kept. */
  datatype Author = Author(authorId: int, fullName: string, affiliation: string)

  /**
   * The kept cells of one raw row. `title` and `abstractText` (the `abstract` column) are `None` where the cell is `NaN`;
   * term lists and author records arrive parsed.
   */
  datatype RawRow = RawRow(
    isNumber: int,
    insertDate: string,
    publicationYear: int,
    downloadCount: int,
    citingPatentCount: int,
    title: Option<string>,
    abstractText: Option<string>,
    authorTerms: seq<string>,
    ieeeTerms: seq<string>,
    dynamicTerms: seq<string>,
    authors: seq<RawAuthor>)

  /** A raw page: its column labels and its rows. */
  datatype RawFrame = RawFrame(columns: seq<Column>, rows: seq<RawRow>)

  /** One processed row; the fields stand in the order of `ColumnOrder`. */
  datatype PaperRow = PaperRow(
    isNumber: int,
    insertDate: Option<string>,
    publicationYear: string,
    downloadCount: int,
    citingPatentCount: int,
    indexTermsAuthor: seq<string>,
    indexTermsIeee: seq<string>,
    indexTermsDynamic: seq<string>,
    authors: seq<Author>,
    title: Option<string>,
    abstractText: Option<string>,
    prompt: string)

  datatype PaperFrame = PaperFrame(columns: seq<Column>, rows: seq<PaperRow>)

  const KeepColumns: seq<Column> := [
    IsNumber, InsertDate, PublicationYear, DownloadCount, CitingPatentCount, Title, Abstract,
    AuthorTermsRaw, IeeeTermsRaw, DynamicTermsRaw, AuthorsRaw]

  const TermRenames: map<Column, Column> := map[
    AuthorTermsRaw := IndexTermsAuthor, IeeeTermsRaw := IndexTermsIeee, DynamicTermsRaw := IndexTermsDynamic]

  const ColumnOrder: seq<Column> := [
    IsNumber, InsertDate, PublicationYear, DownloadCount, CitingPatentCount,
    IndexTermsAuthor, IndexTermsIeee, IndexTermsDynamic, AuthorsColumn, Title, Abstract, PromptColumn]

  predicate HasAuthorKeys(a: RawAuthor) {
    a.id.Some? && a.fullName.Some? && a.affiliation.Some?
  }

  /** One author record projected to id, full name and affiliation; `KeyError` for the first absent key. */
  function ProjectAuthor(a: RawAuthor): (r: Result<Author, Error>)
    ensures r.Success? <==> HasAuthorKeys(a)
    ensures r.Success? ==> r.value == Author(a.id.value, a.fullName.value, a.affiliation.value)
    ensures r.Failure? ==> r.error in {KeyError("id"), KeyError("full_name"), KeyError("affiliation")}
  {
    if a.id.None? then Failure(KeyError("id"))
    else if a.fullName.None? then Failure(KeyError("full_name"))
    else if a.affiliation.None? then Failure(KeyError("affiliation"))
    else Success(Author(a.id.value, a.fullName.value, a.affiliation.value))
  }

  /**
   * `_extract_author_info`: the author list projected one-to-one and in order; the comprehension
   * raises on the first record that lacks one of the three keys.
   */
  function ExtractAuthorInfo(authors: seq<RawAuthor>): (r: Result<seq<Author>, Error>)
    ensures r.Success? <==> forall i :: 0 <= i < |authors| ==> HasAuthorKeys(authors[i])
    ensures r.Success? ==> |r.value| == |authors|
    ensures r.Success? ==> forall i :: 0 <= i < |authors| ==>
              r.value[i] == Author(authors[i].id.value, authors[i].fullName.value, authors[i].affiliation.value)
    ensures r.Failure? ==> r.error in {KeyError("id"), KeyError("full_name"), KeyError("affiliation")}
  {
    MapAll(ProjectAuthor, authors)
  }

  /** What an f-string prints for a text cell: the text, or `nan` for a missing value. */
  function RenderCell(c: Option<string>): string {
    match c
    case Some(s) => s
    case None => "nan"
  }

  /** `_create_prompt`: title, abstract and every index term, author terms first, then IEEE, then dynamic. */
  function CreatePrompt(title: Option<string>, abstractText: Option<string>,
                        authorTerms: seq<string>, ieeeTerms: seq<string>, dynamicTerms: seq<string>): string
  {
    "title: " + RenderCell(title) + " - abstract: " + RenderCell(abstractText)
    + " - index_terms: " + Join(", ", authorTerms + ieeeTerms + dynamicTerms)
  }

  /** A processed row, given the row's projected authors. */
  function ShapeRow(raw: RawRow, authors: seq<Author>): PaperRow {
    PaperRow(
      raw.isNumber,
      ToIsoDate(raw.insertDate),
      IntToString(raw.publicationYear),
      raw.downloadCount,
      raw.citingPatentCount,
      raw.authorTerms,
      raw.ieeeTerms,
      raw.dynamicTerms,
      authors,
      raw.title,
      raw.abstractText,
      CreatePrompt(raw.title, raw.abstractText, raw.authorTerms, raw.ieeeTerms, raw.dynamicTerms))
  }

  function AuthorsOf(raw: RawRow): Result<seq<Author>, Error> {
    ExtractAuthorInfo(raw.authors)
  }

  /**
   * The processed page: `KeyError` when a kept column is missing, the first author error when a row
   * has an incomplete author record, and otherwise one row per input row under `ColumnOrder`.
   */
  function Normalized(df: RawFrame): (r: Result<PaperFrame, Error>)
    ensures r.Success? <==>
              (forall c :: c in KeepColumns ==> c in df.columns)
              && df.rows != []
              && forall i :: 0 <= i < |df.rows| ==> AuthorsOf(df.rows[i]).Success?
    ensures r.Success? ==> r.value.columns == ColumnOrder && |r.value.rows| == |df.rows|
    ensures r.Success? ==> forall i :: 0 <= i < |df.rows| ==>
              r.value.rows[i] == ShapeRow(df.rows[i], AuthorsOf(df.rows[i]).value)
    ensures (forall c :: c in KeepColumns ==> c in df.columns) && df.rows == [] ==> r == Failure(EmptyPromptError)
    ensures r.Failure? ==> r.error.KeyError? || r.error == EmptyPromptError
  {
    match Select(df.columns, KeepColumns)
    case Failure(missing) => Failure(KeyError(ColumnName(missing)))
    case Success(_) =>
      match MapAll(AuthorsOf, df.rows)
      case Failure(e) => Failure(e)
      case Success(authors) =>
        if df.rows == [] then Failure(EmptyPromptError)
        else Success(PaperFrame(ColumnOrder, seq(|df.rows|, i requires 0 <= i < |df.rows| => ShapeRow(df.rows[i], authors[i]))))
  }

  /**
   * What assigning the `prompt` column raises on a page with no rows: `DataFrame.apply` over no rows
   * probes `_create_prompt` with an all-`NaN` row, the join of `NaN` fails, so `apply` returns the
   * whole (multi-column) frame, which cannot be assigned to the single column `prompt`.
   */
  const EmptyPromptError := ValueError("Cannot set a DataFrame with multiple columns to the single column prompt")

  /**
   * The column labels of `process_papers`, step by step as the source rewrites `df_processed`:
   * select the kept columns, rewrite the date, year and term columns in place, rename the term
   * columns, add `authors` and drop `authors.authors`, add `prompt`, and reorder. Only the first
   * selection can fail; every later step finds the labels it needs.
   */
  method ReshapeColumns(cols: seq<Column>) returns (r: Result<seq<Column>, Column>)
    ensures r.Success? <==> forall c :: c in KeepColumns ==> c in cols
    ensures r.Success? ==> r.value == ColumnOrder && |r.value| == 12 && AuthorsRaw !in r.value
    ensures r.Failure? ==> Select(cols, KeepColumns) == Failure(r.error)
  {
    var selected := Select(cols, KeepColumns);
    if selected.Failure? {
      return Failure(selected.error);
    }
    var current := selected.value;
    // insert_date, publication_year and the three term columns change their values, not their labels
    current := Rename(current, TermRenames);
    RenamedColumns();
    assert AuthorsColumn !in current;
    current := Assign(current, AuthorsColumn);
    var dropped := Drop(current, AuthorsRaw);
    current := dropped.value;
    current := Assign(current, PromptColumn);
    DroppedColumns(current);
    var reordered := Select(current, ColumnOrder);
    r := Success(reordered.value);
  }

  /** `process_papers`: the reshaped columns over one normalized row per input row. */
  method ProcessPapers(df: RawFrame) returns (r: Result<PaperFrame, Error>)
    ensures r == Normalized(df)
  {
    var shaped := ReshapeColumns(df.columns);
    if shaped.Failure? {
      return Failure(KeyError(ColumnName(shaped.error)));
    }
    var authors := MapAll(AuthorsOf, df.rows);
    if authors.Failure? {
      return Failure(authors.error);
    }
    if |df.rows| == 0 {
      return Failure(EmptyPromptError);
    }
    var rows := seq(|df.rows|, i requires 0 <= i < |df.rows| => ShapeRow(df.rows[i], authors.value[i]));
    r := Success(PaperFrame(shaped.value, rows));
  }

  /** The kept columns after the rename. */
  const RenamedKeep: seq<Column> := [
    IsNumber, InsertDate, PublicationYear, DownloadCount, CitingPatentCount, Title, Abstract,
    IndexTermsAuthor, IndexTermsIeee, IndexTermsDynamic, AuthorsRaw]

  lemma RenamedColumns()
    ensures Rename(KeepColumns, TermRenames) == RenamedKeep
  {
    var head := [IsNumber, InsertDate, PublicationYear, DownloadCount, CitingPatentCount, Title, Abstract];
    var terms := [AuthorTermsRaw, IeeeTermsRaw, DynamicTermsRaw];
    assert KeepColumns == head + terms + [AuthorsRaw];
    RenameConcat(head + terms, [AuthorsRaw], TermRenames);
    RenameConcat(head, terms, TermRenames);
    assert Rename(head, TermRenames) == head;
    assert Rename(terms, TermRenames) == [IndexTermsAuthor, IndexTermsIeee, IndexTermsDynamic];
    assert Rename([AuthorsRaw], TermRenames) == [AuthorsRaw];
  }

  /** After `authors.authors` is dropped and `prompt` added, every label of `ColumnOrder` is present. */
  lemma DroppedColumns(cols: seq<Column>)
    requires cols == Assign(Without(RenamedKeep + [AuthorsColumn], AuthorsRaw), PromptColumn)
    ensures forall c :: c in ColumnOrder ==> c in cols
  {
  }

  /**
   * What each processed column holds: the identifiers and counts as read, the ISO insert date or
   * null, the year as a numeral that reads back as the year, the term lists unchanged, the authors
   * projected in order, and the exact prompt text.
   */
  ghost predicate RowNormalizes(raw: RawRow, row: PaperRow) {
    && row.isNumber == raw.isNumber
    && (row.insertDate.Some? <==> ParseCompact(raw.insertDate).Some?)
    && (row.insertDate.Some? ==> |row.insertDate.value| == 10 && RemoveDashes(row.insertDate.value) == raw.insertDate)
    && ParseDecimal(row.publicationYear) == Some(raw.publicationYear)
    && row.downloadCount == raw.downloadCount
    && row.citingPatentCount == raw.citingPatentCount
    && row.indexTermsAuthor == raw.authorTerms
    && row.indexTermsIeee == raw.ieeeTerms
    && row.indexTermsDynamic == raw.dynamicTerms
    && |row.authors| == |raw.authors|
    && (forall i :: 0 <= i < |raw.authors| ==>
          raw.authors[i].id == Some(row.authors[i].authorId)
          && raw.authors[i].fullName == Some(row.authors[i].fullName)
          && raw.authors[i].affiliation == Some(row.authors[i].affiliation))
    && row.title == raw.title
    && row.abstractText == raw.abstractText
    && row.prompt == "title: " + RenderCell(raw.title) + " - abstract: " + RenderCell(raw.abstractText)
                     + " - index_terms: " + Join(", ", raw.authorTerms + raw.ieeeTerms + raw.dynamicTerms)
  }

  /**
   * When every kept column is present, the page has rows and every author record is complete, the page is processed
   * and each of its rows is its input row, normalized column by column.
   */
  lemma ProcessedRowsNormalize(df: RawFrame)
    requires forall c :: c in KeepColumns ==> c in df.columns
    requires df.rows != []
    requires forall i :: 0 <= i < |df.rows| ==> AuthorsOf(df.rows[i]).Success?
    ensures Normalized(df).Success?
    ensures forall i :: 0 <= i < |df.rows| ==> RowNormalizes(df.rows[i], Normalized(df).value.rows[i])
  {
    forall i | 0 <= i < |df.rows|
      ensures RowNormalizes(df.rows[i], Normalized(df).value.rows[i])
    {
      IsoDateRoundTrip(df.rows[i].insertDate);
      IntToStringRoundTrip(df.rows[i].publicationYear);
    }
  }

  /** The term groups laid end to end, as `author_terms + ieee_terms + dynamic_terms` builds one list. */
  function Concat(groups: seq<seq<string>>): seq<string> {
    if groups == [] then [] else groups[0] + Concat(groups[1..])
  }

  /** The comma-joined text of each non-empty group, in order; an empty group contributes nothing. */
  function GroupTexts(groups: seq<seq<string>>): seq<string> {
    if groups == [] then []
    else (if groups[0] == [] then [] else [Join(", ", groups[0])]) + GroupTexts(groups[1..])
  }

  lemma {:induction false} GroupTextsEmpty(groups: seq<seq<string>>)
    ensures GroupTexts(groups) == [] <==> Concat(groups) == []
  {
    if groups != [] {
      GroupTextsEmpty(groups[1..]);
    }
  }

  /**
   * Joining the concatenated groups is joining the groups' own texts: each non-empty group appears
   * once, in order, with exactly one separator between neighbouring groups and none for an empty one.
   */
  lemma {:induction false} JoinGroups(groups: seq<seq<string>>)
    ensures Join(", ", Concat(groups)) == Join(", ", GroupTexts(groups))
  {
    if groups != [] {
      var rest := groups[1..];
      JoinGroups(rest);
      GroupTextsEmpty(rest);
      if groups[0] == [] {
        assert Concat(groups) == Concat(rest);
        assert GroupTexts(groups) == GroupTexts(rest);
      } else {
        var head := [Join(", ", groups[0])];
        if Concat(rest) == [] {
          assert Concat(groups) == groups[0];
          assert GroupTexts(groups) == head;
        } else {
          JoinAppend(", ", groups[0], Concat(rest));
          JoinAppend(", ", head, GroupTexts(rest));
        }
      }
    }
  }

  /** The three term groups of a prompt: their joined texts in order, whichever of them are empty. */
  lemma PromptTermGroups(authorTerms: seq<string>, ieeeTerms: seq<string>, dynamicTerms: seq<string>)
    ensures Join(", ", authorTerms + ieeeTerms + dynamicTerms)
            == Join(", ", GroupTexts([authorTerms, ieeeTerms, dynamicTerms]))
    ensures authorTerms != [] && ieeeTerms != [] && dynamicTerms != [] ==>
              Join(", ", authorTerms + ieeeTerms + dynamicTerms)
              == Join(", ", authorTerms) + ", " + Join(", ", ieeeTerms) + ", " + Join(", ", dynamicTerms)
    ensures authorTerms == [] && ieeeTerms != [] && dynamicTerms != [] ==>
              Join(", ", authorTerms + ieeeTerms + dynamicTerms) == Join(", ", ieeeTerms) + ", " + Join(", ", dynamicTerms)
    ensures authorTerms != [] && ieeeTerms == [] && dynamicTerms != [] ==>
              Join(", ", authorTerms + ieeeTerms + dynamicTerms) == Join(", ", authorTerms) + ", " + Join(", ", dynamicTerms)
    ensures ieeeTerms == [] && dynamicTerms == [] ==>
              Join(", ", authorTerms + ieeeTerms + dynamicTerms) == Join(", ", authorTerms)
  {
    var groups := [authorTerms, ieeeTerms, dynamicTerms];
    assert groups[1..] == [ieeeTerms, dynamicTerms];
    assert groups[1..][1..] == [dynamicTerms];
    assert groups[1..][1..][1..] == [];
    assert Concat(groups[1..][1..]) == dynamicTerms + [];
    assert Concat(groups[1..]) == ieeeTerms + dynamicTerms;
    assert Concat(groups) == authorTerms + ieeeTerms + dynamicTerms;
    JoinGroups(groups);
    var ta: seq<string> := if authorTerms == [] then [] else [Join(", ", authorTerms)];
    var ti: seq<string> := if ieeeTerms == [] then [] else [Join(", ", ieeeTerms)];
    var td: seq<string> := if dynamicTerms == [] then [] else [Join(", ", dynamicTerms)];
    assert GroupTexts(groups[1..][1..]) == td;
    assert GroupTexts(groups[1..]) == ti + td;
    assert GroupTexts(groups) == ta + ti + td;
    if ieeeTerms == [] && dynamicTerms == [] {
      assert ta + ti + td == ta;
    }
    if authorTerms != [] && ieeeTerms != [] && dynamicTerms != [] {
      assert ta + ti + td == [Join(", ", authorTerms), Join(", ", ieeeTerms), Join(", ", dynamicTerms)];
      JoinThree(", ", Join(", ", authorTerms), Join(", ", ieeeTerms), Join(", ", dynamicTerms));
    }
    if authorTerms == [] && ieeeTerms != [] && dynamicTerms != [] {
      assert ta + ti + td == [Join(", ", ieeeTerms), Join(", ", dynamicTerms)];
      JoinTwo(", ", Join(", ", ieeeTerms), Join(", ", dynamicTerms));
    }
    if authorTerms != [] && ieeeTerms == [] && dynamicTerms != [] {
      assert ta + ti + td == [Join(", ", authorTerms), Join(", ", dynamicTerms)];
      JoinTwo(", ", Join(", ", authorTerms), Join(", ", dynamicTerms));
    }
  }

  lemma JoinTwo(sep: string, a: string, b: string)
    ensures Join(sep, [a, b]) == a + sep + b
  {
    assert [a, b][1..] == [b];
  }

  /** A prompt starts with the title label and ends with the index-terms label and the joined terms. */
  lemma PromptShape(title: Option<string>, abstractText: Option<string>,
                    authorTerms: seq<string>, ieeeTerms: seq<string>, dynamicTerms: seq<string>)
    ensures var p := CreatePrompt(title, abstractText, authorTerms, ieeeTerms, dynamicTerms);
            var terms := Join(", ", authorTerms + ieeeTerms + dynamicTerms);
            && |p| >= |"title: "| + |" - index_terms: "| + |terms|
            && p[..|"title: "|] == "title: "
            && p[|p| - |terms| - |" - index_terms: "|..] == " - index_terms: " + terms
  {
    var head := "title: " + RenderCell(title) + " - abstract: " + RenderCell(abstractText);
    var tail := " - index_terms: " + Join(", ", authorTerms + ieeeTerms + dynamicTerms);
    assert CreatePrompt(title, abstractText, authorTerms, ieeeTerms, dynamicTerms) == head + tail;
    assert head[..|"title: "|] == "title: ";
    assert (head + tail)[..|"title: "|] == head[..|"title: "|];
    assert (head + tail)[|head|..] == tail;
  }

  /** The worked example: title T, abstract A and one term in each group. */
  lemma PromptExample()
    ensures CreatePrompt(Some("T"), Some("A"), ["x"], ["y"], ["z"]) == "title: T - abstract: A - index_terms: x, y, z"
  {
    JoinThree(", ", "x", "y", "z");
    assert ["x"] + ["y"] + ["z"] == ["x", "y", "z"];
  }

  lemma JoinThree(sep: string, a: string, b: string, c: string)
    ensures Join(sep, [a, b, c]) == a + sep + b + sep + c
  {
    var terms := [a, b, c];
    assert terms[1..] == [b, c];
    assert [b, c][1..] == [c];
    assert Join(sep, [b, c]) == b + sep + c;
  }

  /** With no index terms at all the prompt ends in the bare label; a missing title prints as `nan`. */
  lemma PromptWithoutTerms(title: Option<string>, abstractText: Option<string>)
    ensures var p := CreatePrompt(title, abstractText, [], [], []);
            p == "title: " + RenderCell(title) + " - abstract: " + RenderCell(abstractText) + " - index_terms: "
            && p[|p| - |" - index_terms: "|..] == " - index_terms: "
    ensures title.None? ==> CreatePrompt(title, abstractText, [], [], [])[..10] == "title: nan"
  {
    var none: seq<string> := [];
    assert none + none + none == none;
  }
}
