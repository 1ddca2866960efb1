/**
 * The older normalizer (`process_papers` in src/process_papers.py). It differs from the current one
 * only in the `insert_date` column: the date is parsed without coercion, so one bad date makes the
 * whole call raise, and it is written back in the compact `YYYYMMDD` form.
 */
module LegacyNormalizer {
  import opened Wrappers
  import opened Exceptions
  import opened Dates
  import opened Columns
  import opened Normalizer

  function CompactDateOf(raw: RawRow): Result<string, Error> {
    ToCompactDate(raw.insertDate)
  }

  /** An older processed row: as the current revision's, but with the compact date. */
  function LegacyShapeRow(raw: RawRow, date: string, authors: seq<Author>): PaperRow {
    ShapeRow(raw, authors).(insertDate := Some(date))
  }

  /**
   * The older processed page. The whole `insert_date` column is converted before the author
   * column is read, so a bad date is reported even when an author record is also incomplete.
   */
  function LegacyNormalized(df: RawFrame): (r: Result<PaperFrame, Error>)
    ensures r.Success? <==>
              (forall c :: c in KeepColumns ==> c in df.columns)
              && df.rows != []
              && (forall i :: 0 <= i < |df.rows| ==> CompactDateOf(df.rows[i]).Success?)
              && (forall i :: 0 <= i < |df.rows| ==> AuthorsOf(df.rows[i]).Success?)
    ensures r.Success? ==> r.value.columns == ColumnOrder && |r.value.rows| == |df.rows|
    ensures r.Success? ==> forall i :: 0 <= i < |df.rows| ==>
              r.value.rows[i] == LegacyShapeRow(df.rows[i], CompactDateOf(df.rows[i]).value, AuthorsOf(df.rows[i]).value)
    ensures (forall c :: c in KeepColumns ==> c in df.columns) && df.rows == [] ==> r == Failure(EmptyPromptError)
  {
    match Select(df.columns, KeepColumns)
    case Failure(missing) => Failure(KeyError(ColumnName(missing)))
    case Success(_) =>
      match MapAll(CompactDateOf, df.rows)
      case Failure(e) => Failure(e)
      case Success(dates) =>
        match MapAll(AuthorsOf, df.rows)
        case Failure(e) => Failure(e)
        case Success(authors) =>
          if df.rows == [] then Failure(EmptyPromptError)
          else Success(PaperFrame(ColumnOrder, seq(|df.rows|, i requires 0 <= i < |df.rows| =>
            LegacyShapeRow(df.rows[i], dates[i], authors[i]))))
  }

  /** The older `process_papers`, with the same column steps as the current one. */
  method LegacyProcessPapers(df: RawFrame) returns (r: Result<PaperFrame, Error>)
    ensures r == LegacyNormalized(df)
  {
    var shaped := ReshapeColumns(df.columns);
    if shaped.Failure? {
      return Failure(KeyError(ColumnName(shaped.error)));
    }
    var dates := MapAll(CompactDateOf, df.rows);
    if dates.Failure? {
      return Failure(dates.error);
    }
    var authors := MapAll(AuthorsOf, df.rows);
    if authors.Failure? {
      return Failure(authors.error);
    }
    if |df.rows| == 0 {
      return Failure(EmptyPromptError);
    }
    var rows := seq(|df.rows|, i requires 0 <= i < |df.rows| => LegacyShapeRow(df.rows[i], dates.value[i], authors.value[i]));
    r := Success(PaperFrame(shaped.value, rows));
  }

  /** With every column present, one bad date makes the older revision raise `ValueError`. */
  lemma BadDateRaises(df: RawFrame, i: nat)
    requires forall c :: c in KeepColumns ==> c in df.columns
    requires i < |df.rows| && ParseCompact(df.rows[i].insertDate).None?
    ensures LegacyNormalized(df).Failure? && LegacyNormalized(df).error.ValueError?
  {
    var dates := MapAll(CompactDateOf, df.rows);
    assert CompactDateOf(df.rows[i]).Failure?;
    assert dates.Failure?;
    var j :| 0 <= j < |df.rows| && CompactDateOf(df.rows[j]) == Failure(dates.error);
  }

  /** A row whose date the older revision accepts differs from the current row only in the date's form. */
  lemma RowsAgree(raw: RawRow, authors: seq<Author>)
    requires CompactDateOf(raw).Success?
    ensures LegacyShapeRow(raw, CompactDateOf(raw).value, authors) == ShapeRow(raw, authors).(insertDate := Some(raw.insertDate))
    ensures ShapeRow(raw, authors).insertDate.Some?
    ensures RemoveDashes(ShapeRow(raw, authors).insertDate.value) == raw.insertDate
  {
    CompactDateIsIdentity(raw.insertDate);
    IsoDateRoundTrip(raw.insertDate);
  }

  /**
   * The two revisions agree wherever the older one succeeds: the current one succeeds too, with the
   * same columns and rows except that its date is the ISO form of the older one's compact date.
   * Where every date is valid, the current revision's success implies the older one's.
   */
  lemma RevisionsAgree(df: RawFrame)
    ensures LegacyNormalized(df).Success? ==>
              && Normalized(df).Success?
              && LegacyNormalized(df).value.columns == Normalized(df).value.columns
              && |LegacyNormalized(df).value.rows| == |Normalized(df).value.rows|
              && forall i :: 0 <= i < |df.rows| ==>
                   && LegacyNormalized(df).value.rows[i] == Normalized(df).value.rows[i].(insertDate := Some(df.rows[i].insertDate))
                   && Normalized(df).value.rows[i].insertDate.Some?
                   && RemoveDashes(Normalized(df).value.rows[i].insertDate.value) == df.rows[i].insertDate
    ensures Normalized(df).Success? && (forall i :: 0 <= i < |df.rows| ==> ParseCompact(df.rows[i].insertDate).Some?)
            ==> LegacyNormalized(df).Success?
  {
    if LegacyNormalized(df).Success? {
      forall i | 0 <= i < |df.rows|
        ensures LegacyNormalized(df).value.rows[i] == Normalized(df).value.rows[i].(insertDate := Some(df.rows[i].insertDate))
        ensures Normalized(df).value.rows[i].insertDate.Some?
        ensures RemoveDashes(Normalized(df).value.rows[i].insertDate.value) == df.rows[i].insertDate
      {
        RowsAgree(df.rows[i], AuthorsOf(df.rows[i]).value);
      }
    }
  }
}
