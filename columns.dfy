/**
 * The column labels of a pandas `DataFrame` and the operations `process_papers` applies to them:
 * selection `df[cols]`, assignment `df[name] = ...`, `rename(columns=...)` and `drop(name, axis=1)`.
 * A failing operation reports the label pandas raises `KeyError` for.
 */
module Columns {
  import opened Wrappers

  /** The column labels the modelled scripts read or write; any other label of a frame is `Other`. */
  datatype Column =
    | IsNumber | InsertDate | PublicationYear | DownloadCount | CitingPatentCount | Title | Abstract
    | AuthorTermsRaw | IeeeTermsRaw | DynamicTermsRaw | AuthorsRaw
    | IndexTermsAuthor | IndexTermsIeee | IndexTermsDynamic | AuthorsColumn | PromptColumn
    | TextInputColumn | CategoryColumn | ConfidenceColumn
    | Other(name: string)

  /** The label pandas shows for a column. */
  function ColumnName(c: Column): string {
    match c
    case IsNumber => "is_number"
    case InsertDate => "insert_date"
    case PublicationYear => "publication_year"
    case DownloadCount => "download_count"
    case CitingPatentCount => "citing_patent_count"
    case Title => "title"
    case Abstract => "abstract"
    case AuthorTermsRaw => "index_terms.author_terms.terms"
    case IeeeTermsRaw => "index_terms.ieee_terms.terms"
    case DynamicTermsRaw => "index_terms.dynamic_index_terms.terms"
    case AuthorsRaw => "authors.authors"
    case IndexTermsAuthor => "index_terms_author"
    case IndexTermsIeee => "index_terms_ieee"
    case IndexTermsDynamic => "index_terms_dynamic"
    case AuthorsColumn => "authors"
    case PromptColumn => "prompt"
    case TextInputColumn => "text_input"
    case CategoryColumn => "category"
    case ConfidenceColumn => "confidence"
    case Other(name) => name
  }

  /** The first wanted label the frame lacks, if any. */
  function FirstMissing<L(==)>(cols: seq<L>, wanted: seq<L>): (r: Option<L>)
    ensures r.None? <==> forall w :: w in wanted ==> w in cols
    ensures r.Some? ==> r.value in wanted && r.value !in cols
    decreases |wanted|
  {
    if wanted == [] then None
    else if wanted[0] !in cols then Some(wanted[0])
    else FirstMissing(cols, wanted[1..])
  }

  /** `df[wanted]`: exactly the wanted columns in the wanted order, or the label that is missing. */
  function Select<L(==)>(cols: seq<L>, wanted: seq<L>): (r: Result<seq<L>, L>)
    ensures r.Success? <==> forall w :: w in wanted ==> w in cols
    ensures r.Success? ==> r.value == wanted
    ensures r.Failure? ==> r.error in wanted && r.error !in cols
  {
    match FirstMissing(cols, wanted)
    case Some(k) => Failure(k)
    case None => Success(wanted)
  }

  /** `df[name] = values`: an existing column is overwritten where it stands, a new one goes last. */
  function Assign<L(==)>(cols: seq<L>, name: L): (r: seq<L>)
    ensures name in r
    ensures forall c :: c in cols ==> c in r
    ensures forall c :: c in r ==> c in cols || c == name
    ensures name !in cols ==> r == cols + [name]
  {
    if name in cols then cols else cols + [name]
  }

  /** `df.rename(columns=m)`: each label that is a key of `m` takes its new name; other keys are ignored. */
  function Rename<L(==)>(cols: seq<L>, m: map<L, L>): (r: seq<L>)
    ensures |r| == |cols|
  {
    seq(|cols|, i requires 0 <= i < |cols| => if cols[i] in m then m[cols[i]] else cols[i])
  }

  /** Renaming works label by label, so it distributes over concatenation. */
  lemma RenameConcat<L>(a: seq<L>, b: seq<L>, m: map<L, L>)
    ensures Rename(a + b, m) == Rename(a, m) + Rename(b, m)
  {
  }

  /** The labels other than `name`, in their order. */
  function Without<L(==)>(cols: seq<L>, name: L): (r: seq<L>)
    ensures name !in r
    ensures forall c :: c in r ==> c in cols && c != name
    ensures forall c :: c in cols && c != name ==> c in r
    decreases |cols|
  {
    if cols == [] then []
    else (if cols[0] == name then [] else [cols[0]]) + Without(cols[1..], name)
  }

  /** `df.drop(name, axis=1)`: the frame without the column, or the label when it is absent. */
  function Drop<L(==)>(cols: seq<L>, name: L): (r: Result<seq<L>, L>)
    ensures r.Success? <==> name in cols
    ensures r.Success? ==> r.value == Without(cols, name)
    ensures r.Failure? ==> r.error == name
  {
    if name in cols then Success(Without(cols, name)) else Failure(name)
  }
}
