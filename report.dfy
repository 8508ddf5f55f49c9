/**
 * The FICOMP sheet, a selection of 22 named columns of the working table
 * (DIET_COMP.py:202-206), and the KEY sheet that lists FICOMP's columns
 * (DIET_COMP.py:225-228).
 */
module Report {
  import opened Wrappers
  import opened Seqs
  import opened Frame

  /** A column of the working table after the derived-field block and the fallback. */
  datatype Field =
    | Desc | FeedType | TrialId | FeedName | Lab | Typ | Method
    | Value(c: Column)
    | FlagFor(c: Column)

  /** Only the four backfillable columns have a `_Flag` companion. */
  predicate ValidField(f: Field)
  {
    f.FlagFor? ==> Backfillable(f.c)
  }

  /** The header under which `cvas_df` holds field `f`. */
  function FieldName(f: Field): string
  {
    match f
    case Desc => "desc_1"
    case FeedType => "feedtype"
    case TrialId => "Trial_ID"
    case FeedName => "FI"
    case Lab => "LAB"
    case Typ => "TYPE"
    case Method => "METHOD"
    case Value(c) => ColumnName(c)
    case FlagFor(c) => ColumnName(c) + "_Flag"
  }

  /** Every column of the working table once the report is generated. */
  const TableFields: seq<Field> := [
    Desc, FeedType, TrialId, FeedName, Lab, Typ, Method,
    Value(NDF), Value(aNDFom), Value(RDP), Value(CP), Value(TFA), Value(Ash), Value(ADF), Value(Lignin),
    Value(Starch), Value(NDFD48), Value(NDFD30), Value(aNDF), Value(FA), Value(RUP), Value(OM), Value(ForNDF),
    FlagFor(aNDF), FlagFor(NDFD48), FlagFor(RUP), FlagFor(FA)]

  /** The fields behind `ficomp_cols` (lines 202-205), in the order listed there. */
  const FicompFields: seq<Field> := [
    TrialId, FeedName, Lab, Typ, Method, Value(OM),
    Value(aNDF), FlagFor(aNDF), Value(aNDFom), Value(ForNDF), Value(NDFD30),
    Value(NDFD48), FlagFor(NDFD48), Value(ADF), Value(Lignin), Value(Starch),
    Value(CP), Value(RUP), FlagFor(RUP), Value(FA), FlagFor(FA), Value(Ash)]

  /** The headers of the fields `fs`, in order. */
  function Headers(fs: seq<Field>): (hs: seq<string>)
    ensures |hs| == |fs| && forall j :: 0 <= j < |fs| ==> hs[j] == FieldName(fs[j])
  {
    seq(|fs|, j requires 0 <= j < |fs| => FieldName(fs[j]))
  }

  /** `ficomp_cols`: the headers of those fields. */
  const FicompColumns: seq<string> := Headers(FicompFields)

  /** A cell of an exported sheet: text, or a number that may be empty. */
  datatype Cell = Text(s: string) | Number(v: Option<real>)

  /** The cell of field `f` in row `r`. */
  function CellOf(r: FeedRow, f: Field): Cell
    requires ValidField(f)
  {
    match f
    case Desc => Text(r.desc)
    case FeedType => Text(r.feedtype)
    case TrialId => Text(r.trialId)
    case FeedName => Text(r.fi)
    case Lab => Text(r.lab)
    case Typ => Text(r.typ)
    case Method => Text(r.analysis)
    case Value(c) => Number(Get(r, c))
    case FlagFor(c) => Text(FlagName(FlagOf(r, c)))
  }

  /** An exported sheet: its header row and its data rows. */
  datatype Sheet = Sheet(header: seq<string>, body: seq<seq<Cell>>)

  /** Every field FICOMP lists exists in the working table. */
  lemma FicompFieldsValid()
    ensures forall j :: 0 <= j < |FicompFields| ==> ValidField(FicompFields[j])
  {
  }

  /** `ficomp_df = cvas_df[ficomp_cols]` (line 206): the listed columns of every row, in header order. */
  function Ficomp(rows: seq<FeedRow>): (s: Sheet)
    ensures s.header == FicompColumns && |s.body| == |rows|
  {
    FicompFieldsValid();
    Sheet(FicompColumns, seq(|rows|, i requires 0 <= i < |rows| =>
      seq(|FicompFields|, j requires 0 <= j < |FicompFields| => CellOf(rows[i], FicompFields[j]))))
  }

  /** One row of the KEY sheet. */
  datatype KeyRow = KeyRow(variable: string, definition: string)

  /** Lines 225-228: one row per FICOMP column, each pointing to the documentation. */
  function Key(ficomp: Sheet): (k: seq<KeyRow>)
    ensures |k| == |ficomp.header|
  {
    seq(|ficomp.header|, i requires 0 <= i < |ficomp.header| => KeyRow(ficomp.header[i], "See documentation"))
  }

  // ----- properties -----

  /** The flag headers: the column's name followed by `_Flag` (line 191). */
  lemma FlagHeaders()
    ensures FieldName(FlagFor(aNDF)) == "aNDF_Flag" && FieldName(FlagFor(NDFD48)) == "NDFD48_Flag"
    ensures FieldName(FlagFor(RUP)) == "RUP_Flag" && FieldName(FlagFor(FA)) == "FA_Flag"
  {
    assert ColumnName(aNDF) + "_Flag" == "aNDF_Flag";
    assert ColumnName(NDFD48) + "_Flag" == "NDFD48_Flag";
    assert ColumnName(RUP) + "_Flag" == "RUP_Flag";
    assert ColumnName(FA) + "_Flag" == "FA_Flag";
  }

  lemma HeadersAppend(a: seq<Field>, b: seq<Field>)
    ensures Headers(a + b) == Headers(a) + Headers(b)
  {
  }

  /** FICOMP's header is exactly the 22 names of `ficomp_cols`, in the order listed there (one group per source line). */
  lemma FicompHeader()
    ensures FicompColumns ==
      ["Trial_ID", "FI", "LAB", "TYPE", "METHOD", "OM"]
      + ["aNDF", "aNDF_Flag", "aNDFom", "ForNDF", "NDFD30"]
      + ["NDFD48", "NDFD48_Flag", "ADF", "Lignin", "Starch", "CP", "RUP", "RUP_Flag", "FA", "FA_Flag", "Ash"]
    ensures |FicompColumns| == 22
  {
    var f1 := [TrialId, FeedName, Lab, Typ, Method, Value(OM)];
    var f2 := [Value(aNDF), FlagFor(aNDF), Value(aNDFom), Value(ForNDF), Value(NDFD30)];
    var f3 := [Value(NDFD48), FlagFor(NDFD48), Value(ADF), Value(Lignin), Value(Starch),
               Value(CP), Value(RUP), FlagFor(RUP), Value(FA), FlagFor(FA), Value(Ash)];
    assert FicompFields == f1 + f2 + f3;
    HeadersAppend(f1 + f2, f3);
    HeadersAppend(f1, f2);
    FlagHeaders();
    HeadersFirstLine();
    HeadersThirdLine();
    assert Headers(f2) == ["aNDF", "aNDF_Flag", "aNDFom", "ForNDF", "NDFD30"];
  }

  lemma HeadersFirstLine()
    ensures Headers([TrialId, FeedName, Lab, Typ, Method, Value(OM)]) == ["Trial_ID", "FI", "LAB", "TYPE", "METHOD", "OM"]
  {
  }

  lemma HeadersThirdLine()
    ensures Headers([Value(NDFD48), FlagFor(NDFD48), Value(ADF), Value(Lignin), Value(Starch),
                     Value(CP), Value(RUP), FlagFor(RUP), Value(FA), FlagFor(FA), Value(Ash)])
         == ["NDFD48", "NDFD48_Flag", "ADF", "Lignin", "Starch", "CP", "RUP", "RUP_Flag", "FA", "FA_Flag", "Ash"]
  {
    FlagHeaders();
  }

  /**
   * Under header `FicompColumns[j]` of row `i`, FICOMP shows the working
   * table's value: the cell of that numeric column, the ACTUAL/NASEM
   * companion of a `_Flag` header, the text of a descriptive header.
   */
  lemma FicompCellsMeaning(rows: seq<FeedRow>, i: nat, j: nat)
    requires i < |rows| && j < |FicompColumns|
    ensures |Ficomp(rows).body[i]| == |FicompColumns|
    ensures FicompFields[j].Value? ==>
      FicompColumns[j] == ColumnName(FicompFields[j].c)
      && Ficomp(rows).body[i][j] == Number(Get(rows[i], FicompFields[j].c))
    ensures FicompFields[j].FlagFor? ==>
      FicompColumns[j] == ColumnName(FicompFields[j].c) + "_Flag"
      && Ficomp(rows).body[i][j] == Text(FlagName(FlagOf(rows[i], FicompFields[j].c)))
      && (Ficomp(rows).body[i][j].s == "ACTUAL" || Ficomp(rows).body[i][j].s == "NASEM")
    ensures FicompFields[j] == TrialId ==> Ficomp(rows).body[i][j] == Text(rows[i].trialId)
    ensures FicompFields[j] == FeedName ==> Ficomp(rows).body[i][j] == Text(rows[i].fi)
    ensures FicompFields[j] == Lab ==> Ficomp(rows).body[i][j] == Text(rows[i].lab)
    ensures FicompFields[j] == Typ ==> Ficomp(rows).body[i][j] == Text(rows[i].typ)
    ensures FicompFields[j] == Method ==> Ficomp(rows).body[i][j] == Text(rows[i].analysis)
  {
    FicompFieldsValid();
  }

  /**
   * KEY lists FICOMP's columns: as many rows as FICOMP has columns, the
   * variable of row `i` the header of column `i`, every definition "See documentation".
   */
  lemma KeyListsFicomp(rows: seq<FeedRow>)
    ensures var k := Key(Ficomp(rows));
      |k| == |FicompColumns| == 22
      && (forall i :: 0 <= i < |k| ==> k[i].variable == FicompColumns[i] && k[i].definition == "See documentation")
  {
  }
}
