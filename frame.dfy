/**
 * The working table `cvas_df`: one row per row of the uploaded lab file, the
 * optional-column null-fill, and the derived-field block (DIET_COMP.py:175-186).
 */
module Frame {
  import opened Wrappers
  import opened Seqs
  import opened Text

  /** The numeric columns of the working table: the lab's raw columns, then the derived ones. */
  datatype Column =
    | NDF | aNDFom | RDP | CP | TFA | Ash | ADF | Lignin | Starch | NDFD48 | NDFD30
    | aNDF | FA | RUP | OM | ForNDF

  function ColumnName(c: Column): string
  {
    match c
    case NDF => "NDF"
    case aNDFom => "aNDFom"
    case RDP => "RDP"
    case CP => "CP"
    case TFA => "TFA"
    case Ash => "Ash"
    case ADF => "ADF"
    case Lignin => "Lignin"
    case Starch => "Starch"
    case NDFD48 => "NDFD48"
    case NDFD30 => "NDFD30"
    case aNDF => "aNDF"
    case FA => "FA"
    case RUP => "RUP"
    case OM => "OM"
    case ForNDF => "ForNDF"
  }

  /** A column read from the lab file rather than computed by the script. */
  predicate IsRaw(c: Column)
  {
    !(c == aNDF || c == FA || c == RUP || c == OM || c == ForNDF)
  }

  /** The four columns with a reference-library fallback and a `_Flag` companion (DIET_COMP.py:189). */
  predicate Backfillable(c: Column)
  {
    c == aNDF || c == NDFD48 || c == RUP || c == FA
  }

  /** Provenance of a backfillable value: measured by the lab, or taken from the NASEM library. */
  datatype Flag = ACTUAL | NASEM

  function FlagName(f: Flag): string
  {
    match f
    case ACTUAL => "ACTUAL"
    case NASEM => "NASEM"
  }

  /** One row of the uploaded lab file; a field is meaningful only when the file has that column. */
  datatype LabRow = LabRow(
    desc: string, feedtype: string,
    ndf: Option<real>, andfom: Option<real>, rdp: Option<real>, cp: Option<real>, tfa: Option<real>,
    ash: Option<real>, adf: Option<real>, lignin: Option<real>, starch: Option<real>,
    ndfd48: Option<real>, ndfd30: Option<real>)

  /** The uploaded lab file: the set of its column headers and its rows. */
  datatype LabTable = LabTable(columns: set<string>, rows: seq<LabRow>)

  /** What the form collected for one feed (DIET_COMP.py:143-144). */
  datatype FeedConfig = FeedConfig(
    lab: string, typ: string, analysis: string, inclusions: map<string, real>, nasemMatch: string)

  /** One entry of `feed_mapping`, in the dictionary's insertion order. */
  datatype FeedEntry = FeedEntry(feed: string, cfg: FeedConfig)

  function EntryFeed(e: FeedEntry): string { e.feed }

  /** `feed` is a key of `feed_mapping`. */
  predicate Configured(mapping: seq<FeedEntry>, feed: string)
  {
    FirstIndex(mapping, EntryFeed, feed).Some?
  }

  /**
   * `feed_mapping[feed]`: the configuration of the first entry for `feed`.
   * The dictionary holds one entry per key; in a sequence without repeated
   * feeds the first entry is the only one.
   */
  function ConfigOf(mapping: seq<FeedEntry>, feed: string): (cfg: FeedConfig)
    requires Configured(mapping, feed)
    ensures exists k :: 0 <= k < |mapping| && mapping[k] == FeedEntry(feed, cfg)
  {
    var k := FirstIndex(mapping, EntryFeed, feed).value;
    assert mapping[k] == FeedEntry(feed, mapping[k].cfg);
    mapping[k].cfg
  }

  /** The entry `ConfigOf` reads is the first one stored under `feed`. */
  lemma ConfigOfFirstEntry(mapping: seq<FeedEntry>, feed: string, k: nat)
    requires k < |mapping| && mapping[k].feed == feed
    requires forall q :: 0 <= q < k ==> mapping[q].feed != feed
    ensures Configured(mapping, feed) && ConfigOf(mapping, feed) == mapping[k].cfg
  {
    assert EntryFeed(mapping[k]) == feed;
  }

  /** One row of the working table, holding every column the script reads or writes. */
  datatype FeedRow = FeedRow(
    desc: string, feedtype: string,
    trialId: string, fi: string, lab: string, typ: string, analysis: string,
    ndf: Option<real>, andfom: Option<real>, rdp: Option<real>, cp: Option<real>, tfa: Option<real>,
    ash: Option<real>, adf: Option<real>, lignin: Option<real>, starch: Option<real>,
    ndfd48: Option<real>, ndfd30: Option<real>,
    andf: Option<real>, fa: Option<real>, rup: Option<real>, om: Option<real>, forNdf: Option<real>,
    andfFlag: Flag, ndfd48Flag: Flag, rupFlag: Flag, faFlag: Flag)

  function RowDesc(r: FeedRow): string { r.desc }

  /** Every row's `desc_1` is a key of `feed_mapping`, as the form guarantees (DIET_COMP.py:120, 143). */
  ghost predicate AllConfigured(mapping: seq<FeedEntry>, rows: seq<FeedRow>)
  {
    forall i :: 0 <= i < |rows| ==> Configured(mapping, rows[i].desc)
  }

  /** The cell of column `c`. */
  function Get(r: FeedRow, c: Column): Option<real>
  {
    match c
    case NDF => r.ndf
    case aNDFom => r.andfom
    case RDP => r.rdp
    case CP => r.cp
    case TFA => r.tfa
    case Ash => r.ash
    case ADF => r.adf
    case Lignin => r.lignin
    case Starch => r.starch
    case NDFD48 => r.ndfd48
    case NDFD30 => r.ndfd30
    case aNDF => r.andf
    case FA => r.fa
    case RUP => r.rup
    case OM => r.om
    case ForNDF => r.forNdf
  }

  /** The row with the cell of column `c` replaced by `v`. */
  function Set(r: FeedRow, c: Column, v: Option<real>): (r': FeedRow)
    ensures Get(r', c) == v
    ensures forall d :: d != c ==> Get(r', d) == Get(r, d)
    ensures r'.desc == r.desc && r'.andfFlag == r.andfFlag && r'.ndfd48Flag == r.ndfd48Flag
    ensures r'.rupFlag == r.rupFlag && r'.faFlag == r.faFlag
  {
    match c
    case NDF => r.(ndf := v)
    case aNDFom => r.(andfom := v)
    case RDP => r.(rdp := v)
    case CP => r.(cp := v)
    case TFA => r.(tfa := v)
    case Ash => r.(ash := v)
    case ADF => r.(adf := v)
    case Lignin => r.(lignin := v)
    case Starch => r.(starch := v)
    case NDFD48 => r.(ndfd48 := v)
    case NDFD30 => r.(ndfd30 := v)
    case aNDF => r.(andf := v)
    case FA => r.(fa := v)
    case RUP => r.(rup := v)
    case OM => r.(om := v)
    case ForNDF => r.(forNdf := v)
  }

  /** The `_Flag` companion of a backfillable column. */
  function FlagOf(r: FeedRow, c: Column): Flag
    requires Backfillable(c)
  {
    match c
    case aNDF => r.andfFlag
    case NDFD48 => r.ndfd48Flag
    case RUP => r.rupFlag
    case FA => r.faFlag
  }

  /** The row with the `_Flag` companion of `c` set to `f`. */
  function SetFlag(r: FeedRow, c: Column, f: Flag): (r': FeedRow)
    requires Backfillable(c)
    ensures FlagOf(r', c) == f
    ensures forall d :: Backfillable(d) && d != c ==> FlagOf(r', d) == FlagOf(r, d)
    ensures forall d :: Get(r', d) == Get(r, d)
    ensures r'.desc == r.desc
  {
    match c
    case aNDF => r.(andfFlag := f)
    case NDFD48 => r.(ndfd48Flag := f)
    case RUP => r.(rupFlag := f)
    case FA => r.(faFlag := f)
  }

  /** Why no report can be built from a lab file. */
  datatype FrameError = MissingColumn(name: string)

  /** The columns the script reads unconditionally, in the order it first reads them (lines 120, 180-184, 206). */
  const RequiredColumns: seq<string> := ["desc_1", "feedtype", "NDF", "TFA", "CP", "RDP", "Ash", "aNDFom"]

  /** The position of the first name that is not a column of the file. */
  function FirstMissing(names: seq<string>, present: set<string>): (r: Option<nat>)
    ensures r.Some? ==> r.value < |names| && names[r.value] !in present
    ensures r.Some? ==> forall q :: 0 <= q < r.value ==> names[q] in present
    ensures r.None? <==> forall q :: 0 <= q < |names| ==> names[q] in present
  {
    if |names| == 0 then None
    else if names[0] !in present then Some(0)
    else
      match FirstMissing(names[1..], present)
      case None => None
      case Some(j) => Some(j + 1)
  }

  /** The raw cell of column `c` of a lab row. */
  function LabValue(r: LabRow, c: Column): Option<real>
    requires IsRaw(c)
  {
    match c
    case NDF => r.ndf
    case aNDFom => r.andfom
    case RDP => r.rdp
    case CP => r.cp
    case TFA => r.tfa
    case Ash => r.ash
    case ADF => r.adf
    case Lignin => r.lignin
    case Starch => r.starch
    case NDFD48 => r.ndfd48
    case NDFD30 => r.ndfd30
  }

  /** A cell of an optional column: null when the file lacks the column (DIET_COMP.py:185-186). */
  function Optional(columns: set<string>, c: Column, v: Option<real>): Option<real>
  {
    if ColumnName(c) in columns then v else None
  }

  /** A working-table row before the script adds its columns: text columns empty, numeric ones null, flags ACTUAL. */
  function FromLab(r: LabRow, columns: set<string>): FeedRow
  {
    FeedRow(r.desc, r.feedtype, "", "", "", "", "",
      r.ndf, r.andfom, r.rdp, r.cp, r.tfa, r.ash,
      Optional(columns, ADF, r.adf), Optional(columns, Lignin, r.lignin), Optional(columns, Starch, r.starch),
      Optional(columns, NDFD48, r.ndfd48), Optional(columns, NDFD30, r.ndfd30),
      None, None, None, None, None,
      ACTUAL, ACTUAL, ACTUAL, ACTUAL)
  }

  /**
   * The working table built from the lab file: fails on the first required
   * column the file lacks, and null-fills the optional ones.
   */
  function LoadFrame(t: LabTable): (res: Result<seq<FeedRow>, FrameError>)
    ensures res.Failure? ==> res.error.name in RequiredColumns && res.error.name !in t.columns
    ensures res.Success? <==> forall q :: 0 <= q < |RequiredColumns| ==> RequiredColumns[q] in t.columns
    ensures res.Success? ==> |res.value| == |t.rows|
    ensures res.Success? ==> forall i :: 0 <= i < |t.rows| ==>
      res.value[i].desc == t.rows[i].desc && res.value[i].feedtype == t.rows[i].feedtype
    ensures res.Success? ==> forall i, c :: 0 <= i < |t.rows| && IsRaw(c) ==>
      Get(res.value[i], c) == (if ColumnName(c) in t.columns then LabValue(t.rows[i], c) else None)
  {
    match FirstMissing(RequiredColumns, t.columns)
    case Some(k) => Failure(MissingColumn(RequiredColumns[k]))
    case None =>
      assert RequiredColumns[2] in t.columns && RequiredColumns[3] in t.columns && RequiredColumns[4] in t.columns;
      assert RequiredColumns[5] in t.columns && RequiredColumns[6] in t.columns && RequiredColumns[7] in t.columns;
      Success(seq(|t.rows|, i requires 0 <= i < |t.rows| => FromLab(t.rows[i], t.columns)))
  }

  /** `r.ForNDF`'s test on line 184: the TYPE, upper-cased, is exactly "FORAGE". */
  predicate IsForageType(typ: string)
  {
    Upper(typ) == "FORAGE"
  }

  /** Pandas subtraction: null when either operand is null. */
  function Minus(a: Option<real>, b: Option<real>): Option<real>
  {
    if a.Some? && b.Some? then Some(a.value - b.value) else None
  }

  /** One row after the derived-field block (DIET_COMP.py:175-184). */
  function WithDerived(r: FeedRow, trialId: string, cfg: FeedConfig): (d: FeedRow)
    ensures d.desc == r.desc && d.feedtype == r.feedtype
    ensures d.trialId == trialId && d.fi == r.desc && d.lab == cfg.lab && d.typ == cfg.typ && d.analysis == cfg.analysis
    ensures forall c :: IsRaw(c) ==> Get(d, c) == Get(r, c)
    ensures d.andf == r.ndf && d.fa == r.tfa
    ensures d.rup.Some? <==> r.cp.Some? && r.rdp.Some?
    ensures d.rup.Some? ==> d.rup.value + r.rdp.value == r.cp.value
    ensures d.om.Some? <==> r.ash.Some?
    ensures d.om.Some? ==> d.om.value + r.ash.value == 100.0
    ensures IsForageType(cfg.typ) ==> d.forNdf == r.andfom
    ensures !IsForageType(cfg.typ) ==> d.forNdf == Some(0.0)
    ensures d.andfFlag == r.andfFlag && d.ndfd48Flag == r.ndfd48Flag && d.rupFlag == r.rupFlag && d.faFlag == r.faFlag
  {
    r.(trialId := trialId, fi := r.desc, lab := cfg.lab, typ := cfg.typ, analysis := cfg.analysis,
       andf := r.ndf, fa := r.tfa, rup := Minus(r.cp, r.rdp), om := Minus(Some(100.0), r.ash),
       forNdf := if IsForageType(cfg.typ) then r.andfom else Some(0.0))
  }

  /** The derived columns overwrite whatever the row already held under those names (a lab file may carry its own "RUP" or "OM"). */
  lemma DerivedOverwritesStale(r: FeedRow, trialId: string, cfg: FeedConfig,
                               stale: Option<real>, text: string)
    ensures WithDerived(r.(andf := stale, fa := stale, rup := stale, om := stale, forNdf := stale,
                           trialId := text, fi := text, lab := text, typ := text, analysis := text), trialId, cfg)
         == WithDerived(r, trialId, cfg)
  {
  }

  /** The whole working table after the derived-field block. */
  function DeriveAll(rows: seq<FeedRow>, trialId: string, mapping: seq<FeedEntry>): (r: seq<FeedRow>)
    requires AllConfigured(mapping, rows)
    ensures |r| == |rows|
    ensures forall i :: 0 <= i < |rows| ==> r[i].desc == rows[i].desc
    ensures forall i :: 0 <= i < |rows| ==> r[i].trialId == trialId && r[i].fi == rows[i].desc
    ensures forall i, c :: 0 <= i < |rows| && IsRaw(c) ==> Get(r[i], c) == Get(rows[i], c)
  {
    seq(|rows|, i requires 0 <= i < |rows| => WithDerived(rows[i], trialId, ConfigOf(mapping, rows[i].desc)))
  }

  /** The column assignments of DIET_COMP.py:175-184, applied to every row of the table in place. */
  method AddDerivedColumns(frame: array<FeedRow>, trialId: string, mapping: seq<FeedEntry>)
    requires AllConfigured(mapping, frame[..])
    modifies frame
    ensures frame[..] == DeriveAll(old(frame[..]), trialId, mapping)
  {
    var i := 0;
    while i < frame.Length
      invariant 0 <= i <= frame.Length
      invariant forall k :: 0 <= k < i ==> frame[k] == WithDerived(old(frame[k]), trialId, ConfigOf(mapping, old(frame[k]).desc))
      invariant forall k :: i <= k < frame.Length ==> frame[k] == old(frame[k])
    {
      assert Configured(mapping, old(frame[..])[i].desc);
      frame[i] := WithDerived(frame[i], trialId, ConfigOf(mapping, frame[i].desc));
      i := i + 1;
    }
  }

  /** The first feed of the lab template: CORN SILAGE SHORT, NDF 37.2, typed FORAGE. */
  lemma CornSilageDerived()
    ensures var row := FromLab(LabRow("CORN SILAGE SHORT", "FORAGE", Some(37.2), Some(35.3), Some(16.5), Some(24.4),
                                      Some(2.61), Some(3.66), Some(22.0), Some(2.72), Some(35.5), Some(62.8), None),
                               {"desc_1", "feedtype", "NDF", "aNDFom", "RDP", "CP", "TFA", "Ash", "ADF", "Lignin", "Starch", "NDFD48"});
      var d := WithDerived(row, "MSU41_24ES3", FeedConfig("Cumberland Valley Analytical Services", "FORAGE", "NIR, starch, NDFD48", map[], "(None)"));
      d.andf == Some(37.2) && d.fa == Some(2.61) && d.rup == Some(7.9) && d.om == Some(96.34)
      && d.forNdf == Some(35.3) && d.ndfd30 == None && d.andfFlag == ACTUAL
  {
    assert Upper("FORAGE") == "FORAGE";
  }
}
