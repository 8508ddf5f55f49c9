/**
 * The NASEM fallback (DIET_COMP.py:189-199): for each of four columns, reset
 * its `_Flag` column to ACTUAL, then visit the `desc_1` of every row in order;
 * when the feed has a usable reference match, the reference table has the
 * column, every row of that feed is null in the column, and some reference row
 * carries the match as its original name, every row of the feed takes the
 * first such reference row's value and the flag NASEM.
 */
module Backfill {
  import opened Wrappers
  import opened Seqs
  import opened Frame

  /**
   * One row of the reference library: its original name, its "Feed Name (Clean)"
   * (computed at line 30 as `Text.NormText` of the original, and never read
   * afterwards, so nothing here constrains it), and its nutrient columns.
   */
  datatype RefRow = RefRow(original: string, clean: string, values: map<string, Option<real>>)

  /** The reference library: its column headers and its rows. */
  datatype RefTable = RefTable(columns: set<string>, rows: seq<RefRow>)

  function RefName(r: RefRow): string { r.original }

  /** The reference column that backs each backfillable column (`nasem_map`, line 189). */
  function NasemColumn(c: Column): string
    requires Backfillable(c)
  {
    match c
    case aNDF => "Feed NDF"
    case NDFD48 => "Feed DNDF48_NDF"
    case RUP => "Feed RUP_base"
    case FA => "Feed FA"
  }

  /** The columns of `nasem_map`, in its order. */
  const BackfillColumns: seq<Column> := [aNDF, NDFD48, RUP, FA]

  function RefValue(r: RefRow, col: string): Option<real>
  {
    if col in r.values then r.values[col] else None
  }

  /** A match other than the empty string and the sentinel "(None)" (line 194). */
  predicate UsableMatch(m: string)
  {
    m != "" && m != "(None)"
  }

  /** Every row of feed `f` is null in column `c` (line 195). */
  predicate AllNull(rows: seq<FeedRow>, f: string, c: Column)
  {
    forall i :: 0 <= i < |rows| && rows[i].desc == f ==> Get(rows[i], c).None?
  }

  /** The reference side of the guard (lines 194, 196-197): a usable match, the column, and a row with that exact original name. */
  predicate Resolvable(mapping: seq<FeedEntry>, ref: RefTable, f: string, c: Column)
    requires Configured(mapping, f) && Backfillable(c)
  {
    var m := ConfigOf(mapping, f).nasemMatch;
    UsableMatch(m) && NasemColumn(c) in ref.columns && FirstIndex(ref.rows, RefName, m).Some?
  }

  /** The value of the first reference row whose original name equals the match, exactly (line 198). */
  function Resolve(mapping: seq<FeedEntry>, ref: RefTable, f: string, c: Column): (v: Option<real>)
    requires Configured(mapping, f) && Backfillable(c) && Resolvable(mapping, ref, f, c)
    ensures var m := ConfigOf(mapping, f).nasemMatch;
      exists k :: 0 <= k < |ref.rows| && ref.rows[k].original == m && v == RefValue(ref.rows[k], NasemColumn(c))
        && forall q :: 0 <= q < k ==> ref.rows[q].original != m
  {
    var k := FirstIndex(ref.rows, RefName, ConfigOf(mapping, f).nasemMatch).value;
    RefValue(ref.rows[k], NasemColumn(c))
  }

  /** The whole guard of lines 194-197 on the current table. */
  predicate Eligible(rows: seq<FeedRow>, mapping: seq<FeedEntry>, ref: RefTable, f: string, c: Column)
    requires Configured(mapping, f) && Backfillable(c)
  {
    Resolvable(mapping, ref, f, c) && AllNull(rows, f, c)
  }

  /** Lines 198-199 on one row: the value `v` and the flag NASEM. */
  function Fill(r: FeedRow, c: Column, v: Option<real>): (r': FeedRow)
    requires Backfillable(c)
    ensures Get(r', c) == v && FlagOf(r', c) == NASEM && r'.desc == r.desc
    ensures forall d :: d != c ==> Get(r', d) == Get(r, d)
    ensures forall d :: Backfillable(d) && d != c ==> FlagOf(r', d) == FlagOf(r, d)
  {
    SetFlag(Set(r, c, v), c, NASEM)
  }

  /** One visit of the inner loop (lines 193-199) to feed `f`, as a function of the current table. */
  function Visit(rows: seq<FeedRow>, mapping: seq<FeedEntry>, ref: RefTable, f: string, c: Column): (r: seq<FeedRow>)
    requires Configured(mapping, f) && Backfillable(c)
    ensures |r| == |rows| && forall i :: 0 <= i < |rows| ==> r[i].desc == rows[i].desc
  {
    if Eligible(rows, mapping, ref, f, c) then FillFeed(rows, f, c, Resolve(mapping, ref, f, c))
    else rows
  }

  /** Every row of feed `f` filled with `v` (lines 198-199). */
  function FillFeed(rows: seq<FeedRow>, f: string, c: Column, v: Option<real>): (r: seq<FeedRow>)
    requires Backfillable(c)
    ensures |r| == |rows| && forall i :: 0 <= i < |rows| ==> r[i].desc == rows[i].desc
  {
    seq(|rows|, i requires 0 <= i < |rows| => if rows[i].desc == f then Fill(rows[i], c, v) else rows[i])
  }

  /** Line 191 for one column: every flag of the column set to ACTUAL. */
  function ResetFlags(rows: seq<FeedRow>, c: Column): (r: seq<FeedRow>)
    requires Backfillable(c)
    ensures |r| == |rows| && forall i :: 0 <= i < |rows| ==> r[i].desc == rows[i].desc
  {
    seq(|rows|, i requires 0 <= i < |rows| => SetFlag(rows[i], c, ACTUAL))
  }

  /** The effect of the whole inner loop for column `c`, stated on the table it started from. */
  function BackfillColumn(rows: seq<FeedRow>, mapping: seq<FeedEntry>, ref: RefTable, c: Column): (r: seq<FeedRow>)
    requires AllConfigured(mapping, rows) && Backfillable(c)
    ensures |r| == |rows| && forall i :: 0 <= i < |rows| ==> r[i].desc == rows[i].desc
  {
    seq(|rows|, i requires 0 <= i < |rows| =>
      if Eligible(rows, mapping, ref, rows[i].desc, c) then Fill(rows[i], c, Resolve(mapping, ref, rows[i].desc, c))
      else SetFlag(rows[i], c, ACTUAL))
  }

  ghost predicate AllBackfillable(cols: seq<Column>)
  {
    forall k :: 0 <= k < |cols| ==> Backfillable(cols[k])
  }

  /** The columns `cols` processed in order. */
  function BackfillAll(rows: seq<FeedRow>, mapping: seq<FeedEntry>, ref: RefTable, cols: seq<Column>): (r: seq<FeedRow>)
    requires AllConfigured(mapping, rows) && AllBackfillable(cols)
    ensures |r| == |rows| && forall i :: 0 <= i < |rows| ==> r[i].desc == rows[i].desc
  {
    if |cols| == 0 then rows
    else
      var before := BackfillAll(rows, mapping, ref, cols[..|cols| - 1]);
      BackfillColumn(before, mapping, ref, cols[|cols| - 1])
  }

  /** The working table after the NASEM fallback. */
  function Backfilled(rows: seq<FeedRow>, mapping: seq<FeedEntry>, ref: RefTable): (r: seq<FeedRow>)
    requires AllConfigured(mapping, rows)
    ensures |r| == |rows| && forall i :: 0 <= i < |rows| ==> r[i].desc == rows[i].desc
  {
    BackfillAll(rows, mapping, ref, BackfillColumns)
  }

  // ----- the loop's proof -----

  /** Feed `g` is the `desc_1` of one of the first `p` rows. */
  ghost predicate Seen(s0: seq<FeedRow>, p: int, g: string)
  {
    exists q :: 0 <= q < p && q < |s0| && s0[q].desc == g
  }

  /** The table after the inner loop has visited the first `p` rows of `s0` (the table as the loop found it). */
  ghost function Partial(s0: seq<FeedRow>, mapping: seq<FeedEntry>, ref: RefTable, c: Column, p: int): (r: seq<FeedRow>)
    requires AllConfigured(mapping, s0) && Backfillable(c)
    ensures |r| == |s0| && forall i :: 0 <= i < |s0| ==> r[i].desc == s0[i].desc
  {
    seq(|s0|, i requires 0 <= i < |s0| =>
      if Seen(s0, p, s0[i].desc) && Eligible(s0, mapping, ref, s0[i].desc, c)
      then Fill(s0[i], c, Resolve(mapping, ref, s0[i].desc, c))
      else s0[i])
  }

  /** Filling a row twice with the same value is filling it once. */
  lemma FillTwice(r: FeedRow, c: Column, v: Option<real>)
    requires Backfillable(c)
    ensures Fill(Fill(r, c, v), c, v) == Fill(r, c, v)
  {
  }

  /** A flag reset before a fill is overwritten by it. */
  lemma FillAfterReset(r: FeedRow, c: Column, v: Option<real>)
    requires Backfillable(c)
    ensures Fill(SetFlag(r, c, ACTUAL), c, v) == Fill(r, c, v)
  {
  }

  /** The guard for feed `f` depends on the table only through the `desc_1` cells and the `c` cells of the feed's rows. */
  lemma EligibleSameCells(s: seq<FeedRow>, t: seq<FeedRow>, mapping: seq<FeedEntry>, ref: RefTable, f: string, c: Column)
    requires Configured(mapping, f) && Backfillable(c)
    requires |s| == |t| && forall i :: 0 <= i < |s| ==> s[i].desc == t[i].desc
    requires forall i :: 0 <= i < |s| && s[i].desc == f ==> Get(s[i], c) == Get(t[i], c)
    ensures Eligible(s, mapping, ref, f, c) == Eligible(t, mapping, ref, f, c)
  {
    assert AllNull(s, f, c) == AllNull(t, f, c);
  }

  /** Visiting row `p` adds exactly its feed to the feeds seen so far. */
  lemma SeenShift(s0: seq<FeedRow>, p: nat)
    requires p < |s0|
    ensures Seen(s0, p + 1, s0[p].desc)
    ensures forall g :: g != s0[p].desc ==> Seen(s0, p + 1, g) == Seen(s0, p, g)
  {
    forall g | g != s0[p].desc ensures Seen(s0, p + 1, g) == Seen(s0, p, g) {
      if Seen(s0, p + 1, g) {
        var q :| 0 <= q < p + 1 && q < |s0| && s0[q].desc == g;
        assert q < p;
      }
    }
  }

  /** The closed form does not move when it already covers the visited feed, or when that feed is not eligible. */
  lemma PartialStill(s0: seq<FeedRow>, mapping: seq<FeedEntry>, ref: RefTable, c: Column, p: nat)
    requires AllConfigured(mapping, s0) && Backfillable(c) && p < |s0|
    requires Seen(s0, p, s0[p].desc) || !Eligible(s0, mapping, ref, s0[p].desc, c)
    ensures Partial(s0, mapping, ref, c, p) == Partial(s0, mapping, ref, c, p + 1)
  {
    SeenShift(s0, p);
    var S := Partial(s0, mapping, ref, c, p);
    var T := Partial(s0, mapping, ref, c, p + 1);
    forall i | 0 <= i < |s0| ensures S[i] == T[i] {
    }
  }

  /** Visiting a feed the closed form already covers changes nothing. */
  lemma VisitCovered(s0: seq<FeedRow>, mapping: seq<FeedEntry>, ref: RefTable, c: Column, p: nat)
    requires AllConfigured(mapping, s0) && Backfillable(c) && p < |s0|
    requires Seen(s0, p, s0[p].desc) && Eligible(s0, mapping, ref, s0[p].desc, c)
    ensures Visit(Partial(s0, mapping, ref, c, p), mapping, ref, s0[p].desc, c) == Partial(s0, mapping, ref, c, p)
  {
    var S := Partial(s0, mapping, ref, c, p);
    var f := s0[p].desc;
    var v := Resolve(mapping, ref, f, c);
    assert S[p] == Fill(s0[p], c, v);
    assert AllNull(S, f, c) == v.None?;
    if Eligible(S, mapping, ref, f, c) {
      var V := Visit(S, mapping, ref, f, c);
      forall i | 0 <= i < |s0| ensures V[i] == S[i] {
        if s0[i].desc == f { FillTwice(s0[i], c, v); }
      }
    }
  }

  /** The rows of a feed the closed form does not cover are still those of `s0`. */
  lemma PartialUncovered(s0: seq<FeedRow>, mapping: seq<FeedEntry>, ref: RefTable, c: Column, p: nat, f: string)
    requires AllConfigured(mapping, s0) && Backfillable(c) && Configured(mapping, f)
    requires !Seen(s0, p, f) || !Eligible(s0, mapping, ref, f, c)
    ensures forall i :: 0 <= i < |s0| && s0[i].desc == f ==> Partial(s0, mapping, ref, c, p)[i] == s0[i]
    ensures Eligible(Partial(s0, mapping, ref, c, p), mapping, ref, f, c) == Eligible(s0, mapping, ref, f, c)
  {
    var S := Partial(s0, mapping, ref, c, p);
    assert forall i :: 0 <= i < |s0| && s0[i].desc == f ==> S[i] == s0[i];
    EligibleSameCells(S, s0, mapping, ref, f, c);
  }

  /** Visiting an eligible feed for the first time fills exactly its rows. */
  lemma VisitFirst(s0: seq<FeedRow>, mapping: seq<FeedEntry>, ref: RefTable, c: Column, p: nat)
    requires AllConfigured(mapping, s0) && Backfillable(c) && p < |s0|
    requires !Seen(s0, p, s0[p].desc) && Eligible(s0, mapping, ref, s0[p].desc, c)
    ensures Visit(Partial(s0, mapping, ref, c, p), mapping, ref, s0[p].desc, c) == Partial(s0, mapping, ref, c, p + 1)
  {
    SeenShift(s0, p);
    var f := s0[p].desc;
    PartialUncovered(s0, mapping, ref, c, p, f);
    var S := Partial(s0, mapping, ref, c, p);
    var T := Partial(s0, mapping, ref, c, p + 1);
    var v := Resolve(mapping, ref, f, c);
    var V := Visit(S, mapping, ref, f, c);
    assert V == seq(|S|, i requires 0 <= i < |S| => if S[i].desc == f then Fill(S[i], c, v) else S[i]);
    forall i | 0 <= i < |s0| ensures V[i] == T[i] {
      if s0[i].desc == f {
        assert V[i] == Fill(s0[i], c, v);
      } else {
        assert V[i] == S[i];
      }
    }
  }

  /** Visiting a feed for the first time fills it exactly when it is eligible. */
  lemma VisitFresh(s0: seq<FeedRow>, mapping: seq<FeedEntry>, ref: RefTable, c: Column, p: nat)
    requires AllConfigured(mapping, s0) && Backfillable(c) && p < |s0|
    requires !Seen(s0, p, s0[p].desc) || !Eligible(s0, mapping, ref, s0[p].desc, c)
    ensures Visit(Partial(s0, mapping, ref, c, p), mapping, ref, s0[p].desc, c) == Partial(s0, mapping, ref, c, p + 1)
  {
    if Eligible(s0, mapping, ref, s0[p].desc, c) {
      VisitFirst(s0, mapping, ref, c, p);
    } else {
      PartialUncovered(s0, mapping, ref, c, p, s0[p].desc);
      PartialStill(s0, mapping, ref, c, p);
    }
  }

  /** Visiting the next row's feed extends the closed form by one row. */
  lemma VisitStep(s0: seq<FeedRow>, mapping: seq<FeedEntry>, ref: RefTable, c: Column, p: nat)
    requires AllConfigured(mapping, s0) && Backfillable(c)
    requires p < |s0|
    ensures Visit(Partial(s0, mapping, ref, c, p), mapping, ref, s0[p].desc, c) == Partial(s0, mapping, ref, c, p + 1)
  {
    if Seen(s0, p, s0[p].desc) && Eligible(s0, mapping, ref, s0[p].desc, c) {
      VisitCovered(s0, mapping, ref, c, p);
      PartialStill(s0, mapping, ref, c, p);
    } else {
      VisitFresh(s0, mapping, ref, c, p);
    }
  }

  /** Once every row has been visited, the closed form is `BackfillColumn` of the table before the flag reset. */
  lemma ColumnComplete(rows: seq<FeedRow>, mapping: seq<FeedEntry>, ref: RefTable, c: Column)
    requires AllConfigured(mapping, rows) && Backfillable(c)
    ensures AllConfigured(mapping, ResetFlags(rows, c))
    ensures Partial(ResetFlags(rows, c), mapping, ref, c, |rows|) == BackfillColumn(rows, mapping, ref, c)
  {
    var s0 := ResetFlags(rows, c);
    forall f | Configured(mapping, f) ensures Eligible(s0, mapping, ref, f, c) == Eligible(rows, mapping, ref, f, c) {
      EligibleSameCells(s0, rows, mapping, ref, f, c);
    }
    forall i | 0 <= i < |rows|
      ensures Partial(s0, mapping, ref, c, |rows|)[i] == BackfillColumn(rows, mapping, ref, c)[i]
    {
      assert Seen(s0, |rows|, s0[i].desc);
      if Eligible(rows, mapping, ref, rows[i].desc, c) {
        FillAfterReset(rows[i], c, Resolve(mapping, ref, rows[i].desc, c));
      }
    }
  }

  /** Every visit after the first one to the same feed is a no-op: the guard now fails, or refills the same value. */
  lemma VisitIdempotent(rows: seq<FeedRow>, mapping: seq<FeedEntry>, ref: RefTable, f: string, c: Column)
    requires Configured(mapping, f) && Backfillable(c)
    ensures var once := Visit(rows, mapping, ref, f, c);
      Visit(once, mapping, ref, f, c) == once
  {
    var once := Visit(rows, mapping, ref, f, c);
    if Eligible(rows, mapping, ref, f, c) {
      var v := Resolve(mapping, ref, f, c);
      if Eligible(once, mapping, ref, f, c) {
        forall i | 0 <= i < |rows| && rows[i].desc == f ensures Fill(once[i], c, v) == once[i] {
          FillTwice(rows[i], c, v);
        }
      }
    }
  }

  // ----- what the fallback does to the table -----

  /** `a` equals `b` except perhaps in the four backfillable columns and their flags. */
  ghost predicate OutsideSame(a: FeedRow, b: FeedRow)
  {
    a == b.(andf := a.andf, ndfd48 := a.ndfd48, rup := a.rup, fa := a.fa,
            andfFlag := a.andfFlag, ndfd48Flag := a.ndfd48Flag, rupFlag := a.rupFlag, faFlag := a.faFlag)
  }

  /** Column `c` of `out` is what the fallback makes of column `c` of `rows`. */
  ghost predicate ColumnDone(out: seq<FeedRow>, rows: seq<FeedRow>, mapping: seq<FeedEntry>, ref: RefTable, c: Column)
    requires AllConfigured(mapping, rows) && Backfillable(c) && |out| == |rows|
  {
    forall i :: 0 <= i < |rows| ==>
      if Eligible(rows, mapping, ref, rows[i].desc, c)
      then Get(out[i], c) == Resolve(mapping, ref, rows[i].desc, c) && FlagOf(out[i], c) == NASEM
      else Get(out[i], c) == Get(rows[i], c) && FlagOf(out[i], c) == ACTUAL
  }

  /** Column `c` and its flag are the same in `out` and `rows`. */
  ghost predicate ColumnKept(out: seq<FeedRow>, rows: seq<FeedRow>, c: Column)
    requires Backfillable(c) && |out| == |rows|
  {
    forall i :: 0 <= i < |rows| ==> Get(out[i], c) == Get(rows[i], c) && FlagOf(out[i], c) == FlagOf(rows[i], c)
  }

  ghost predicate Distinct(cols: seq<Column>)
  {
    forall a, b :: 0 <= a < b < |cols| ==> cols[a] != cols[b]
  }

  /** The inductive step of `BackfillAllSpec`: the columns done before, then column `c`. */
  lemma CombineColumns(out: seq<FeedRow>, before: seq<FeedRow>, rows: seq<FeedRow>, mapping: seq<FeedEntry>, ref: RefTable,
                       init: seq<Column>, c: Column)
    requires AllConfigured(mapping, rows) && AllBackfillable(init) && Backfillable(c) && c !in init
    requires |out| == |before| == |rows|
    requires forall k :: 0 <= k < |init| ==> ColumnDone(before, rows, mapping, ref, init[k])
    requires forall d :: Backfillable(d) && d !in init ==> ColumnKept(before, rows, d)
    requires forall i :: 0 <= i < |rows| ==> OutsideSame(before[i], rows[i])
    requires forall d :: Backfillable(d) && d != c ==> ColumnKept(out, before, d)
    requires forall i :: 0 <= i < |rows| ==> OutsideSame(out[i], before[i])
    requires ColumnDone(out, rows, mapping, ref, c)
    ensures forall k :: 0 <= k < |init + [c]| ==> ColumnDone(out, rows, mapping, ref, (init + [c])[k])
    ensures forall d :: Backfillable(d) && d !in init + [c] ==> ColumnKept(out, rows, d)
    ensures forall i :: 0 <= i < |rows| ==> OutsideSame(out[i], rows[i])
  {
    var cols := init + [c];
    forall d | Backfillable(d) && d !in cols ensures ColumnKept(out, rows, d) {
      assert d !in init && d != c;
      KeptThenKept(out, before, rows, d);
    }
    forall i | 0 <= i < |rows| ensures OutsideSame(out[i], rows[i]) {
      OutsideThenOutside(out[i], before[i], rows[i]);
    }
    forall k | 0 <= k < |cols| ensures ColumnDone(out, rows, mapping, ref, cols[k]) {
      if k < |init| {
        assert cols[k] == init[k] && cols[k] != c;
        DoneThenKept(out, before, rows, mapping, ref, cols[k]);
      }
    }
  }

  lemma KeptThenKept(out: seq<FeedRow>, before: seq<FeedRow>, rows: seq<FeedRow>, d: Column)
    requires Backfillable(d) && |out| == |before| == |rows|
    requires ColumnKept(out, before, d) && ColumnKept(before, rows, d)
    ensures ColumnKept(out, rows, d)
  {
  }

  lemma OutsideThenOutside(a: FeedRow, b: FeedRow, r: FeedRow)
    requires OutsideSame(a, b) && OutsideSame(b, r)
    ensures OutsideSame(a, r)
  {
  }

  /** A column done on `before` and kept from `before` to `out` is done on `out`. */
  lemma DoneThenKept(out: seq<FeedRow>, before: seq<FeedRow>, rows: seq<FeedRow>, mapping: seq<FeedEntry>, ref: RefTable, d: Column)
    requires AllConfigured(mapping, rows) && Backfillable(d) && |out| == |before| == |rows|
    requires ColumnDone(before, rows, mapping, ref, d) && ColumnKept(out, before, d)
    ensures ColumnDone(out, rows, mapping, ref, d)
  {
  }

  lemma SetFlagOutside(r: FeedRow, c: Column, f: Flag)
    requires Backfillable(c)
    ensures OutsideSame(SetFlag(r, c, f), r)
  {
  }

  lemma FillOutside(r: FeedRow, c: Column, v: Option<real>)
    requires Backfillable(c)
    ensures OutsideSame(Fill(r, c, v), r)
  {
  }

  /** Processing column `c` leaves every other column, every other flag and every other field as it was. */
  lemma ColumnLeavesOthers(rows: seq<FeedRow>, mapping: seq<FeedEntry>, ref: RefTable, c: Column)
    requires AllConfigured(mapping, rows) && Backfillable(c)
    ensures forall d :: Backfillable(d) && d != c ==> ColumnKept(BackfillColumn(rows, mapping, ref, c), rows, d)
    ensures forall i :: 0 <= i < |rows| ==> OutsideSame(BackfillColumn(rows, mapping, ref, c)[i], rows[i])
  {
    var out := BackfillColumn(rows, mapping, ref, c);
    forall i | 0 <= i < |rows|
      ensures OutsideSame(out[i], rows[i])
      ensures forall d :: Backfillable(d) && d != c ==> Get(out[i], d) == Get(rows[i], d) && FlagOf(out[i], d) == FlagOf(rows[i], d)
    {
      if Eligible(rows, mapping, ref, rows[i].desc, c) {
        FillOutside(rows[i], c, Resolve(mapping, ref, rows[i].desc, c));
      } else {
        SetFlagOutside(rows[i], c, ACTUAL);
      }
    }
  }

  /** Processing column `c` of a table whose `c` cells are those of `rows` does to them what the fallback does to `rows`. */
  lemma ColumnDoneOn(before: seq<FeedRow>, rows: seq<FeedRow>, mapping: seq<FeedEntry>, ref: RefTable, c: Column)
    requires AllConfigured(mapping, rows) && AllConfigured(mapping, before) && Backfillable(c)
    requires |before| == |rows| && forall i :: 0 <= i < |rows| ==> before[i].desc == rows[i].desc
    requires ColumnKept(before, rows, c)
    ensures ColumnDone(BackfillColumn(before, mapping, ref, c), rows, mapping, ref, c)
  {
    forall f | Configured(mapping, f) ensures Eligible(before, mapping, ref, f, c) == Eligible(rows, mapping, ref, f, c) {
      EligibleSameCells(before, rows, mapping, ref, f, c);
    }
  }

  /** Each column in `cols` is processed against the original table, the others are untouched. */
  lemma {:induction false} BackfillAllSpec(rows: seq<FeedRow>, mapping: seq<FeedEntry>, ref: RefTable, cols: seq<Column>)
    requires AllConfigured(mapping, rows) && AllBackfillable(cols) && Distinct(cols)
    ensures forall k :: 0 <= k < |cols| ==> ColumnDone(BackfillAll(rows, mapping, ref, cols), rows, mapping, ref, cols[k])
    ensures forall d :: Backfillable(d) && d !in cols ==> ColumnKept(BackfillAll(rows, mapping, ref, cols), rows, d)
    ensures forall i :: 0 <= i < |rows| ==> OutsideSame(BackfillAll(rows, mapping, ref, cols)[i], rows[i])
  {
    if |cols| > 0 {
      var init := cols[..|cols| - 1];
      var c := cols[|cols| - 1];
      assert AllBackfillable(init) && Distinct(init);
      BackfillAllSpec(rows, mapping, ref, init);
      var before := BackfillAll(rows, mapping, ref, init);
      var out := BackfillColumn(before, mapping, ref, c);
      assert out == BackfillAll(rows, mapping, ref, cols);
      assert c !in init;
      ColumnLeavesOthers(before, mapping, ref, c);
      ColumnDoneOn(before, rows, mapping, ref, c);
      assert cols == init + [c];
      CombineColumns(out, before, rows, mapping, ref, init, c);
    }
  }

  /**
   * The fallback's effect on row `i` and backfillable column `c`: when the
   * guard holds on the table as it came in, the cell takes the reference value
   * and the flag NASEM; otherwise the cell keeps its value and the flag is
   * ACTUAL.  No other cell of the row changes.
   */
  lemma BackfillEffect(rows: seq<FeedRow>, mapping: seq<FeedEntry>, ref: RefTable, i: nat, c: Column)
    requires AllConfigured(mapping, rows) && i < |rows| && Backfillable(c)
    ensures OutsideSame(Backfilled(rows, mapping, ref)[i], rows[i])
    ensures Eligible(rows, mapping, ref, rows[i].desc, c) ==>
      Get(Backfilled(rows, mapping, ref)[i], c) == Resolve(mapping, ref, rows[i].desc, c)
      && FlagOf(Backfilled(rows, mapping, ref)[i], c) == NASEM
    ensures !Eligible(rows, mapping, ref, rows[i].desc, c) ==>
      Get(Backfilled(rows, mapping, ref)[i], c) == Get(rows[i], c)
      && FlagOf(Backfilled(rows, mapping, ref)[i], c) == ACTUAL
  {
    assert AllBackfillable(BackfillColumns) && Distinct(BackfillColumns);
    BackfillAllSpec(rows, mapping, ref, BackfillColumns);
    assert c == BackfillColumns[0] || c == BackfillColumns[1] || c == BackfillColumns[2] || c == BackfillColumns[3];
  }

  /** All-or-nothing per feed: when any row of a feed has a lab value, none of the feed's rows is overwritten or flagged. */
  lemma MeasuredFeedKept(rows: seq<FeedRow>, mapping: seq<FeedEntry>, ref: RefTable, i: nat, j: nat, c: Column)
    requires AllConfigured(mapping, rows) && i < |rows| && j < |rows| && Backfillable(c)
    requires rows[j].desc == rows[i].desc && Get(rows[j], c).Some?
    ensures Get(Backfilled(rows, mapping, ref)[i], c) == Get(rows[i], c)
    ensures FlagOf(Backfilled(rows, mapping, ref)[i], c) == ACTUAL
  {
    BackfillEffect(rows, mapping, ref, i, c);
  }

  /** A feed without a usable match is never backfilled: every one of its cells stays and every flag is ACTUAL. */
  lemma UnmatchedFeedKept(rows: seq<FeedRow>, mapping: seq<FeedEntry>, ref: RefTable, i: nat, c: Column)
    requires AllConfigured(mapping, rows) && i < |rows| && Backfillable(c)
    requires !UsableMatch(ConfigOf(mapping, rows[i].desc).nasemMatch)
    ensures Get(Backfilled(rows, mapping, ref)[i], c) == Get(rows[i], c)
    ensures FlagOf(Backfilled(rows, mapping, ref)[i], c) == ACTUAL
  {
    BackfillEffect(rows, mapping, ref, i, c);
  }

  /** A null reference value still marks the cell NASEM, and the cell stays null. */
  lemma NullReferenceFlagged(rows: seq<FeedRow>, mapping: seq<FeedEntry>, ref: RefTable, i: nat, c: Column)
    requires AllConfigured(mapping, rows) && i < |rows| && Backfillable(c)
    requires Eligible(rows, mapping, ref, rows[i].desc, c) && Resolve(mapping, ref, rows[i].desc, c).None?
    ensures Get(Backfilled(rows, mapping, ref)[i], c).None?
    ensures FlagOf(Backfilled(rows, mapping, ref)[i], c) == NASEM
  {
    BackfillEffect(rows, mapping, ref, i, c);
  }

  /** A feed with no NDF whose match supplies "Feed NDF" = 40.0 ends with aNDF 40.0, flagged NASEM. */
  lemma ReferenceNdfScenario(r: FeedRow)
    requires r.desc == "CORN GRAIN" && r.andf == None
    ensures var cfg := FeedConfig("Cumberland Valley Analytical Services", "GRAIN", "NIR, starch", map[], "Corn grain, dry");
      var ref := RefTable({"Feed Name", "Feed NDF"}, [RefRow("Corn grain, dry", "corn grain, dry", map["Feed NDF" := Some(40.0)])]);
      var out := Backfilled([r], [FeedEntry("CORN GRAIN", cfg)], ref);
      out[0].andf == Some(40.0) && out[0].andfFlag == NASEM
  {
    var cfg := FeedConfig("Cumberland Valley Analytical Services", "GRAIN", "NIR, starch", map[], "Corn grain, dry");
    var ref := RefTable({"Feed Name", "Feed NDF"}, [RefRow("Corn grain, dry", "corn grain, dry", map["Feed NDF" := Some(40.0)])]);
    var mapping := [FeedEntry("CORN GRAIN", cfg)];
    assert FirstIndex(mapping, EntryFeed, "CORN GRAIN") == Some(0);
    assert ConfigOf(mapping, "CORN GRAIN") == cfg;
    assert FirstIndex(ref.rows, RefName, "Corn grain, dry") == Some(0);
    assert Eligible([r], mapping, ref, r.desc, aNDF);
    BackfillEffect([r], mapping, ref, 0, aNDF);
  }

  // ----- the imperative loops -----

  /** Line 191: the column's `_Flag` set to ACTUAL in every row. */
  method ResetFlagColumn(frame: array<FeedRow>, c: Column)
    requires Backfillable(c)
    modifies frame
    ensures frame[..] == ResetFlags(old(frame[..]), c)
  {
    var i := 0;
    while i < frame.Length
      invariant 0 <= i <= frame.Length
      invariant forall k :: 0 <= k < i ==> frame[k] == SetFlag(old(frame[k]), c, ACTUAL)
      invariant forall k :: i <= k < frame.Length ==> frame[k] == old(frame[k])
    {
      frame[i] := SetFlag(frame[i], c, ACTUAL);
      i := i + 1;
    }
  }

  /** Lines 198-199: the `.loc` assignments to the rows of feed `f`. */
  method FillFeedRows(frame: array<FeedRow>, f: string, c: Column, v: Option<real>)
    requires Backfillable(c)
    modifies frame
    ensures frame[..] == FillFeed(old(frame[..]), f, c, v)
  {
    var i := 0;
    while i < frame.Length
      invariant 0 <= i <= frame.Length
      invariant forall q :: 0 <= q < i ==> frame[q] == if old(frame[q]).desc == f then Fill(old(frame[q]), c, v) else old(frame[q])
      invariant forall q :: i <= q < frame.Length ==> frame[q] == old(frame[q])
    {
      if frame[i].desc == f {
        frame[i] := Fill(frame[i], c, v);
      }
      i := i + 1;
    }
  }

  /** Lines 193-199 for one `desc_1`: the guarded `.loc` assignments to every row of the feed. */
  method VisitFeed(frame: array<FeedRow>, mapping: seq<FeedEntry>, ref: RefTable, f: string, c: Column)
    requires Configured(mapping, f) && Backfillable(c)
    modifies frame
    ensures frame[..] == Visit(old(frame[..]), mapping, ref, f, c)
  {
    var m := ConfigOf(mapping, f).nasemMatch;
    if UsableMatch(m) && NasemColumn(c) in ref.columns {
      if AllNull(frame[..], f, c) {
        var k := FirstIndex(ref.rows, RefName, m);
        if k.Some? {
          FillFeedRows(frame, f, c, RefValue(ref.rows[k.value], NasemColumn(c)));
        }
      }
    }
  }

  /** Lines 193-199: the rows' feeds visited in order, each one against the table as it now stands. */
  method VisitRows(frame: array<FeedRow>, mapping: seq<FeedEntry>, ref: RefTable, c: Column)
    requires AllConfigured(mapping, frame[..]) && Backfillable(c)
    modifies frame
    ensures frame[..] == Partial(old(frame[..]), mapping, ref, c, frame.Length)
  {
    ghost var s0 := frame[..];
    var p := 0;
    while p < frame.Length
      invariant 0 <= p <= frame.Length == |s0|
      invariant frame[..] == Partial(s0, mapping, ref, c, p)
    {
      VisitStep(s0, mapping, ref, c, p);
      var f := frame[p].desc;
      assert f == s0[p].desc;
      VisitFeed(frame, mapping, ref, f, c);
      p := p + 1;
    }
  }

  /** Lines 191-199 for one column: its flags reset, then every row's feed visited in turn. */
  method FillColumn(frame: array<FeedRow>, mapping: seq<FeedEntry>, ref: RefTable, c: Column)
    requires AllConfigured(mapping, frame[..]) && Backfillable(c)
    modifies frame
    ensures frame[..] == BackfillColumn(old(frame[..]), mapping, ref, c)
  {
    ColumnComplete(frame[..], mapping, ref, c);
    ResetFlagColumn(frame, c);
    VisitRows(frame, mapping, ref, c);
  }

  /** The nested loops of DIET_COMP.py:190-199, updating the table in place. */
  method BackfillFrame(frame: array<FeedRow>, mapping: seq<FeedEntry>, ref: RefTable)
    requires AllConfigured(mapping, frame[..])
    modifies frame
    ensures frame[..] == Backfilled(old(frame[..]), mapping, ref)
  {
    ghost var rows := frame[..];
    var n := 0;
    while n < |BackfillColumns|
      invariant 0 <= n <= |BackfillColumns|
      invariant frame[..] == BackfillAll(rows, mapping, ref, BackfillColumns[..n])
      invariant AllConfigured(mapping, frame[..])
    {
      FillColumn(frame, mapping, ref, BackfillColumns[n]);
      assert BackfillColumns[..n + 1][..n] == BackfillColumns[..n];
      n := n + 1;
    }
    assert BackfillColumns[..4] == BackfillColumns;
  }
}
