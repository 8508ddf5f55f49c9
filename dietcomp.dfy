/**
 * The DIETCOMP builder (DIET_COMP.py:209-222): one row per treatment and day
 * of each of its date ranges, holding, for thirteen nutrient columns, the sum
 * over the configured feeds of inclusion/100 times the feed's value.
 */
module DietComp {
  import opened Wrappers
  import opened Seqs
  import opened Frame
  import opened DateRanges

  /** A treatment: its key in `treatment_names`, its display name, and its date ranges. */
  datatype Treatment = Treatment(id: string, name: string, ranges: seq<DateRange>)

  /** One DIETCOMP row; `values[k]` is the column `DietNutrients[k]`. */
  datatype DietRow = DietRow(trialId: string, diet: string, date: int, tmrDm: real, values: seq<real>)

  /** The nutrient columns of a DIETCOMP row, in order (line 214). */
  const DietNutrients: seq<Column> := [OM, aNDF, aNDFom, ForNDF, NDFD30, NDFD48, ADF, Lignin, Starch, CP, RUP, FA, Ash]

  /** `Inclusions.get(t, 0)`. */
  function Inclusion(cfg: FeedConfig, t: string): real
  {
    if t in cfg.inclusions then cfg.inclusions[t] else 0.0
  }

  /**
   * The value of column `c` in the first row of feed `f` (line 218), null when
   * the feed has no row. A later row's value is not used, even when the first
   * row's cell is null.
   */
  function FirstValue(rows: seq<FeedRow>, f: string, c: Column): (v: Option<real>)
    ensures (forall i :: 0 <= i < |rows| ==> rows[i].desc != f) ==> v.None?
    ensures forall i :: 0 <= i < |rows| && rows[i].desc == f && (forall q :: 0 <= q < i ==> rows[q].desc != f) ==>
      v == Get(rows[i], c)
    ensures v.Some? ==> exists i :: 0 <= i < |rows| && rows[i].desc == f && Get(rows[i], c) == v
  {
    match FirstIndex(rows, RowDesc, f)
    case None => None
    case Some(i) => Get(rows[i], c)
  }

  /** What one feed adds (line 219): its inclusion/100 times its value, nothing when the value is null. */
  function Part(incl: real, v: Option<real>): real
  {
    match v
    case None => 0.0
    case Some(x) => incl / 100.0 * x
  }

  /**
   * The weighted sum of line 219: the parts of paired inclusions and values,
   * added up from the first pair to the last. It is linear in the inclusions
   * (`WeightedSumScales`, `WeightedSumAdds`).
   */
  function WeightedSum(incl: seq<real>, vals: seq<Option<real>>): real
    requires |incl| == |vals|
  {
    if |incl| == 0 then 0.0
    else WeightedSum(incl[..|incl| - 1], vals[..|incl| - 1]) + Part(incl[|incl| - 1], vals[|incl| - 1])
  }

  /** The inclusions of treatment `t`, one per entry of `feed_mapping`. */
  function Inclusions(mapping: seq<FeedEntry>, t: string): (xs: seq<real>)
    ensures |xs| == |mapping|
  {
    seq(|mapping|, i requires 0 <= i < |mapping| => Inclusion(mapping[i].cfg, t))
  }

  /** The feed names of `feed_mapping`, in order. */
  function Feeds(mapping: seq<FeedEntry>): (fs: seq<string>)
    ensures |fs| == |mapping|
  {
    seq(|mapping|, i requires 0 <= i < |mapping| => mapping[i].feed)
  }

  /** The value of column `c` for each of the named feeds. */
  function FeedValues(feeds: seq<string>, rows: seq<FeedRow>, c: Column): (vs: seq<Option<real>>)
    ensures |vs| == |feeds|
  {
    seq(|feeds|, i requires 0 <= i < |feeds| => FirstValue(rows, feeds[i], c))
  }

  /** The value of nutrient `c` for treatment `t`: the parts of all feeds of `feed_mapping`. */
  function NutrientValue(mapping: seq<FeedEntry>, t: string, rows: seq<FeedRow>, c: Column): real
  {
    WeightedSum(Inclusions(mapping, t), FeedValues(Feeds(mapping), rows, c))
  }


  /** The nutrient values of every day of treatment `t`. */
  function DayValues(mapping: seq<FeedEntry>, t: string, rows: seq<FeedRow>): (v: seq<real>)
    ensures |v| == |DietNutrients|
    ensures forall k :: 0 <= k < |v| ==> v[k] == NutrientValue(mapping, t, rows, DietNutrients[k])
  {
    seq(|DietNutrients|, k requires 0 <= k < |DietNutrients| => NutrientValue(mapping, t, rows, DietNutrients[k]))
  }

  /** The rows of one date range, one per day, in ascending date. */
  function RangeRows(trialId: string, name: string, r: DateRange, vals: seq<real>): (out: seq<DietRow>)
    ensures |out| == DayCount(r)
  {
    seq(DayCount(r), k requires 0 <= k < DayCount(r) => DietRow(trialId, name, r.startDay + k, r.dm, vals))
  }

  /** The rows of a list of date ranges, range after range. */
  function TreatmentRows(trialId: string, name: string, ranges: seq<DateRange>, vals: seq<real>): (out: seq<DietRow>)
    ensures forall k :: 0 <= k < |out| ==> out[k].trialId == trialId && out[k].diet == name && out[k].values == vals
  {
    if |ranges| == 0 then []
    else TreatmentRows(trialId, name, ranges[..|ranges| - 1], vals)
         + RangeRows(trialId, name, ranges[|ranges| - 1], vals)
  }

  /** The DIETCOMP table: treatment after treatment. */
  function DietComp(trialId: string, ts: seq<Treatment>, mapping: seq<FeedEntry>, rows: seq<FeedRow>): (d: seq<DietRow>)
    ensures forall k :: 0 <= k < |d| ==> d[k].trialId == trialId && |d[k].values| == |DietNutrients|
  {
    if |ts| == 0 then []
    else
      var t := ts[|ts| - 1];
      DietComp(trialId, ts[..|ts| - 1], mapping, rows)
      + TreatmentRows(trialId, t.name, t.ranges, DayValues(mapping, t.id, rows))
  }

  /** Days in a list of ranges, ends included, empty ranges counting zero. */
  function RangesDays(ranges: seq<DateRange>): nat
  {
    if |ranges| == 0 then 0 else RangesDays(ranges[..|ranges| - 1]) + DayCount(ranges[|ranges| - 1])
  }

  /** Days over all treatments. */
  function TotalDays(ts: seq<Treatment>): nat
  {
    if |ts| == 0 then 0 else TotalDays(ts[..|ts| - 1]) + RangesDays(ts[|ts| - 1].ranges)
  }

  // ----- the weighted sum -----

  /** Splitting the pairs splits the sum. */
  lemma {:induction false} WeightedSumAppend(x1: seq<real>, v1: seq<Option<real>>, x2: seq<real>, v2: seq<Option<real>>)
    requires |x1| == |v1| && |x2| == |v2|
    ensures WeightedSum(x1 + x2, v1 + v2) == WeightedSum(x1, v1) + WeightedSum(x2, v2)
    decreases |x2|
  {
    if |x2| == 0 {
      assert x1 + x2 == x1 && v1 + v2 == v1;
    } else {
      var n := |x2| - 1;
      assert (x1 + x2)[..|x1| + n] == x1 + x2[..n];
      assert (v1 + v2)[..|x1| + n] == v1 + v2[..n];
      WeightedSumAppend(x1, v1, x2[..n], v2[..n]);
    }
  }

  lemma PartScales(x: real, y: real, k: real, v: Option<real>)
    requires y == k * x
    ensures Part(y, v) == k * Part(x, v)
  {
    if v.Some? {
      assert (k * x) / 100.0 * v.value == k * (x / 100.0 * v.value);
    }
  }

  /** Scaling every inclusion by `k` scales the sum by `k`. */
  lemma {:induction false} WeightedSumScales(xs: seq<real>, ys: seq<real>, vs: seq<Option<real>>, k: real)
    requires |xs| == |ys| == |vs|
    requires forall i :: 0 <= i < |xs| ==> ys[i] == k * xs[i]
    ensures WeightedSum(ys, vs) == k * WeightedSum(xs, vs)
  {
    if |xs| > 0 {
      var n := |xs| - 1;
      WeightedSumScales(xs[..n], ys[..n], vs[..n], k);
      PartScales(xs[n], ys[n], k, vs[n]);
    }
  }

  /** Inclusions that add up give sums that add up. */
  lemma {:induction false} WeightedSumAdds(xs: seq<real>, ys: seq<real>, zs: seq<real>, vs: seq<Option<real>>)
    requires |xs| == |ys| == |zs| == |vs|
    requires forall i :: 0 <= i < |xs| ==> zs[i] == xs[i] + ys[i]
    ensures WeightedSum(zs, vs) == WeightedSum(xs, vs) + WeightedSum(ys, vs)
  {
    if |xs| > 0 {
      var n := |xs| - 1;
      WeightedSumAdds(xs[..n], ys[..n], zs[..n], vs[..n]);
      if vs[n].Some? {
        assert (xs[n] + ys[n]) / 100.0 * vs[n].value == xs[n] / 100.0 * vs[n].value + ys[n] / 100.0 * vs[n].value;
      }
    }
  }

  /** Inclusions that are all 0% give a zero sum, whatever the values. */
  lemma {:induction false} WeightedSumZero(xs: seq<real>, vs: seq<Option<real>>)
    requires |xs| == |vs|
    requires forall i :: 0 <= i < |xs| ==> xs[i] == 0.0
    ensures WeightedSum(xs, vs) == 0.0
  {
    if |xs| > 0 {
      WeightedSumZero(xs[..|xs| - 1], vs[..|xs| - 1]);
    }
  }

  /** Inclusions and values that are never negative give a sum that is not negative. */
  lemma {:induction false} WeightedSumNonNegative(xs: seq<real>, vs: seq<Option<real>>)
    requires |xs| == |vs|
    requires forall i :: 0 <= i < |xs| ==> 0.0 <= xs[i] && (vs[i].Some? ==> 0.0 <= vs[i].value)
    ensures 0.0 <= WeightedSum(xs, vs)
  {
    if |xs| > 0 {
      var n := |xs| - 1;
      WeightedSumNonNegative(xs[..n], vs[..n]);
      if vs[n].Some? {
        assert 0.0 <= xs[n] / 100.0;
        assert 0.0 <= xs[n] / 100.0 * vs[n].value;
      }
    }
  }

  /** Every inclusion of treatment `t` is at least 0%, as the bounds of the inclusion input guarantee (line 135). */
  predicate NonNegativeInclusions(mapping: seq<FeedEntry>, t: string)
  {
    forall i :: 0 <= i < |mapping| ==> 0.0 <= Inclusion(mapping[i].cfg, t)
  }

  /** Every non-null cell of column `c` is non-negative. */
  predicate NonNegativeCells(rows: seq<FeedRow>, c: Column)
  {
    forall i :: 0 <= i < |rows| && Get(rows[i], c).Some? ==> 0.0 <= Get(rows[i], c).value
  }

  /** With no negative inclusion and no negative cell, no DIETCOMP value is negative. */
  lemma NutrientValueNonNegative(m: seq<FeedEntry>, t: string, rows: seq<FeedRow>, c: Column)
    requires NonNegativeInclusions(m, t) && NonNegativeCells(rows, c)
    ensures 0.0 <= NutrientValue(m, t, rows, c)
  {
    var xs, vs := Inclusions(m, t), FeedValues(Feeds(m), rows, c);
    forall i | 0 <= i < |xs| ensures 0.0 <= xs[i] && (vs[i].Some? ==> 0.0 <= vs[i].value) {
      assert xs[i] == Inclusion(m[i].cfg, t);
      assert vs[i] == FirstValue(rows, m[i].feed, c);
    }
    WeightedSumNonNegative(xs, vs);
  }

  /** Scaling the inclusion of every feed in treatment `t` by `k` scales each nutrient value by `k`. */
  lemma NutrientValueScales(m: seq<FeedEntry>, m': seq<FeedEntry>, t: string, rows: seq<FeedRow>, c: Column, k: real)
    requires |m'| == |m|
    requires forall i :: 0 <= i < |m| ==> m'[i].feed == m[i].feed && Inclusion(m'[i].cfg, t) == k * Inclusion(m[i].cfg, t)
    ensures NutrientValue(m', t, rows, c) == k * NutrientValue(m, t, rows, c)
  {
    assert Feeds(m') == Feeds(m);
    var xs, ys, vs := Inclusions(m, t), Inclusions(m', t), FeedValues(Feeds(m), rows, c);
    forall i | 0 <= i < |xs| ensures ys[i] == k * xs[i] {
      assert xs[i] == Inclusion(m[i].cfg, t) && ys[i] == Inclusion(m'[i].cfg, t);
    }
    WeightedSumScales(xs, ys, vs, k);
    calc {
      NutrientValue(m', t, rows, c);
      WeightedSum(ys, vs);
      k * WeightedSum(xs, vs);
      { assert WeightedSum(xs, vs) == NutrientValue(m, t, rows, c); }
      k * NutrientValue(m, t, rows, c);
    }
  }

  /** Two diets over the same feeds whose inclusions add up give nutrient values that add up. */
  lemma NutrientValueAdds(m1: seq<FeedEntry>, m2: seq<FeedEntry>, m3: seq<FeedEntry>, t: string, rows: seq<FeedRow>, c: Column)
    requires |m1| == |m2| == |m3|
    requires forall i :: 0 <= i < |m1| ==> m2[i].feed == m1[i].feed && m3[i].feed == m1[i].feed
    requires forall i :: 0 <= i < |m1| ==> Inclusion(m3[i].cfg, t) == Inclusion(m1[i].cfg, t) + Inclusion(m2[i].cfg, t)
    ensures NutrientValue(m3, t, rows, c) == NutrientValue(m1, t, rows, c) + NutrientValue(m2, t, rows, c)
  {
    assert Feeds(m2) == Feeds(m1) && Feeds(m3) == Feeds(m1);
    WeightedSumAdds(Inclusions(m1, t), Inclusions(m2, t), Inclusions(m3, t), FeedValues(Feeds(m1), rows, c));
  }

  /** The sum over a concatenation of feed lists is the sum of the sums. */
  lemma NutrientValueAppend(a: seq<FeedEntry>, b: seq<FeedEntry>, t: string, rows: seq<FeedRow>, c: Column)
    ensures NutrientValue(a + b, t, rows, c) == NutrientValue(a, t, rows, c) + NutrientValue(b, t, rows, c)
  {
    InclusionsAppend(a, b, t);
    FeedValuesAppend(a, b, rows, c);
    WeightedSumAppend(Inclusions(a, t), FeedValues(Feeds(a), rows, c), Inclusions(b, t), FeedValues(Feeds(b), rows, c));
  }

  lemma InclusionsAppend(a: seq<FeedEntry>, b: seq<FeedEntry>, t: string)
    ensures Inclusions(a + b, t) == Inclusions(a, t) + Inclusions(b, t)
  {
  }

  lemma FeedValuesAppend(a: seq<FeedEntry>, b: seq<FeedEntry>, rows: seq<FeedRow>, c: Column)
    ensures FeedValues(Feeds(a + b), rows, c) == FeedValues(Feeds(a), rows, c) + FeedValues(Feeds(b), rows, c)
  {
    assert Feeds(a + b) == Feeds(a) + Feeds(b);
  }

  /** A one-feed list sums to that feed's part. */
  lemma SingleEntry(e: FeedEntry, t: string, rows: seq<FeedRow>, c: Column)
    ensures NutrientValue([e], t, rows, c) == Part(Inclusion(e.cfg, t), FirstValue(rows, e.feed, c))
  {
    var xs, vs := Inclusions([e], t), FeedValues(Feeds([e]), rows, c);
    assert xs[..0] == [] && vs[..0] == [];
    assert xs[0] == Inclusion(e.cfg, t) && vs[0] == FirstValue(rows, e.feed, c);
    assert WeightedSum(xs, vs) == WeightedSum(xs[..0], vs[..0]) + Part(xs[0], vs[0]);
  }

  /** Adding one more feed to the list adds its part. */
  lemma NutrientValueSnoc(m: seq<FeedEntry>, n: nat, t: string, rows: seq<FeedRow>, c: Column)
    requires n < |m|
    ensures NutrientValue(m[..n + 1], t, rows, c) == NutrientValue(m[..n], t, rows, c) + Part(Inclusion(m[n].cfg, t), FirstValue(rows, m[n].feed, c))
  {
    assert m[..n + 1] == m[..n] + [m[n]];
    NutrientValueAppend(m[..n], [m[n]], t, rows, c);
    SingleEntry(m[n], t, rows, c);
  }

  /** A feed at 0% inclusion, or without a value, can be dropped from the list without changing the sum. */
  lemma DropSilentFeed(m: seq<FeedEntry>, p: nat, t: string, rows: seq<FeedRow>, c: Column)
    requires p < |m|
    requires Inclusion(m[p].cfg, t) == 0.0 || FirstValue(rows, m[p].feed, c).None?
    ensures NutrientValue(m[..p] + m[p + 1..], t, rows, c) == NutrientValue(m, t, rows, c)
  {
    assert m == m[..p] + [m[p]] + m[p + 1..];
    NutrientValueAppend(m[..p] + [m[p]], m[p + 1..], t, rows, c);
    NutrientValueAppend(m[..p], [m[p]], t, rows, c);
    NutrientValueAppend(m[..p], m[p + 1..], t, rows, c);
    SingleEntry(m[p], t, rows, c);
  }

  /** A list of feeds all at 0% inclusion sums to zero. */
  lemma NutrientValueZero(m: seq<FeedEntry>, t: string, rows: seq<FeedRow>, c: Column)
    requires forall i :: 0 <= i < |m| ==> Inclusion(m[i].cfg, t) == 0.0
    ensures NutrientValue(m, t, rows, c) == 0.0
  {
    WeightedSumZero(Inclusions(m, t), FeedValues(Feeds(m), rows, c));
  }

  /** A diet of 100% of one feed reproduces that feed's value (zero when the value is missing). */
  lemma SingleFeedReproduces(m: seq<FeedEntry>, p: nat, t: string, rows: seq<FeedRow>, c: Column)
    requires p < |m| && Inclusion(m[p].cfg, t) == 100.0
    requires forall q :: 0 <= q < |m| && q != p ==> Inclusion(m[q].cfg, t) == 0.0
    ensures NutrientValue(m, t, rows, c) == FirstValue(rows, m[p].feed, c).GetOr(0.0)
  {
    assert m == m[..p] + [m[p]] + m[p + 1..];
    NutrientValueAppend(m[..p] + [m[p]], m[p + 1..], t, rows, c);
    NutrientValueAppend(m[..p], [m[p]], t, rows, c);
    NutrientValueZero(m[..p], t, rows, c);
    NutrientValueZero(m[p + 1..], t, rows, c);
    SingleEntry(m[p], t, rows, c);
  }

  /** Every DIETCOMP value of a treatment fed 100% one feed equals that feed's value in the table. */
  lemma SingleFeedDay(m: seq<FeedEntry>, p: nat, t: string, rows: seq<FeedRow>)
    requires p < |m| && Inclusion(m[p].cfg, t) == 100.0
    requires forall q :: 0 <= q < |m| && q != p ==> Inclusion(m[q].cfg, t) == 0.0
    ensures forall k :: 0 <= k < |DietNutrients| ==>
      DayValues(m, t, rows)[k] == FirstValue(rows, m[p].feed, DietNutrients[k]).GetOr(0.0)
  {
    forall k | 0 <= k < |DietNutrients|
      ensures DayValues(m, t, rows)[k] == FirstValue(rows, m[p].feed, DietNutrients[k]).GetOr(0.0)
    {
      SingleFeedReproduces(m, p, t, rows, DietNutrients[k]);
    }
  }

  // ----- rows, their number and their order -----

  lemma {:induction false} TreatmentRowsLength(trialId: string, name: string, ranges: seq<DateRange>, vals: seq<real>)
    ensures |TreatmentRows(trialId, name, ranges, vals)| == RangesDays(ranges)
  {
    if |ranges| > 0 {
      TreatmentRowsLength(trialId, name, ranges[..|ranges| - 1], vals);
    }
  }

  /** DIETCOMP has one row per day of every range of every treatment. */
  lemma {:induction false} DietCompLength(trialId: string, ts: seq<Treatment>, mapping: seq<FeedEntry>, rows: seq<FeedRow>)
    ensures |DietComp(trialId, ts, mapping, rows)| == TotalDays(ts)
  {
    if |ts| > 0 {
      var t := ts[|ts| - 1];
      DietCompLength(trialId, ts[..|ts| - 1], mapping, rows);
      TreatmentRowsLength(trialId, t.name, t.ranges, DayValues(mapping, t.id, rows));
    }
  }

  lemma {:induction false} TreatmentRowsPrefix(trialId: string, name: string, ranges: seq<DateRange>, vals: seq<real>, n: nat)
    requires n <= |ranges|
    ensures TreatmentRows(trialId, name, ranges[..n], vals) <= TreatmentRows(trialId, name, ranges, vals)
    decreases |ranges| - n
  {
    if n < |ranges| {
      var init := ranges[..|ranges| - 1];
      assert init[..n] == ranges[..n];
      TreatmentRowsPrefix(trialId, name, init, vals, n);
    } else {
      assert ranges[..n] == ranges;
    }
  }

  /** Day `k` of range `j` sits after the days of the earlier ranges. */
  lemma TreatmentRowsAt(trialId: string, name: string, ranges: seq<DateRange>, vals: seq<real>, j: nat, k: nat)
    requires j < |ranges| && k < DayCount(ranges[j])
    ensures var p := RangesDays(ranges[..j]) + k;
      p < |TreatmentRows(trialId, name, ranges, vals)|
      && TreatmentRows(trialId, name, ranges, vals)[p] == DietRow(trialId, name, ranges[j].startDay + k, ranges[j].dm, vals)
  {
    TreatmentRowsPrefix(trialId, name, ranges, vals, j + 1);
    assert ranges[..j + 1][..j] == ranges[..j];
    TreatmentRowsLength(trialId, name, ranges[..j], vals);
  }

  lemma {:induction false} DietCompPrefix(trialId: string, ts: seq<Treatment>, mapping: seq<FeedEntry>, rows: seq<FeedRow>, n: nat)
    requires n <= |ts|
    ensures DietComp(trialId, ts[..n], mapping, rows) <= DietComp(trialId, ts, mapping, rows)
    decreases |ts| - n
  {
    if n < |ts| {
      var init := ts[..|ts| - 1];
      assert init[..n] == ts[..n];
      DietCompPrefix(trialId, init, mapping, rows, n);
    } else {
      assert ts[..n] == ts;
    }
  }

  /**
   * Row order: day `k` of range `j` of treatment `i` is the row after all
   * days of the earlier treatments and of the earlier ranges of `i`; it is
   * dated `start + k`, carries the treatment's display name and the range's
   * dry matter, and holds the treatment's weighted sums.
   */
  lemma DietCompAt(trialId: string, ts: seq<Treatment>, mapping: seq<FeedEntry>, rows: seq<FeedRow>, i: nat, j: nat, k: nat)
    requires i < |ts| && j < |ts[i].ranges| && k < DayCount(ts[i].ranges[j])
    ensures var p := TotalDays(ts[..i]) + RangesDays(ts[i].ranges[..j]) + k;
      p < |DietComp(trialId, ts, mapping, rows)|
      && DietComp(trialId, ts, mapping, rows)[p]
         == DietRow(trialId, ts[i].name, ts[i].ranges[j].startDay + k, ts[i].ranges[j].dm, DayValues(mapping, ts[i].id, rows))
  {
    var t := ts[i];
    DietCompPrefix(trialId, ts, mapping, rows, i + 1);
    assert ts[..i + 1][..i] == ts[..i];
    DietCompLength(trialId, ts[..i], mapping, rows);
    TreatmentRowsAt(trialId, t.name, t.ranges, DayValues(mapping, t.id, rows), j, k);
  }

  /** Every row of a treatment's rows comes from one of its ranges: dated inside it, with its dry matter. */
  lemma {:induction false} TreatmentRowOrigin(trialId: string, name: string, ranges: seq<DateRange>, vals: seq<real>, p: nat)
    returns (j: nat, k: nat)
    requires p < |TreatmentRows(trialId, name, ranges, vals)|
    ensures j < |ranges| && k < DayCount(ranges[j]) && p == RangesDays(ranges[..j]) + k
    ensures TreatmentRows(trialId, name, ranges, vals)[p] == DietRow(trialId, name, ranges[j].startDay + k, ranges[j].dm, vals)
  {
    var init := ranges[..|ranges| - 1];
    TreatmentRowsLength(trialId, name, init, vals);
    if p < |TreatmentRows(trialId, name, init, vals)| {
      j, k := TreatmentRowOrigin(trialId, name, init, vals, p);
      assert init[..j] == ranges[..j];
    } else {
      j := |ranges| - 1;
      k := p - RangesDays(init);
      assert ranges[..j] == init;
    }
  }

  /** Every DIETCOMP row comes from some treatment's range: its Diet, TMR_DM, date and values are that range's. */
  lemma {:induction false} DietRowOrigin(trialId: string, ts: seq<Treatment>, mapping: seq<FeedEntry>, rows: seq<FeedRow>, p: nat)
    returns (i: nat, j: nat, k: nat)
    requires p < |DietComp(trialId, ts, mapping, rows)|
    ensures i < |ts| && j < |ts[i].ranges| && k < DayCount(ts[i].ranges[j])
    ensures p == TotalDays(ts[..i]) + RangesDays(ts[i].ranges[..j]) + k
    ensures DietComp(trialId, ts, mapping, rows)[p]
      == DietRow(trialId, ts[i].name, ts[i].ranges[j].startDay + k, ts[i].ranges[j].dm, DayValues(mapping, ts[i].id, rows))
  {
    var init := ts[..|ts| - 1];
    DietCompLength(trialId, init, mapping, rows);
    if p < |DietComp(trialId, init, mapping, rows)| {
      i, j, k := DietRowOrigin(trialId, init, mapping, rows, p);
      assert init[..i] == ts[..i];
    } else {
      i := |ts| - 1;
      var t := ts[i];
      assert ts[..i] == init;
      j, k := TreatmentRowOrigin(trialId, t.name, t.ranges, DayValues(mapping, t.id, rows), p - TotalDays(init));
    }
  }

  /** Treatment T1 over three days (2024-01-01 to 2024-01-03) at DM 50.0 gives exactly three rows, each with TMR_DM 50.0. */
  lemma ThreeDayScenario(trialId: string, jan1: int, mapping: seq<FeedEntry>, rows: seq<FeedRow>)
    ensures var out := DietComp(trialId, [Treatment("T1", "T1", [DateRange(jan1, jan1 + 2, 50.0)])], mapping, rows);
      |out| == 3 && forall p :: 0 <= p < 3 ==> out[p].tmrDm == 50.0 && out[p].diet == "T1" && out[p].date == jan1 + p
  {
    var ts := [Treatment("T1", "T1", [DateRange(jan1, jan1 + 2, 50.0)])];
    var r := DateRange(jan1, jan1 + 2, 50.0);
    var vals := DayValues(mapping, "T1", rows);
    assert ts[..0] == [];
    assert [r][..0] == [];
    assert TreatmentRows(trialId, "T1", [r], vals) == RangeRows(trialId, "T1", r, vals);
    assert DietComp(trialId, ts, mapping, rows) == RangeRows(trialId, "T1", r, vals);
  }

  // ----- the imperative builder -----

  /** The innermost loop (lines 215-220): one nutrient's sum over `feed_mapping`, each feed adding its `Part`. */
  method FeedSum(mapping: seq<FeedEntry>, t: string, frame: array<FeedRow>, c: Column) returns (val: real)
    ensures val == NutrientValue(mapping, t, frame[..], c)
  {
    ghost var rows := frame[..];
    val := 0.0;
    var n := 0;
    while n < |mapping|
      invariant 0 <= n <= |mapping|
      invariant val == NutrientValue(mapping[..n], t, rows, c)
    {
      var feedVal := FirstValue(frame[..], mapping[n].feed, c);
      val := val + Part(Inclusion(mapping[n].cfg, t), feedVal);
      NutrientValueSnoc(mapping, n, t, rows, c);
      n := n + 1;
    }
    assert mapping[..n] == mapping;
  }

  /** The nutrient columns of one day's row (line 214). */
  method NutrientValues(mapping: seq<FeedEntry>, t: string, frame: array<FeedRow>) returns (vals: seq<real>)
    ensures vals == DayValues(mapping, t, frame[..])
  {
    vals := [];
    var k := 0;
    while k < |DietNutrients|
      invariant 0 <= k <= |DietNutrients|
      invariant vals == DayValues(mapping, t, frame[..])[..k]
    {
      var v := FeedSum(mapping, t, frame, DietNutrients[k]);
      assert DayValues(mapping, t, frame[..])[..k + 1] == DayValues(mapping, t, frame[..])[..k] + [v];
      vals := vals + [v];
      k := k + 1;
    }
  }

  /** The loop over the days of one range (lines 212-221): one row per day, in ascending date. */
  method BuildRangeRows(trialId: string, t: Treatment, rng: DateRange, mapping: seq<FeedEntry>, frame: array<FeedRow>)
    returns (out: seq<DietRow>)
    ensures out == RangeRows(trialId, t.name, rng, DayValues(mapping, t.id, frame[..]))
  {
    ghost var vals := DayValues(mapping, t.id, frame[..]);
    out := [];
    var day := rng.startDay;
    while day <= rng.endDay
      invariant rng.startDay <= day && day - rng.startDay <= DayCount(rng)
      invariant out == RangeRows(trialId, t.name, rng, vals)[..day - rng.startDay]
    {
      var v := NutrientValues(mapping, t.id, frame);
      out := out + [DietRow(trialId, t.name, day, rng.dm, v)];
      assert RangeRows(trialId, t.name, rng, vals)[..day + 1 - rng.startDay]
          == RangeRows(trialId, t.name, rng, vals)[..day - rng.startDay] + [DietRow(trialId, t.name, day, rng.dm, v)];
      day := day + 1;
    }
    assert RangeRows(trialId, t.name, rng, vals)[..day - rng.startDay] == RangeRows(trialId, t.name, rng, vals);
  }

  /** The loop over one treatment's ranges (lines 211-221). */
  method BuildTreatmentRows(trialId: string, t: Treatment, mapping: seq<FeedEntry>, frame: array<FeedRow>)
    returns (out: seq<DietRow>)
    ensures out == TreatmentRows(trialId, t.name, t.ranges, DayValues(mapping, t.id, frame[..]))
  {
    ghost var vals := DayValues(mapping, t.id, frame[..]);
    out := [];
    var j := 0;
    while j < |t.ranges|
      invariant 0 <= j <= |t.ranges|
      invariant out == TreatmentRows(trialId, t.name, t.ranges[..j], vals)
    {
      var rows := BuildRangeRows(trialId, t, t.ranges[j], mapping, frame);
      out := out + rows;
      assert t.ranges[..j + 1][..j] == t.ranges[..j];
      j := j + 1;
    }
    assert t.ranges[..j] == t.ranges;
  }

  /** The loops of DIET_COMP.py:210-221: treatments, their ranges, the days of each range. */
  method BuildDietComp(trialId: string, ts: seq<Treatment>, mapping: seq<FeedEntry>, frame: array<FeedRow>)
    returns (out: seq<DietRow>)
    ensures out == DietComp(trialId, ts, mapping, frame[..])
  {
    out := [];
    var i := 0;
    while i < |ts|
      invariant 0 <= i <= |ts|
      invariant out == DietComp(trialId, ts[..i], mapping, frame[..])
    {
      var rows := BuildTreatmentRows(trialId, ts[i], mapping, frame);
      out := out + rows;
      assert ts[..i + 1][..i] == ts[..i];
      i := i + 1;
    }
    assert ts[..i] == ts;
  }
}
