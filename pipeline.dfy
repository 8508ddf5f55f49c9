/**
 * The "Create FICOMP & DIETCOMP Sheets" action (DIET_COMP.py:173-228): the
 * derived-field block, the NASEM fallback, then the three sheets built from
 * the table as it stands afterwards.
 */
module Pipeline {
  import opened Frame
  import opened Backfill
  import opened DateRanges
  import opened DietComp
  import opened Report

  /** The three sheets of the workbook. */
  datatype Workbook = Workbook(ficomp: Sheet, dietcomp: seq<DietRow>, key: seq<KeyRow>)

  /** The workbook the action writes, as a function of the working table it starts from. */
  function Generated(rows: seq<FeedRow>, trialId: string, mapping: seq<FeedEntry>, ref: RefTable, ts: seq<Treatment>): (w: Workbook)
    requires AllConfigured(mapping, rows)
    ensures |w.ficomp.body| == |rows| && w.ficomp.header == FicompColumns
    ensures |w.dietcomp| == TotalDays(ts)
    ensures |w.key| == |FicompColumns|
  {
    DeriveKeepsConfigured(rows, trialId, mapping);
    var table := Backfilled(DeriveAll(rows, trialId, mapping), mapping, ref);
    DietCompLength(trialId, ts, mapping, table);
    var ficomp := Ficomp(table);
    Workbook(ficomp, DietComp.DietComp(trialId, ts, mapping, table), Key(ficomp))
  }

  /** The derived-field block keeps every `desc_1`, so every row still has its form entry. */
  lemma DeriveKeepsConfigured(rows: seq<FeedRow>, trialId: string, mapping: seq<FeedEntry>)
    requires AllConfigured(mapping, rows)
    ensures AllConfigured(mapping, DeriveAll(rows, trialId, mapping))
  {
    var d := DeriveAll(rows, trialId, mapping);
    forall i | 0 <= i < |d| ensures Configured(mapping, d[i].desc) {
      assert d[i].desc == rows[i].desc;
    }
  }

  /**
   * A DIETCOMP value is computed from the table after the fallback: a feed
   * whose aNDF the lab left empty contributes its NASEM library value.
   */
  lemma DietCompUsesBackfilled(rows: seq<FeedRow>, trialId: string, mapping: seq<FeedEntry>, ref: RefTable,
                               ts: seq<Treatment>, i: nat, j: nat, k: nat)
    requires AllConfigured(mapping, rows)
    requires i < |ts| && j < |ts[i].ranges| && k < DayCount(ts[i].ranges[j])
    ensures var table := Backfilled(DeriveAll(rows, trialId, mapping), mapping, ref);
      var p := TotalDays(ts[..i]) + RangesDays(ts[i].ranges[..j]) + k;
      p < |Generated(rows, trialId, mapping, ref, ts).dietcomp|
      && Generated(rows, trialId, mapping, ref, ts).dietcomp[p].values == DayValues(mapping, ts[i].id, table)
  {
    DeriveKeepsConfigured(rows, trialId, mapping);
    var table := Backfilled(DeriveAll(rows, trialId, mapping), mapping, ref);
    DietCompAt(trialId, ts, mapping, table, i, j, k);
  }

  /**
   * Lines 175-228 on the table in place: the derived columns, the fallback,
   * then FICOMP, DIETCOMP and KEY from the resulting table.
   */
  method CreateSheets(frame: array<FeedRow>, trialId: string, mapping: seq<FeedEntry>, ref: RefTable, ts: seq<Treatment>)
    returns (w: Workbook)
    requires AllConfigured(mapping, frame[..])
    modifies frame
    ensures frame[..] == Backfilled(DeriveAll(old(frame[..]), trialId, mapping), mapping, ref)
    ensures w == Generated(old(frame[..]), trialId, mapping, ref, ts)
  {
    ghost var rows := frame[..];
    AddDerivedColumns(frame, trialId, mapping);
    DeriveKeepsConfigured(rows, trialId, mapping);
    BackfillFrame(frame, mapping, ref);
    var ficomp := Ficomp(frame[..]);
    var dietcomp := BuildDietComp(trialId, ts, mapping, frame);
    w := Workbook(ficomp, dietcomp, Key(ficomp));
  }
}
