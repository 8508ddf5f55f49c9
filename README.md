# DIET_COMP: a verified model of the FICOMP / DIETCOMP sheet builder

`DIET_COMP.py` is a Streamlit form with a small batch transform inside it. The form reads a lab
analysis file (CVAS) with one row per sample, taking `desc_1` as the feed name. For each feed it
collects:

- the lab, TYPE and METHOD;
- one inclusion percentage per treatment;
- an optional match in the NASEM 2021 feed library.

It also collects the date ranges of each treatment. From these inputs it writes three sheets:

- **FICOMP**: the working table reduced to 22 fixed columns;
- **DIETCOMP**: one row per treatment and calendar day, holding for thirteen nutrients the
  inclusion-weighted sum of the feeds' values;
- **KEY**: one row per FICOMP column.

This project models that transform in Dafny, in the form the script has:

| module | file | models | form |
|---|---|---|---|
| `Wrappers`, `Seqs` | `wrappers.dfy` | `Option` (a NaN cell is `None`), `Result`, and "first row whose key equals k" | datatypes, one function |
| `Text` | `text.dfy` | `norm_text` (lines 17-22), ASCII `lower`/`upper`, and the "Feed Name (Clean)" column (line 30) | functions and lemmas |
| `Classify` | `classify.dfy` | the TYPE/METHOD defaults (lines 120-129) | functions and lemmas |
| `Frame` | `frame.dfy` | the working table: loading with required and optional columns (lines 90, 120, 180-186), and the derived-field block (lines 175-184) | datatypes, functions, and a method over `array<FeedRow>` |
| `Backfill` | `backfill.dfy` | the NASEM fallback (lines 189-199) | functions as specification, and in-place methods over `array<FeedRow>` |
| `DateRanges` | `dateranges.dfy` | a treatment's range list, plus "Add range" and "Delete range" (lines 163-169) | a class with a `seq` field, and functions |
| `DietComp` | `dietcomp.dfy` | the DIETCOMP loops (lines 209-222) | functions as specification, and loop methods |
| `Report` | `report.dfy` | the FICOMP selection (lines 202-206) and the KEY sheet (lines 225-228) | functions and lemmas |
| `Pipeline` | `pipeline.dfy` | the "Create" action as a whole (lines 173-228) | a function and a method |

Representation choices:

- Nutrient cells are `Option<real>`, so arithmetic is exact.
- Dates are integer day numbers.
- `feed_mapping` is a sequence of entries in dictionary order.
- A lookup in the reference library is the first row whose "Feed Name (Original)" equals the match exactly.

Each imperative method is proved against a specification function on sequences, for example
`ensures frame[..] == Backfilled(old(frame[..]), mapping, ref)`. The properties are then proved
about those functions.

The script's behaviour on three points a reader might not expect:

- A date range whose end precedes its start is not rejected. It yields no DIETCOMP row, because
  `pd.date_range` is empty (`DateRanges.DayCount`).
- The NASEM selection list and the lookup both use the original library names (lines 140, 196).
  The "Clean" column is computed (line 30) but never read. The model computes it
  (`Text.CleanColumn`) and looks up by original name only.
- `aNDFom` is read unconditionally by the FICOMP selection (line 206). It is therefore a column
  without which the script fails, so `Frame.LoadFrame` treats it as required.

## Model

| member | source | states |
|---|---|---|
| Text.NormText | DIET_COMP.py:17-22 | `norm_text` as lower → NBSP to space → dash runs to one space → whitespace runs to one space → strip; its properties are the lemmas below |
| Text.NormTextShorter | DIET_COMP.py:17-22 | `norm_text` never lengthens a name |
| Text.SqueezeShorter | DIET_COMP.py:20-21 | the run substitution never lengthens a string |
| Text.NormTextIsNormal | DIET_COMP.py:17-22 | every output of `norm_text` has no upper-case letter, no `_` or `-`, no NBSP, no whitespace other than a plain space, no two adjacent spaces, and no space at either end |
| Text.NormalIsFixed | DIET_COMP.py:17-22 | a string already in that normal form is returned unchanged |
| Text.NormTextIdempotent | DIET_COMP.py:17-22 | `norm_text(norm_text(s)) == norm_text(s)` for every `s` |
| Text.SqueezeRep | DIET_COMP.py:20-21 | after the substitution, every character of the class is the replacement `rep` |
| Text.SqueezeNoPair | DIET_COMP.py:20-21 | after the substitution, no two adjacent characters both belong to the class |
| Text.SqueezeShape | DIET_COMP.py:20-21 | after `re.sub(run, rep, s)`, every matching character is `rep` and no two matching characters are adjacent |
| Text.SqueezeFixed | DIET_COMP.py:20-21 | a string without runs and without other matching characters is left unchanged by the substitution |
| Text.SqueezeKeeps | DIET_COMP.py:20-21 | the substitution introduces no character other than `rep` |
| Text.SqueezeHead | DIET_COMP.py:20-21 | the substitution keeps the string empty or non-empty, and starts with `rep` exactly when the input starts with a run |
| Text.StripSlice | DIET_COMP.py:22 | `strip()` returns a contiguous slice of its input with no whitespace at either end |
| Text.StripFixed | DIET_COMP.py:22 | a string with no whitespace at either end is its own strip |
| Text.UpperIdempotent | DIET_COMP.py:122-123 | upper-casing twice is upper-casing once |
| Text.NormTextAllNormal | DIET_COMP.py:30 | every name of a list is normalised to normal form, and normalisation is idempotent on each |
| Text.CleanColumn | DIET_COMP.py:30 | the Clean column has one entry per library name, each in normal form and a fixed point of `norm_text` |
| Classify.Contains | DIET_COMP.py:124-126 | the substring scan answers true exactly when the pattern occurs at some position (Python's `in`) |
| Classify.DefaultClassification | DIET_COMP.py:122-129 | FORAGE / "NIR, starch, NDFD48" when the feedtype contains FORAGE or the name contains SILAGE or HAYLAGE; otherwise PREMIX / "WC" when the name contains MIX or BASE; otherwise GRAIN / "NIR, starch" |
| Classify.ClassificationIgnoresCase | DIET_COMP.py:122-123 | upper-casing the inputs first does not change the defaults |
| Classify.ForageWinsOverMix | DIET_COMP.py:124-127 | a silage whose name also contains MIX still gets the forage defaults |
| Classify.DefaultTypeIsForageIff | DIET_COMP.py:124-125 | the default TYPE upper-cases to "FORAGE" exactly when the forage test holds, in both directions |
| Frame.ConfigOf | DIET_COMP.py:143-144 | `feed_mapping[feed]` is the configuration of an entry stored under that feed |
| Frame.ConfigOfFirstEntry | DIET_COMP.py:143-144 | that entry is the first one stored under the feed (the only one, as dictionary keys are unique) |
| Frame.FirstMissing | DIET_COMP.py:120 | the position of the first name missing from the file; none exactly when every name is present |
| Frame.LoadFrame | DIET_COMP.py:90 | fails, naming the column, exactly when a required column is missing; otherwise one row per lab row, with the same `desc_1` and `feedtype`, and raw cells from the file (null for an absent optional column, lines 185-186) |
| Frame.WithDerived | DIET_COMP.py:175-184 | Trial_ID, FI = desc_1, and LAB/TYPE/METHOD from the form; aNDF = NDF and FA = TFA; RUP + RDP = CP when both are present, with no clamping; OM + Ash = 100; ForNDF = aNDFom for TYPE "FORAGE", otherwise 0; raw columns and flags unchanged |
| Frame.DerivedOverwritesStale | DIET_COMP.py:175-184 | derived columns the file already carried are replaced, not kept |
| Frame.DeriveAll | DIET_COMP.py:175-184 | the derived-field block over the whole table: same row count and `desc_1`, Trial_ID set, FI = desc_1, raw lab cells unchanged; per-row identities in `WithDerived` |
| Frame.AddDerivedColumns | DIET_COMP.py:175-184 | the in-place loop leaves the table equal to the derived rows of the old table |
| Frame.CornSilageDerived | DIET_COMP.py:63-74 | the template's first feed gets aNDF 37.2, FA 2.61, RUP 7.9, OM 96.34 and ForNDF 35.3 |
| Backfill.Resolve | DIET_COMP.py:196-198 | the value is the library column of the first row whose original name equals the match |
| Backfill.Eligible | DIET_COMP.py:194-197 | the guard as a predicate: a usable match, the library column present, a library row with that exact original name, and every row of the feed null in the column |
| Backfill.Fill | DIET_COMP.py:198-199 | the cell takes the value and the flag becomes NASEM; every other cell and flag is unchanged |
| Backfill.Visit | DIET_COMP.py:193-199 | one visit to a feed keeps the table's length and every row's `desc_1` |
| Backfill.FillFeed | DIET_COMP.py:198-199 | filling the feed's rows keeps the table's length and every row's `desc_1` |
| Backfill.VisitIdempotent | DIET_COMP.py:192-199 | visiting the same `desc_1` again changes nothing: the all-null guard now fails, or a null library value is written again |
| Backfill.VisitStep | DIET_COMP.py:192-199 | visiting the next row's feed turns the closed form for the first `p` rows into the one for `p + 1` rows |
| Backfill.VisitCovered | DIET_COMP.py:192-199 | a feed already seen and filled is unchanged by a later visit |
| Backfill.VisitFirst | DIET_COMP.py:193-199 | the first visit to a feed that is eligible on the table before the loop fills exactly that feed's rows |
| Backfill.VisitFresh | DIET_COMP.py:193-199 | a visit to a feed not seen before, or not eligible, extends the closed form by that row |
| Backfill.PartialUncovered | DIET_COMP.py:195 | the rows of a feed not yet filled still hold their old cells, so its all-null guard reads as on the table before the loop |
| Backfill.EligibleSameCells | DIET_COMP.py:194-197 | the guard depends only on the `desc_1` cells and the feed's cells of the column |
| Backfill.FillTwice | DIET_COMP.py:198-199 | filling a row twice with the same value is filling it once |
| Backfill.FillAfterReset | DIET_COMP.py:191-199 | the ACTUAL reset of a flag is overwritten by a fill |
| Backfill.ColumnDoneOn | DIET_COMP.py:189-199 | processing a later column works on the earlier columns' output exactly as on the incoming table, because its own cells are untouched |
| Backfill.ColumnComplete | DIET_COMP.py:191-199 | after the flag reset and a visit to every row, column `c` is `BackfillColumn` of the table before the reset |
| Backfill.ColumnLeavesOthers | DIET_COMP.py:189-199 | processing one column leaves every other backfillable column, its flag and every non-backfill field as they were |
| Backfill.BackfillAllSpec | DIET_COMP.py:189-199 | after the columns of `nasem_map`, each column is filled exactly where the guard held on the incoming table; other columns are untouched |
| Backfill.BackfillEffect | DIET_COMP.py:189-199 | for every row and backfillable column: the library value and NASEM when the guard (usable match, column present, all rows of the feed null, a matching library row) held; otherwise the old value and ACTUAL; nothing else in the row changes |
| Backfill.MeasuredFeedKept | DIET_COMP.py:195 | all or nothing per feed: one measured row of a feed keeps every row of that feed unchanged and ACTUAL |
| Backfill.UnmatchedFeedKept | DIET_COMP.py:194 | a feed whose match is empty or "(None)" is never overwritten |
| Backfill.NullReferenceFlagged | DIET_COMP.py:196-199 | a null library value leaves the cell null but flags it NASEM |
| Backfill.ReferenceNdfScenario | DIET_COMP.py:189-199 | a feed without NDF whose match has "Feed NDF" 40.0 ends with aNDF 40.0 flagged NASEM |
| Backfill.BackfillColumn | DIET_COMP.py:190-199 | one column of `nasem_map`, stated on the table the column's loop starts from; keeps row count and every `desc_1`; its per-cell effect is `BackfillEffect` |
| Backfill.BackfillAll | DIET_COMP.py:189-199 | the columns processed in order; keeps row count and every `desc_1`; its per-cell effect is `BackfillAllSpec` |
| Backfill.Backfilled | DIET_COMP.py:189-199 | the table after the whole fallback (the four columns of `nasem_map`, in order); keeps row count and every `desc_1` |
| Backfill.ResetFlagColumn | DIET_COMP.py:191 | every flag of the column is ACTUAL afterwards, and nothing else changes |
| Backfill.FillFeedRows | DIET_COMP.py:198-199 | the `.loc` assignments fill exactly the feed's rows |
| Backfill.VisitFeed | DIET_COMP.py:193-199 | the in-place visit leaves the table equal to `Visit` of the old table |
| Backfill.VisitRows | DIET_COMP.py:192-199 | the loop over `desc_1` leaves the closed form for all rows |
| Backfill.FillColumn | DIET_COMP.py:190-199 | one column's reset and loop leave `BackfillColumn` of the old table |
| Backfill.BackfillFrame | DIET_COMP.py:189-199 | the nested loops leave `Backfilled` of the old table |
| DateRanges.DaySetSize | DIET_COMP.py:212 | the set of days between start and end, both included, has `end - start + 1` elements, and none when the end precedes the start |
| DateRanges.DayCountIsDays | DIET_COMP.py:212 | the row count of a range is the number of calendar days `pd.date_range(start, end)` covers |
| DateRanges.NextRange | DIET_COMP.py:166-169 | the range "Add range" appends starts the day after the last end (or after today), is well formed, covers 8 days and has dm 50.0 |
| DateRanges.Added | DIET_COMP.py:166-169 | the old list followed by `NextRange`; its shape is `AddedShape` |
| DateRanges.Removed | DIET_COMP.py:163-164 | the list without element `i`; its shape is `RemovedShape` |
| DateRanges.AddedShape | DIET_COMP.py:166-169 | "Add range" keeps the earlier ranges and appends one range that starts the day after the last end (or after today), ends 7 days later, spans 8 days and has dm 50.0 |
| DateRanges.RemovedShape | DIET_COMP.py:163-164 | `pop(i)` removes exactly element `i` and keeps the others in order |
| DateRanges.ChainedDisjoint | DIET_COMP.py:166-169 | in a list of ranges each ending before the next begins, no two ranges share a day |
| DateRanges.AddKeepsChained | DIET_COMP.py:166-169 | "Add range" keeps such a list chained |
| DateRanges.RemoveKeepsChained | DIET_COMP.py:163-164 | "Delete range" keeps such a list chained |
| DateRanges.RangeList.constructor | DIET_COMP.py:148-149 | a treatment starts with no ranges |
| DateRanges.RangeList.Add | DIET_COMP.py:166-169 | the session list becomes `Added` of the old list |
| DateRanges.RangeList.Delete | DIET_COMP.py:163-164 | the session list becomes `Removed` of the old list |
| DietComp.FirstValue | DIET_COMP.py:217-218 | the cell of column `c` in the first row of the feed, even when that cell is null and a later row's is not; null when the feed has no row |
| DietComp.Part | DIET_COMP.py:217-219 | one feed's term: inclusion/100 × value, nothing for a null value |
| DietComp.WeightedSum | DIET_COMP.py:215-220 | the accumulation of those terms over paired inclusions and values, first to last |
| DietComp.NutrientValue | DIET_COMP.py:215-220 | a nutrient's value for a treatment: the weighted sum over `feed_mapping` of `Inclusions.get(t, 0)` and the feed's first value |
| DietComp.TreatmentRows | DIET_COMP.py:211-221 | a treatment's rows, range after range; every row carries the Trial_ID, the treatment's display name and its values |
| DietComp.DietComp | DIET_COMP.py:210-221 | the DIETCOMP table, treatment after treatment; every row carries the Trial_ID and thirteen values |
| DietComp.RangeRows | DIET_COMP.py:212-213 | one row per day of the range |
| DietComp.WeightedSumAppend | DIET_COMP.py:219 | splitting the list of feeds splits the sum |
| DietComp.PartScales | DIET_COMP.py:219 | scaling one inclusion scales that feed's part |
| DietComp.WeightedSumScales | DIET_COMP.py:219 | scaling every inclusion by `k` scales the sum by `k` |
| DietComp.WeightedSumAdds | DIET_COMP.py:219 | inclusions that add up give sums that add up; with `WeightedSumScales`, the sum is linear in the inclusions |
| DietComp.WeightedSumNonNegative | DIET_COMP.py:219 | inclusions and values that are never negative give a sum that is not negative |
| DietComp.NutrientValueNonNegative | DIET_COMP.py:215-220 | with every inclusion at least 0% (the lower bound of the inclusion input, line 135) and no negative cell, no DIETCOMP value is negative |
| DietComp.NutrientValueScales | DIET_COMP.py:215-220 | scaling every feed's inclusion for a treatment by `k` scales each nutrient value by `k` |
| DietComp.NutrientValueAdds | DIET_COMP.py:215-220 | two `feed_mapping` lists over the same feeds whose inclusions add up give nutrient values that add up |
| DietComp.WeightedSumZero | DIET_COMP.py:219 | all inclusions at 0% give 0, whatever the values |
| DietComp.NutrientValueAppend | DIET_COMP.py:216-219 | the nutrient value over a concatenation of `feed_mapping` lists is the sum of the two values |
| DietComp.SingleEntry | DIET_COMP.py:216-219 | one feed contributes inclusion/100 × its first value, or 0 when the value is null or the feed has no row |
| DietComp.NutrientValueSnoc | DIET_COMP.py:216-219 | one more feed adds exactly its part |
| DietComp.DropSilentFeed | DIET_COMP.py:219 | removing a feed at 0%, or one without a value, leaves the nutrient value unchanged |
| DietComp.NutrientValueZero | DIET_COMP.py:216-219 | a treatment giving every feed 0% (or no entry in Inclusions) has every value 0 |
| DietComp.SingleFeedReproduces | DIET_COMP.py:214-220 | 100% of one feed and 0% of the others reproduces that feed's value, or 0 when it is null |
| DietComp.SingleFeedDay | DIET_COMP.py:214-220 | in that case all thirteen DIETCOMP values equal the feed's values |
| DietComp.TreatmentRowsLength | DIET_COMP.py:211-212 | a treatment has the sum of its ranges' day counts in rows |
| DietComp.DietCompLength | DIET_COMP.py:210-221 | DIETCOMP has, summed over treatments and then over their ranges, max(0, end − start + 1) rows |
| DietComp.TreatmentRowsPrefix | DIET_COMP.py:211-221 | the rows of the first ranges come first |
| DietComp.DietCompPrefix | DIET_COMP.py:210-221 | the rows of the first treatments come first |
| DietComp.TreatmentRowsAt | DIET_COMP.py:211-213 | day `k` of range `j` sits right after the earlier ranges' days, with that date and dm |
| DietComp.DietCompAt | DIET_COMP.py:210-221 | day `k` of range `j` of treatment `i` is at a fixed position (earlier treatments, then earlier ranges, then earlier days), with Trial_ID, Diet = display name, Date = start + k, TMR_DM = dm, and the treatment's values |
| DietComp.TreatmentRowOrigin | DIET_COMP.py:211-213 | converse: every row of a treatment comes from one of its ranges |
| DietComp.DietRowOrigin | DIET_COMP.py:210-221 | converse: every DIETCOMP row is that row for some treatment, range and day |
| DietComp.ThreeDayScenario | DIET_COMP.py:210-221 | treatment T1 over three days at dm 50.0 gives exactly three rows, dated consecutively, with Diet "T1" and TMR_DM 50.0 |
| DietComp.FeedSum | DIET_COMP.py:215-220 | the accumulation of `val` over `feed_mapping` computes the nutrient's weighted sum over the table |
| DietComp.NutrientValues | DIET_COMP.py:214-220 | the column loop computes the thirteen values of the day |
| DietComp.BuildRangeRows | DIET_COMP.py:212-221 | the loop over a range's days produces exactly `RangeRows` of the range |
| DietComp.BuildTreatmentRows | DIET_COMP.py:211-221 | the loop over a treatment's ranges produces exactly `TreatmentRows` |
| DietComp.BuildDietComp | DIET_COMP.py:209-222 | the treatment loop, with the range, day, column and feed loops inside it, produces exactly `DietComp` of the table |
| Report.FicompFieldsValid | DIET_COMP.py:202-205 | every FICOMP field exists in the working table (flags only for the four backfilled columns) |
| Report.Ficomp | DIET_COMP.py:206 | the FICOMP header is `ficomp_cols`, with one data row per table row |
| Report.FlagHeaders | DIET_COMP.py:191 | each flag header is its column's name followed by `_Flag` |
| Report.HeadersAppend | DIET_COMP.py:202-205 | headers of concatenated field lists concatenate |
| Report.HeadersFirstLine | DIET_COMP.py:202 | the first six headers, in order |
| Report.HeadersThirdLine | DIET_COMP.py:204-205 | the last eleven headers, in order |
| Report.FicompHeader | DIET_COMP.py:202-205 | FICOMP's header is exactly the 22 listed names, in the listed order |
| Report.FicompCellsMeaning | DIET_COMP.py:206 | under a nutrient header FICOMP shows that column's cell of the row; under a `_Flag` header it shows ACTUAL or NASEM, the row's flag for that column; under Trial_ID, FI, LAB, TYPE and METHOD it shows the row's text |
| Report.Key | DIET_COMP.py:225-228 | KEY has one row per FICOMP column |
| Report.KeyListsFicomp | DIET_COMP.py:225-228 | KEY has 22 rows; row `i` names FICOMP column `i`, and every definition is "See documentation" |
| Pipeline.Generated | DIET_COMP.py:173-228 | FICOMP has one row per table row and the listed header; DIETCOMP has the total day count of rows; KEY has one row per FICOMP column |
| Pipeline.DeriveKeepsConfigured | DIET_COMP.py:175-177 | the derived-field block keeps every `desc_1`, so every row still has its form entry |
| Pipeline.DietCompUsesBackfilled | DIET_COMP.py:189-222 | every DIETCOMP row's values are computed from the table after the NASEM fallback |
| Pipeline.CreateSheets | DIET_COMP.py:173-228 | the action leaves the table derived and backfilled, and returns the three sheets of `Generated` |

## Left out

- The Streamlit interface (widgets, expanders, buttons, `st.rerun`, the session store): its results
  are inputs of the model (trial id, treatments with their ranges, `feed_mapping`, the library).
- File input and output: reading the lab file and the library, the Excel writer, the download
  buttons and the template (lines 24-33, 62-82, 90, 113-118, 231-235). `auto_fit_and_format`
  (lines 35-56) is openpyxl cosmetics.
- Floating point: values are exact reals, so no IEEE rounding is modelled.
- `datetime.today()`: a `today` parameter of "Add range". Editing a range's start, end or dm
  through the date widgets (lines 157-162) is a widget edit and is not modelled.
- Text: only ASCII letters change case, and `\s` is ASCII whitespace plus NBSP. Full Unicode
  `str.lower`, `str.upper` and `\s` are not modelled.
- Rows whose `desc_1` has no `feed_mapping` entry: the script raises a KeyError at line 177. The
  model states, as a precondition (`AllConfigured`), that the form created an entry for every
  feed, as lines 120 and 143 do.
- Two rows with the same `desc_1` but different `feedtype` values: Streamlit fails on the
  duplicate widget keys of lines 132-141, so classification is modelled once per row pair.
- The session store is initialised only once (lines 148-149). A treatment added after the first
  run therefore has no range list (a KeyError at line 153). This is UI state and is not modelled.
- Cell types: a DIETCOMP date is a day number, and FICOMP text cells are plain strings.
- Report.Ficomp: selection by name (`cvas_df[ficomp_cols]`) is modelled as a projection through
  the fixed field list behind `ficomp_cols`. `Report.FicompHeader` proves that those fields'
  names are exactly the listed headers. Because every listed name exists, the KeyError branch of
  the selection never arises.
