# Cavenscan scan statistics, modelled in Dafny

Cavenscan is a desktop client for a radio-scanning microcontroller. Each
sweep of the scanner over a channel range returns a statistics record: a
sample count and, per channel, how many samples detected a carrier. The
aggregation model keeps the most recent sweeps in a ring with one slot per
displayed line. It moves a circular cursor over that ring and folds every
sweep into a running-totals record. The window colours each grid cell by
a bucket of the detection percentage. As each channel is reported, it moves
a highlight to the next cell.

This project models that core:

- `stats.dfy`, module `Stats`: the record `Stats(scansCount, stats)`.
  It also holds `Clamped` and `IsSweep`, which state what the scanner
  guarantees of a sweep (cavenscan_mcu.py:34-42: one entry per channel, each
  clamped to the sample count). `Width` is `len(range(from, to + 1))`.
  `PyIndex` is Python list subscription.
- `model.dfy`, module `Model`: the class `CavenscanModel`. Its fields are
  `fromChannel`, `toChannel` and `linesCount`, which are set once; then
  `channelsCount`, `currentLine`, the ring (an `array<Stats>`) and the totals
  record. The totals record becomes the two fields `totalScans` and `totals`
  (an `array<int>`), which `Scan` updates in place. A ghost `history` holds
  the sweeps since the last reset. `Valid()` ties every field to it through
  the specification functions `LineAfter`, `Slot`, `ScansTotal` and
  `ChannelTotal`. Lemmas about these functions state the ring placement and
  the totals.
- `cavenscan.dfy`, module `Cavenscan`: the classifier `Color`, and the
  cursor arithmetic and record lookup of `report_progress`.

The scanner itself is abstract. `Scan` takes the record the scanner
returned as a parameter, so the call `self._mcu.scan(...)` is the caller's
job. The ring holds record values. That matches the source because `scan`
replaces a slot and never mutates a record that is stored in the ring
(cavenscan_model.py:27). The `[CavenscanStats(0, [])] * lines_count` aliasing
at cavenscan_model.py:19 therefore cannot be observed. After a reset each slot holds `(0, [])`, an empty
list and not a zero-filled one. The source does not guard `_color` against a
zero sample count, so neither does the model.

## Model

| member | source | states |
|---|---|---|
| `Model.CavenscanModel.constructor` | cavenscan_desktop_client/cavenscan_model.py:7-13 | stores the channel bounds and line count (defaults 0, 127, 5) and starts in the reset state |
| `Model.CavenscanModel.Reset` | cavenscan_desktop_client/cavenscan_model.py:15-19 | cursor -1, empty history, `channelsCount = to - from + 1`, totals: 0 samples and `Width` zero counts, every one of the `linesCount` ring slots `(0, [])`, fresh arrays |
| `Model.CavenscanModel.ClearStats` | cavenscan_desktop_client/cavenscan_model.py:21-22 | same post-state as `Reset` |
| `Model.CavenscanModel.Scan` | cavenscan_desktop_client/cavenscan_model.py:24-31 | the cursor becomes the previous `NextLine()`; the record is stored in exactly that slot; every other slot, both arrays, the bounds and `channelsCount` are unchanged; the sample total grows by the record's count and each channel total by the record's entry (0 past its end); history gains the record; the record is returned |
| `Model.CavenscanModel.NextLine` | cavenscan_desktop_client/cavenscan_model.py:59-61 | the next slot lies in `[0, linesCount)` and is the number of sweeps so far modulo `linesCount` |
| `Model.CavenscanModel.CurrLine` | cavenscan_desktop_client/cavenscan_model.py:43-45 | -1 exactly when no sweep happened since reset, otherwise `(n - 1) % linesCount` after n sweeps |
| `Model.CavenscanModel.ChannelsCount` | cavenscan_desktop_client/cavenscan_model.py:55-57 | `to - from + 1`, equal to the totals length when positive |
| `Model.CavenscanModel.GetStats` | cavenscan_desktop_client/cavenscan_model.py:66-67 | `Some` exactly for a line index in `[-linesCount, linesCount)`, negative indices counting from the end; it then holds the latest sweep written to that slot, or the empty record. Any other index gives `None`, the source's IndexError |
| `Model.CavenscanModel.GetTotalStats` | cavenscan_desktop_client/cavenscan_model.py:63-64 | the total sample count and the per-channel totals are the sums over all sweeps since reset, with one entry per channel |
| `Model.LineAfterSucc` | cavenscan_desktop_client/cavenscan_model.py:59-61 | advancing the cursor from -1 or from `(n-1) % linesCount` gives `n % linesCount` |
| `Model.SlotHoldsLatest` | cavenscan_desktop_client/cavenscan_model.py:26-27 | slot k holds sweep j whenever j ≡ k (mod linesCount) and j is among the last `linesCount` sweeps: circular overwriting |
| `Model.SlotEmptyBeforeFirstWrite` | cavenscan_desktop_client/cavenscan_model.py:19-27 | a slot the cursor has not reached since reset still holds `(0, [])` |
| `Model.TotalsAppend` | cavenscan_desktop_client/cavenscan_model.py:28-30 | the totals of two consecutive runs of sweeps are the sums of their totals |
| `Model.TotalsOrderIndependent` | cavenscan_desktop_client/cavenscan_model.py:28-30 | any permutation of the same sweeps gives the same sample and channel totals |
| `Model.TotalsWithinScans` | cavenscan_desktop_client/cavenscan_model.py:28-30 | if every sweep is clamped as the scanner guarantees, each channel total lies in `[0, sample total]` |
| `Model.TwoSweepTotals` | cavenscan_desktop_client/cavenscan_model.py:28-30 | sweeps of 85 and 92 samples with 3 and 5 detections total 177 and 8 |
| `Cavenscan.Color` | cavenscan_desktop_client/cavenscan.py:213-228 | for any non-zero `count` (a negative count reverses the comparisons, as the float division does) the bucket is in 0..6, and it is 0 exactly when `number == 0` |
| `Cavenscan.ColorBuckets` | cavenscan_desktop_client/cavenscan.py:217-228 | for positive counts, bucket k holds exactly when the percentage lies in the k-th band (below 5, 5-10, 10-25, 25-50, 50-75, at least 75) |
| `Cavenscan.ColorCountsThresholds` | cavenscan_desktop_client/cavenscan.py:214-228 | reference definition: the bucket is 0 for no detections, else 1 plus the number of thresholds 5, 10, 25, 50, 75 the percentage reaches |
| `Cavenscan.ColorMonotone` | cavenscan_desktop_client/cavenscan.py:214-228 | for a fixed positive count, the bucket does not decrease as the detections grow |
| `Cavenscan.ColorExamples` | cavenscan_desktop_client/cavenscan.py:213-228 | 4, 9, 24, 49, 74, 75 of 100 give buckets 1 to 6; 90 of 90 gives 6; 0 of 90 gives 0; 1 of -1 gives 1 and -1 of -1 gives 6 |
| `Cavenscan.CellOf` | cavenscan_desktop_client/cavenscan.py:235 | the cell written for a channel is on the given line; its column lies in `[0, Width)` exactly when the channel is in `[from, to]`, and it is `channel - from` |
| `Cavenscan.ProgressStep` | cavenscan_desktop_client/cavenscan.py:240-252 | the cursor moves either to `(nextLine, from)` or to `(currLine, channel + 1)`; from a channel in range it stays in range; it returns to `from` only after `to` |
| `Cavenscan.Highlighted` | cavenscan_desktop_client/cavenscan.py:240-254 | the highlighted cell is `(currLine, channel + 1 - from)` before the last channel and `(nextLine, 0)` after it; for a channel in range its column lies in `[0, Width)` |
| `Cavenscan.Ticks` | cavenscan_desktop_client/cavenscan.py:22 | the reported channels are exactly the channels of `[from, to]`, one per column, in strictly ascending order |
| `Cavenscan.CellsInGrid` | cavenscan_desktop_client/cavenscan.py:235-254 | for a channel in range and lines in range, the reported cell and the highlighted cell both lie inside the lines x channels grid |
| `Cavenscan.HighlightIsNextReport` | cavenscan_desktop_client/cavenscan.py:240-254 | after reporting a channel, the highlight is on the next channel of the same line; after the last channel it is on the first channel of line `next_line`, where the next sweep is reported |
| `Cavenscan.ReportedCarrier` | cavenscan_desktop_client/cavenscan.py:231-232 | corrected lookup: the count shown for channel c is the entry `c - from` of the sweep, which lies in `[0, scansCount]` |
| `Cavenscan.ReportedCarrierAsWritten` | cavenscan_desktop_client/cavenscan.py:232 | the lookup as written subscripts the record by the channel number and succeeds exactly when that number is a valid Python index |
| `Cavenscan.AsWrittenAgreesFromZero` | cavenscan_desktop_client/cavenscan.py:232 | when the range starts at channel 0, the written lookup and the corrected lookup agree |
| `Cavenscan.AsWrittenMisreads` | cavenscan_desktop_client/cavenscan.py:232 | for range 10..12, channel 12 raises IndexError; for range 1..4, channel 1 shows channel 2's count |
| `Cavenscan.ReportedColor` | cavenscan_desktop_client/cavenscan.py:231-237 | with the corrected `channel - from` lookup (`ReportedCarrier`), the bucket of a reported cell is in 0..6; it is 0 exactly when the channel saw no carrier, and 6 exactly when at least 75% of samples did. The source reads `stats[channel]` instead, which agrees only when `from = 0` (`AsWrittenAgreesFromZero`) |

## Left out

- The scanner call (cavenscan_model.py:25) is not modelled: `Scan` receives the record as a parameter. The emulator `CavenscanMcuEmulator.scan` (cavenscan_mcu.py:31-42) is left out too, because it uses `sleep`, `random.randint` and floating-point `random.gauss`. Its output contract is kept as the predicates `Clamped` and `IsSweep`.
- Model.CavenscanModel.Scan requires the record to be no longer than the channel range. A longer record would raise IndexError halfway through the loop at cavenscan_model.py:29-30, after the cursor, the slot and the sample total had already changed. That partial failure is not modelled.
- Model.CavenscanModel.constructor takes `linesCount` as a natural number. With a negative `lines_count` the source builds an empty ring, and `next_line` uses Python's floor modulo with a negative divisor; neither is modelled. With `lines_count == 0`, `next_line` raises ZeroDivisionError, so `NextLine` and `Scan` require `linesCount > 0`.
- The totals record is two fields of the model, and `GetTotalStats` and `GetStats` return value snapshots. The source returns the live objects, so a caller could alias them and mutate them; that is not modelled.
- Cavenscan.Color models the float division at cavenscan.py:214 as exact integer comparisons. They agree whenever |count| < 25·2^47 (about 3.5·10^15), as long as the quotient is a finite double. From that count on, the correctly rounded quotient can be exactly 75.0 while the exact one lies just below 75 (number = 3·2^51 − 1, count = 2^53 − 1): the source then gives 6 where the model gives 5. The thresholds 5, 10, 25 and 50 agree for every |count| < 2^53. `count == 0` raises ZeroDivisionError in the source, so `count != 0` is a precondition. A negative count is modelled, with the comparisons reversed. It never occurs in the program, because every count is a clamped sweep's sample count or a sum of them. The lemmas about bands and monotonicity speak of positive counts only.
- The totals-row loop of `report_progress` (cavenscan.py:243-250) only applies `Color` to each entry of `GetTotalStats()` and writes widgets; only `Color` and `TotalsWithinScans` cover it.
- `ScanThread` (cavenscan.py:11-25) is concurrency and timing. `Ticks` models only the order of channels it reports.
- The Qt layout, dialogs, `resize_matrix`, the spin-box fix-ups, the status bar, the style sheets and the main block (cavenscan.py:28-210, 259-275) are presentation and are left out.
- `get_ports` and the `port` property (cavenscan_mcu.py:20-26, 44-45; cavenscan_model.py:36-37) are constant or trivial wrappers and are left out.
- `save_stats` (cavenscan_model.py:33-34) is an unimplemented stub that only prints, so it is left out.

## Findings

| source | as written | input that shows it | evidently intended | confidence | as-written member | corrected member |
|---|---|---|---|---|---|---|
| cavenscan_desktop_client/cavenscan.py:232 | `get_stats(line).stats[channel]` indexes the record by the channel number | `from_channel = 10, to_channel = 12`, sweep `(90, [1, 2, 3])`, report for channel 12: IndexError; for `from_channel = 1`, channel 1 shows the count of channel 2 | `stats[channel - from_channel]`, the same offset as the cell column at line 235 | medium, not executed; latent, because the window always builds the model with the default range starting at 0 | `Cavenscan.ReportedCarrierAsWritten` (with `Cavenscan.AsWrittenMisreads`) | `Cavenscan.ReportedCarrier` (with `Cavenscan.ReportedColor`) |
