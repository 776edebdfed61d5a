/** The computational parts of the scanner window (cavenscan.py): the
    intensity classifier that colours a grid cell, and the cursor arithmetic
    of the per-channel progress report. */
module Cavenscan {
  import opened Stats

  // ---------------------------------------------------------------------
  // Intensity classifier
  // ---------------------------------------------------------------------

  /** Whether the percentage 100 * number / count lies below t. The source
      divides in floating point; for a non-zero count the comparison is this
      exact integer one, with the sides swapped when the count is negative. */
  predicate Below(number: int, count: int, t: int)
    requires count != 0
  {
    if count > 0 then number * 100 < t * count else number * 100 > t * count
  }

  /** The colour bucket of a cell with `number` detections out of `count`
      samples: the percentage is compared with 0, 5, 10, 25, 50 and 75. */
  function Color(number: int, count: int): (r: int)
    requires count != 0
    ensures 0 <= r <= 6
    ensures r == 0 <==> number == 0
  {
    if number == 0 then 0
    else if Below(number, count, 5) then 1
    else if Below(number, count, 10) then 2
    else if Below(number, count, 25) then 3
    else if Below(number, count, 50) then 4
    else if Below(number, count, 75) then 5
    else 6
  }

  /** The percentage thresholds between the non-zero buckets. */
  const THRESHOLDS: seq<int> := [5, 10, 25, 50, 75]

  /** How many of the thresholds ts the percentage 100 * number / count reaches. */
  function Reached(number: int, count: int, ts: seq<int>): (n: nat)
    requires count != 0
    ensures n <= |ts|
  {
    if ts == [] then 0
    else (if Below(number, count, ts[0]) then 0 else 1) + Reached(number, count, ts[1..])
  }

  /** Reference definition: a non-zero count is coloured one more than the
      number of thresholds its percentage reaches. */
  lemma ColorCountsThresholds(number: int, count: int)
    requires count != 0
    ensures Color(number, count) == if number == 0 then 0 else 1 + Reached(number, count, THRESHOLDS)
  {
    assert [75][1..] == [];
    assert Reached(number, count, [75]) == if Below(number, count, 75) then 0 else 1;
    assert [50, 75][1..] == [75];
    assert Reached(number, count, [50, 75])
      == (if Below(number, count, 50) then 0 else 1) + Reached(number, count, [75]);
    assert [25, 50, 75][1..] == [50, 75];
    assert Reached(number, count, [25, 50, 75])
      == (if Below(number, count, 25) then 0 else 1) + Reached(number, count, [50, 75]);
    assert [10, 25, 50, 75][1..] == [25, 50, 75];
    assert Reached(number, count, [10, 25, 50, 75])
      == (if Below(number, count, 10) then 0 else 1) + Reached(number, count, [25, 50, 75]);
    assert THRESHOLDS[1..] == [10, 25, 50, 75];
    assert Reached(number, count, THRESHOLDS)
      == (if Below(number, count, 5) then 0 else 1) + Reached(number, count, [10, 25, 50, 75]);
  }

  /** Reaching thresholds is monotone in the number of detections. */
  lemma {:induction false} ReachedMonotone(n1: int, n2: int, count: int, ts: seq<int>)
    requires count > 0 && n1 <= n2
    ensures Reached(n1, count, ts) <= Reached(n2, count, ts)
  {
    if ts != [] {
      ReachedMonotone(n1, n2, count, ts[1..]);
    }
  }

  /** More detections never give a paler cell. */
  lemma ColorMonotone(n1: int, n2: int, count: int)
    requires count > 0 && 0 <= n1 <= n2
    ensures Color(n1, count) <= Color(n2, count)
  {
    ColorCountsThresholds(n1, count);
    ColorCountsThresholds(n2, count);
    ReachedMonotone(n1, n2, count, THRESHOLDS);
  }

  /** The bucket of each band of the detection percentage p = 100 * number / count. */
  lemma ColorBuckets(number: int, count: int)
    requires count > 0 && number > 0
    ensures Color(number, count) == 1 <==> 100 * number < 5 * count
    ensures Color(number, count) == 2 <==> 5 * count <= 100 * number < 10 * count
    ensures Color(number, count) == 3 <==> 10 * count <= 100 * number < 25 * count
    ensures Color(number, count) == 4 <==> 25 * count <= 100 * number < 50 * count
    ensures Color(number, count) == 5 <==> 50 * count <= 100 * number < 75 * count
    ensures Color(number, count) == 6 <==> 75 * count <= 100 * number
  {
  }

  lemma ColorExamples()
    ensures Color(4, 100) == 1 && Color(9, 100) == 2 && Color(24, 100) == 3
    ensures Color(49, 100) == 4 && Color(74, 100) == 5 && Color(75, 100) == 6
    ensures Color(90, 90) == 6 && Color(0, 90) == 0
    ensures Color(1, -1) == 1 && Color(-1, -1) == 6
  {
  }

  // ---------------------------------------------------------------------
  // Progress report
  // ---------------------------------------------------------------------

  /** A grid cell: a displayed line and a column. */
  datatype Cell = Cell(line: int, column: int)

  /** The position of the progress cursor: a line and a channel. */
  datatype Cursor = Cursor(line: int, channel: int)

  /** The cell a report for `channel` on `line` writes. */
  function CellOf(line: int, fromChannel: int, channel: int): (c: Cell)
    ensures c.line == line
    ensures forall toChannel :: 0 <= c.column < Width(fromChannel, toChannel) <==> fromChannel <= channel <= toChannel
    ensures c.column + fromChannel == channel
  {
    Cell(line, channel - fromChannel)
  }

  /** Where the cursor goes once `channel` has been reported on line
      currLine: to the next channel of the same line, or after the last
      channel to the first channel of the line the next sweep is written to. */
  function ProgressStep(currLine: int, nextLine: int, fromChannel: int, toChannel: int,
                        channel: int): (c: Cursor)
    ensures fromChannel <= channel <= toChannel ==> fromChannel <= c.channel <= toChannel
    ensures c == Cursor(nextLine, fromChannel) || c == Cursor(currLine, channel + 1)
    ensures c.channel == fromChannel && fromChannel <= channel <= toChannel ==> channel == toChannel
  {
    if channel == toChannel then Cursor(nextLine, fromChannel) else Cursor(currLine, channel + 1)
  }

  /** The cell highlighted after reporting `channel`. */
  function Highlighted(currLine: int, nextLine: int, fromChannel: int, toChannel: int,
                       channel: int): (h: Cell)
    ensures fromChannel <= channel <= toChannel ==> 0 <= h.column < Width(fromChannel, toChannel)
    ensures h.line == nextLine || h.line == currLine
    ensures channel != toChannel ==> h == Cell(currLine, channel + 1 - fromChannel)
    ensures channel == toChannel ==> h == Cell(nextLine, 0)
  {
    var c := ProgressStep(currLine, nextLine, fromChannel, toChannel, channel);
    CellOf(c.line, fromChannel, c.channel)
  }

  /** A run of consecutive integers holds exactly the integers of its range. */
  lemma ConsecutiveMembers(s: seq<int>, first: int)
    requires forall k :: 0 <= k < |s| ==> s[k] == first + k
    ensures forall c :: c in s <==> first <= c < first + |s|
  {
    forall c | first <= c < first + |s|
      ensures c in s
    {
      assert s[c - first] == c;
    }
  }

  /** The channels a sweep reports, in ascending order. */
  function Ticks(fromChannel: int, toChannel: int): (ts: seq<int>)
    ensures |ts| == Width(fromChannel, toChannel)
    ensures forall c :: c in ts <==> fromChannel <= c <= toChannel
    ensures forall k :: 0 <= k < |ts| ==> ts[k] == fromChannel + k
    ensures forall k :: 0 < k < |ts| ==> ts[k - 1] < ts[k]
  {
    var ts := seq(Width(fromChannel, toChannel), k => fromChannel + k);
    ConsecutiveMembers(ts, fromChannel);
    ts
  }

  /** Reported and highlighted cells stay inside the grid of lines x channels. */
  lemma CellsInGrid(currLine: int, nextLine: int, linesCount: nat,
                    fromChannel: int, toChannel: int, channel: int)
    requires 0 <= currLine < linesCount && 0 <= nextLine < linesCount
    requires fromChannel <= channel <= toChannel
    ensures var c := CellOf(currLine, fromChannel, channel);
      0 <= c.column < Width(fromChannel, toChannel)
    ensures var h := Highlighted(currLine, nextLine, fromChannel, toChannel, channel);
      0 <= h.line < linesCount && 0 <= h.column < Width(fromChannel, toChannel)
  {
  }

  /** The highlighted cell is always the one the next report writes: the
      next channel of this sweep, or, after the last channel, the first
      channel of the next sweep, which lands on line nextLine. */
  lemma HighlightIsNextReport(currLine: int, nextLine: int, fromChannel: int, toChannel: int, k: nat)
    requires k < Width(fromChannel, toChannel)
    ensures var ts := Ticks(fromChannel, toChannel);
      Highlighted(currLine, nextLine, fromChannel, toChannel, ts[k])
        == if k + 1 < |ts| then CellOf(currLine, fromChannel, ts[k + 1])
           else CellOf(nextLine, fromChannel, ts[0])
  {
  }

  /** The detection count a report for `channel` shows, read as the record
      is laid out: entry i belongs to channel fromChannel + i. */
  function ReportedCarrier(rec: Stats, fromChannel: int, toChannel: int, channel: int): (r: int)
    requires IsSweep(rec, Width(fromChannel, toChannel))
    requires fromChannel <= channel <= toChannel
    ensures 0 <= r <= rec.scansCount
    ensures r == At(rec, channel - fromChannel)
  {
    rec.stats[channel - fromChannel]
  }

  /** The same lookup as the source writes it: the record is subscripted by
      the channel number itself (Python subscription; None is IndexError). */
  function ReportedCarrierAsWritten(rec: Stats, channel: int): (r: Option<int>)
    ensures r.Some? <==> -|rec.stats| <= channel < |rec.stats|
  {
    PyIndex(rec.stats, channel)
  }

  /** With the default range starting at channel 0 the two lookups agree. */
  lemma AsWrittenAgreesFromZero(rec: Stats, toChannel: int, channel: int)
    requires IsSweep(rec, Width(0, toChannel)) && 0 <= channel <= toChannel
    ensures ReportedCarrierAsWritten(rec, channel) == Some(ReportedCarrier(rec, 0, toChannel, channel))
  {
  }

  /** For the range 10..12 the report for channel 12 raises IndexError
      where its count 3 is intended; for the range 1..4 the report for
      channel 1 shows 2, the count of channel 2, instead of its own 1. */
  lemma AsWrittenMisreads()
    ensures ReportedCarrierAsWritten(Stats(90, [1, 2, 3]), 12) == None
    ensures ReportedCarrier(Stats(90, [1, 2, 3]), 10, 12, 12) == 3
    ensures ReportedCarrierAsWritten(Stats(90, [1, 2, 3, 4]), 1) == Some(2)
    ensures ReportedCarrier(Stats(90, [1, 2, 3, 4]), 1, 4, 1) == 1
  {
  }

  /** The bucket of the cell a report for `channel` writes, with the
      corrected lookup. */
  function ReportedColor(rec: Stats, fromChannel: int, toChannel: int, channel: int): (r: int)
    requires IsSweep(rec, Width(fromChannel, toChannel)) && rec.scansCount > 0
    requires fromChannel <= channel <= toChannel
    ensures 0 <= r <= 6
    ensures r == 0 <==> rec.stats[channel - fromChannel] == 0
    ensures r == 6 <==> 4 * rec.stats[channel - fromChannel] >= 3 * rec.scansCount
  {
    Color(ReportedCarrier(rec, fromChannel, toChannel, channel), rec.scansCount)
  }
}
