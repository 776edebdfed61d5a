/** Scan statistics: the record one sweep of the scanner produces, and the
    shape of the running totals (cavenscan_stats.py). */
module Stats {

  datatype Option<T> = None | Some(value: T)

  /** A sweep record: how many samples the scanner took, and for channel
      index i (channel fromChannel + i) how many of them detected a carrier. */
  datatype Stats = Stats(scansCount: int, stats: seq<int>)

  /** The record every ring slot holds after a reset. */
  const EMPTY: Stats := Stats(0, [])

  /** Number of channels in the inclusive range, i.e. len(range(from, to + 1)). */
  function Width(fromChannel: int, toChannel: int): nat
  {
    if toChannel < fromChannel then 0 else toChannel - fromChannel + 1
  }

  /** The detection count at channel index i, or 0 where the record has none. */
  function At(s: Stats, i: int): int
  {
    if 0 <= i < |s.stats| then s.stats[i] else 0
  }

  /** What a scanner sweep guarantees: a non-negative sample count and every
      detection count clamped into [0, scansCount]. */
  predicate Clamped(s: Stats)
  {
    0 <= s.scansCount && forall i :: 0 <= i < |s.stats| ==> 0 <= s.stats[i] <= s.scansCount
  }

  /** A clamped record with one entry per channel of a range of the given width. */
  predicate IsSweep(s: Stats, width: nat)
  {
    |s.stats| == width && Clamped(s)
  }

  /** Python list subscription: a negative index counts from the end, and an
      index outside [-|xs|, |xs|) raises IndexError (None). */
  function PyIndex<T>(xs: seq<T>, i: int): (r: Option<T>)
    ensures r.Some? <==> -|xs| <= i < |xs|
    ensures 0 <= i < |xs| ==> r == Some(xs[i])
    ensures -|xs| <= i < 0 ==> r == Some(xs[|xs| + i])
  {
    if 0 <= i < |xs| then Some(xs[i])
    else if -|xs| <= i < 0 then Some(xs[|xs| + i])
    else None
  }
}
