/** The scan-statistics aggregation model (cavenscan_model.py): a ring of the
    most recent sweep records, one slot per displayed line, a circular cursor
    over it, and running totals over every sweep since the last reset. */
module Model {
  import opened Stats

  // ---------------------------------------------------------------------
  // Specification functions over the sequence of sweeps since a reset
  // ---------------------------------------------------------------------

  /** Sum of the sample counts of the sweeps in h. */
  function ScansTotal(h: seq<Stats>): int
  {
    if h == [] then 0 else ScansTotal(h[..|h| - 1]) + h[|h| - 1].scansCount
  }

  /** Sum over the sweeps in h of the detection count at channel index i. */
  function ChannelTotal(h: seq<Stats>, i: int): int
  {
    if h == [] then 0 else ChannelTotal(h[..|h| - 1], i) + At(h[|h| - 1], i)
  }

  /** The record ring slot k holds after the sweeps h: sweep number n (from 0)
      is written to slot n % linesCount, so the slot holds the latest sweep
      whose number is congruent to k, or the empty record if there is none. */
  function Slot(h: seq<Stats>, linesCount: nat, k: int): Stats
    requires linesCount > 0
  {
    if h == [] then EMPTY
    else if (|h| - 1) % linesCount == k then h[|h| - 1]
    else Slot(h[..|h| - 1], linesCount, k)
  }

  /** The cursor position after the sweeps h: -1 before the first sweep. */
  function LineAfter(h: seq<Stats>, linesCount: nat): int
    requires linesCount > 0 || h == []
  {
    if h == [] then -1 else (|h| - 1) % linesCount
  }

  // ---------------------------------------------------------------------
  // Arithmetic helpers for the circular cursor
  // ---------------------------------------------------------------------

  lemma {:induction false} MulAtLeast(d: int, n: int)
    requires d >= 1 && n > 0
    ensures d * n >= n
  {
    if d > 1 {
      MulAtLeast(d - 1, n);
    }
  }

  /** The remainder is determined by any quotient-remainder decomposition. */
  lemma ModUnique(x: int, n: int, q: int, r: int)
    requires n > 0 && 0 <= r < n && x == q * n + r
    ensures x % n == r
  {
    var q0, r0 := x / n, x % n;
    assert x == q0 * n + r0;
    if q > q0 {
      MulAtLeast(q - q0, n);
    } else if q < q0 {
      MulAtLeast(q0 - q, n);
    }
  }

  lemma ModSucc(x: nat, n: nat)
    requires n > 0
    ensures (x % n + 1) % n == (x + 1) % n
  {
    var q, r := x / n, x % n;
    assert x == q * n + r;
    if r + 1 < n {
      ModUnique(x + 1, n, q, r + 1);
      ModUnique(r + 1, n, 0, r + 1);
    } else {
      ModUnique(x + 1, n, q + 1, 0);
      ModUnique(n, n, 1, 0);
    }
  }

  /** A Python subscript in [-n, n) picks the same element as the index modulo n. */
  lemma SubscriptIsMod(i: int, n: int)
    requires n > 0
    ensures 0 <= i < n ==> i % n == i
    ensures -n <= i < 0 ==> i % n == n + i
  {
    if 0 <= i < n {
      ModUnique(i, n, 0, i);
    } else if -n <= i < 0 {
      ModUnique(i, n, -1, n + i);
    }
  }

  /** Advancing the cursor after the sweeps h points at slot |h| % linesCount. */
  lemma LineAfterSucc(h: seq<Stats>, linesCount: nat)
    requires linesCount > 0
    ensures (LineAfter(h, linesCount) + 1) % linesCount == |h| % linesCount
  {
    if h != [] {
      ModSucc(|h| - 1, linesCount);
    }
  }

  /** Two sweep numbers less than a full turn apart land in different slots. */
  lemma ModDistinct(a: nat, b: nat, n: nat)
    requires n > 0 && a < b < a + n
    ensures a % n != b % n
  {
    var qa, qb := a / n, b / n;
    assert a == qa * n + a % n;
    assert b == qb * n + b % n;
    if a % n == b % n {
      assert b - a == (qb - qa) * n;
      if qb - qa >= 1 {
        MulAtLeast(qb - qa, n);
      } else if qb - qa < 0 {
        MulAtLeast(qa - qb, n);
      }
    }
  }

  // ---------------------------------------------------------------------
  // Properties of the totals
  // ---------------------------------------------------------------------

  /** Totals over two runs of sweeps add up. */
  lemma {:induction false} TotalsAppend(h1: seq<Stats>, h2: seq<Stats>, i: int)
    ensures ScansTotal(h1 + h2) == ScansTotal(h1) + ScansTotal(h2)
    ensures ChannelTotal(h1 + h2, i) == ChannelTotal(h1, i) + ChannelTotal(h2, i)
  {
    if h2 == [] {
      assert h1 + h2 == h1;
    } else {
      var h := h1 + h2;
      assert h[..|h| - 1] == h1 + h2[..|h2| - 1];
      TotalsAppend(h1, h2[..|h2| - 1], i);
    }
  }

  /** Removing the element at j takes exactly that element out of the multiset. */
  lemma MultisetRemoveAt(h: seq<Stats>, j: nat)
    requires j < |h|
    ensures multiset(h[..j] + h[j + 1..]) == multiset(h) - multiset{h[j]}
  {
    assert h == h[..j] + [h[j]] + h[j + 1..];
  }

  /** Removing the sweep at j takes its counts out of the totals. */
  lemma TotalsRemoveAt(h: seq<Stats>, j: nat, i: int)
    requires j < |h|
    ensures ScansTotal(h) == ScansTotal(h[..j] + h[j + 1..]) + h[j].scansCount
    ensures ChannelTotal(h, i) == ChannelTotal(h[..j] + h[j + 1..], i) + At(h[j], i)
  {
    assert h == h[..j] + [h[j]] + h[j + 1..];
    TotalsAppend(h[..j] + [h[j]], h[j + 1..], i);
    TotalsAppend(h[..j], [h[j]], i);
    TotalsAppend(h[..j], h[j + 1..], i);
    assert [h[j]][..0] == [];
  }

  /** The totals do not depend on the order of the sweeps: any reordering of
      the same sweeps gives the same sample total and channel totals. */
  lemma {:induction false} TotalsOrderIndependent(h1: seq<Stats>, h2: seq<Stats>, i: int)
    requires multiset(h1) == multiset(h2)
    ensures ScansTotal(h1) == ScansTotal(h2)
    ensures ChannelTotal(h1, i) == ChannelTotal(h2, i)
  {
    if h1 == [] {
      assert |h2| == |multiset(h2)| == 0;
    } else {
      var n := |h1| - 1;
      var x := h1[n];
      assert x in multiset(h2);
      var j :| 0 <= j < |h2| && h2[j] == x;
      MultisetRemoveAt(h1, n);
      MultisetRemoveAt(h2, j);
      assert h1[..n] + h1[n + 1..] == h1[..n];
      TotalsOrderIndependent(h1[..n], h2[..j] + h2[j + 1..], i);
      TotalsRemoveAt(h2, j, i);
    }
  }

  /** When every sweep is clamped, each channel total lies between 0 and the
      sample total, so the totals row is a detection ratio of at most 100%. */
  lemma {:induction false} TotalsWithinScans(h: seq<Stats>, i: int)
    requires forall j :: 0 <= j < |h| ==> Clamped(h[j])
    ensures 0 <= ChannelTotal(h, i) <= ScansTotal(h)
  {
    if h != [] {
      assert Clamped(h[|h| - 1]);
      TotalsWithinScans(h[..|h| - 1], i);
    }
  }

  /** Two sweeps of 85 and 92 samples with 3 and 5 detections on a single
      channel give totals of 177 samples and 8 detections. */
  lemma TwoSweepTotals()
    ensures ScansTotal([Stats(85, [3]), Stats(92, [5])]) == 177
    ensures ChannelTotal([Stats(85, [3]), Stats(92, [5])], 0) == 8
  {
  }

  // ---------------------------------------------------------------------
  // Properties of ring placement
  // ---------------------------------------------------------------------

  /** Slot k holds sweep j when j is congruent to k and among the last
      linesCount sweeps: the ring overwrites circularly. */
  lemma {:induction false} SlotHoldsLatest(h: seq<Stats>, linesCount: nat, k: int, j: nat)
    requires linesCount > 0
    requires j < |h| && j % linesCount == k && |h| - linesCount <= j
    ensures Slot(h, linesCount, k) == h[j]
  {
    if j < |h| - 1 {
      ModDistinct(j, |h| - 1, linesCount);
      SlotHoldsLatest(h[..|h| - 1], linesCount, k, j);
    }
  }

  /** Until the cursor first reaches slot k, the slot keeps its reset record. */
  lemma {:induction false} SlotEmptyBeforeFirstWrite(h: seq<Stats>, linesCount: nat, k: int)
    requires linesCount > 0
    requires |h| <= k < linesCount
    ensures Slot(h, linesCount, k) == EMPTY
  {
    if h != [] {
      assert (|h| - 1) % linesCount == |h| - 1;
      SlotEmptyBeforeFirstWrite(h[..|h| - 1], linesCount, k);
    }
  }

  // ---------------------------------------------------------------------
  // The model object
  // ---------------------------------------------------------------------

  class CavenscanModel {
    const fromChannel: int
    const toChannel: int
    const linesCount: nat
    var channelsCount: int
    /** The index of the most recently written line, -1 before the first sweep. */
    var currentLine: int
    /** One record per displayed line. */
    var ring: array<Stats>
    /** The running totals record, mutated in place by Scan. */
    var totalScans: int
    var totals: array<int>
    /** The sweeps folded in since the last reset, oldest first. */
    ghost var history: seq<Stats>

    ghost predicate Valid()
      reads this, ring, totals
    {
      && channelsCount == toChannel - fromChannel + 1
      && ring.Length == linesCount
      && totals.Length == Width(fromChannel, toChannel)
      && (linesCount == 0 ==> history == [])
      && currentLine == LineAfter(history, linesCount)
      && (forall j :: 0 <= j < |history| ==> |history[j].stats| <= totals.Length)
      && (forall k :: 0 <= k < ring.Length ==> ring[k] == Slot(history, linesCount, k))
      && totalScans == ScansTotal(history)
      && (forall i :: 0 <= i < totals.Length ==> totals[i] == ChannelTotal(history, i))
    }

    constructor (fromChannel: int := 0, toChannel: int := 127, linesCount: nat := 5)
      ensures Valid() && fresh(ring) && fresh(totals)
      ensures this.fromChannel == fromChannel && this.toChannel == toChannel
      ensures this.linesCount == linesCount
      ensures currentLine == -1 && history == []
      ensures totalScans == 0 && forall i :: 0 <= i < totals.Length ==> totals[i] == 0
      ensures forall k :: 0 <= k < ring.Length ==> ring[k] == EMPTY
    {
      this.fromChannel := fromChannel;
      this.toChannel := toChannel;
      this.linesCount := linesCount;
      new;
      Reset();
    }

    /** Back to the empty state: no sweep yet, zero totals, empty slots. */
    method Reset()
      modifies this
      ensures Valid() && fresh(ring) && fresh(totals)
      ensures currentLine == -1 && history == []
      ensures channelsCount == toChannel - fromChannel + 1
      ensures totals.Length == Width(fromChannel, toChannel) && ring.Length == linesCount
      ensures totalScans == 0 && forall i :: 0 <= i < totals.Length ==> totals[i] == 0
      ensures forall k :: 0 <= k < ring.Length ==> ring[k] == EMPTY
    {
      currentLine := -1;
      channelsCount := toChannel - fromChannel + 1;
      totalScans := 0;
      totals := new int[Width(fromChannel, toChannel)](_ => 0);
      ring := new Stats[linesCount](_ => EMPTY);
      history := [];
    }

    method ClearStats()
      modifies this
      ensures Valid() && fresh(ring) && fresh(totals)
      ensures currentLine == -1 && history == []
      ensures channelsCount == toChannel - fromChannel + 1
      ensures totals.Length == Width(fromChannel, toChannel) && ring.Length == linesCount
      ensures totalScans == 0 && forall i :: 0 <= i < totals.Length ==> totals[i] == 0
      ensures forall k :: 0 <= k < ring.Length ==> ring[k] == EMPTY
    {
      Reset();
    }

    /** The slot the next sweep is written to. */
    function NextLine(): (r: int)
      reads this, ring, totals
      requires Valid() && linesCount > 0
      ensures 0 <= r < linesCount
      ensures r == |history| % linesCount
    {
      LineAfterSucc(history, linesCount);
      (currentLine + 1) % linesCount
    }

    function CurrLine(): (r: int)
      reads this, ring, totals
      requires Valid()
      ensures r == -1 <==> history == []
      ensures history != [] ==> 0 <= r < linesCount && r == (|history| - 1) % linesCount
    {
      currentLine
    }

    function ChannelsCount(): (r: int)
      reads this, ring, totals
      requires Valid()
      ensures r == toChannel - fromChannel + 1
      ensures r > 0 ==> r == totals.Length
    {
      channelsCount
    }

    /** The record of a displayed line; a negative index counts from the end
        as Python list subscription does. */
    function GetStats(lineNumber: int): (r: Option<Stats>)
      reads this, ring, totals
      requires Valid()
      ensures r.Some? <==> -(linesCount as int) <= lineNumber < linesCount
      ensures r.Some? ==> linesCount > 0 && r.value == Slot(history, linesCount, lineNumber % linesCount)
    {
      if linesCount > 0 then
        SubscriptIsMod(lineNumber, linesCount);
        PyIndex(ring[..], lineNumber)
      else
        PyIndex(ring[..], lineNumber)
    }

    /** A snapshot of the running totals. */
    function GetTotalStats(): (r: Stats)
      reads this, ring, totals
      requires Valid()
      ensures r.scansCount == ScansTotal(history)
      ensures |r.stats| == Width(fromChannel, toChannel)
      ensures forall i :: 0 <= i < |r.stats| ==> r.stats[i] == ChannelTotal(history, i)
    {
      Stats(totalScans, totals[..])
    }

    /** Fold one sweep record, as obtained from the scanner, into the model:
        advance the cursor, store the record in that slot, add it to the
        totals. The record may be shorter than the channel range (only its
        entries are added); a longer one would make the source fail. */
    method Scan(rec: Stats) returns (r: Stats)
      requires Valid() && linesCount > 0
      requires |rec.stats| <= totals.Length
      modifies this, ring, totals
      ensures Valid()
      ensures ring == old(ring) && totals == old(totals)
      ensures channelsCount == old(channelsCount)
      ensures currentLine == old(NextLine())
      ensures ring[currentLine] == rec
      ensures forall k :: 0 <= k < ring.Length && k != currentLine ==> ring[k] == old(ring[k])
      ensures totalScans == old(totalScans) + rec.scansCount
      ensures forall i :: 0 <= i < totals.Length ==> totals[i] == old(totals[i]) + At(rec, i)
      ensures history == old(history) + [rec]
      ensures r == rec
    {
      var line := NextLine();
      currentLine := line;
      ring[line] := rec;
      totalScans := totalScans + rec.scansCount;
      var t, i := totals, 0;
      while i < |rec.stats|
        modifies t
        invariant 0 <= i <= |rec.stats|
        invariant forall j :: 0 <= j < i ==> t[j] == old(t[j]) + rec.stats[j]
        invariant forall j :: i <= j < t.Length ==> t[j] == old(t[j])
      {
        t[i] := t[i] + rec.stats[i];
        i := i + 1;
      }
      ghost var h := old(history);
      history := h + [rec];
      assert history[..|history| - 1] == h;
      r := rec;
    }
  }

  /** Two sweeps on a single-channel model: the cursor is on the second line
      and the totals are the element-wise sums. */
  method TwoSweepScenario()
  {
    var m := new CavenscanModel(0, 0, 5);
    var s1 := m.Scan(Stats(85, [3]));
    var s2 := m.Scan(Stats(92, [5]));
    TwoSweepTotals();
    assert m.CurrLine() == 1;
    assert m.GetTotalStats() == Stats(177, [8]);
    assert m.GetStats(0) == Some(s1) && m.GetStats(1) == Some(s2);
    assert m.GetStats(5) == None && m.GetStats(-4) == Some(s2);
  }
}
