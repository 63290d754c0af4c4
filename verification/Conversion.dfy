/** The conversion of a 32-bit BAR address to `u32` (src/pci.rs): when it fails, and that every address that
    passes it is of use. */
module Conversion {
  import opened Wrappers
  import opened DeviceTree
  import opened Paging
  import opened Pci
  import opened Blocks
  import opened FrameAllocator
  import opened Bars
  import opened Placement
  import opened Replay
  import opened Programming

  /** Every BAR from the 32-bit pool ends by 4 GiB, whatever the ranges: it starts below, at a multiple of
      its size. */
  lemma LowBarsFit(v: Pools, ranges: seq<PciRange>, bars: seq<Bar>, b: Bar)
    requires Consistent(v, ranges, bars) && b in bars && b.kind == Low
    ensures b.address + Pow2(b.request.order) <= TWO_32
  {
    LowBlockEnds(v, ranges, bars, b);
    Pow2Mono(b.request.order, Block(b));
  }

  lemma LowBlockEnds(v: Pools, ranges: seq<PciRange>, bars: seq<Bar>, b: Bar)
    requires Consistent(v, ranges, bars) && b in bars && b.kind == Low
    ensures b.address + Pow2(Block(b)) <= TWO_32 && InOneSpan(b.address, Block(b), SpansFor(ranges, Low))
  {
    assert Tracked(v.Of(Low), SpansFor(ranges, Low), bars, Low, DisjointRanges(ranges));
    LowBlockFits(b.address, Block(b));
  }

  lemma LowBlockFits(a: nat, c: nat)
    requires Aligned(a, c) && a < TWO_32 && (a == 0 ==> c <= ZERO_ORDER)
    ensures a + Pow2(c) <= TWO_32
  {
    LowOrder(a, c);
    LargeOrder();
    Pow2Aligned(c, 32);
    MultiplesApart(a, TWO_32, Pow2(c));
  }

  lemma LowOrder(a: nat, c: nat)
    requires Aligned(a, c) && a < TWO_32 && (a == 0 ==> c <= ZERO_ORDER)
    ensures c <= 32
  {
    if c > 32 {
      LargeOrder();
      FinerAligned(a, 32, c);
    }
  }

  // ---------------------------------------------------------------- when the conversion fails

  /** `Pow2(c)` aligned bytes at `w`, from 4 GiB on, in a 32-bit range. */
  predicate HighAt(g: PciRange, c: nat, w: nat) {
    TypeOf(g.flags).Memory32? && w >= TWO_32 && Aligned(w, c) && InSpan(w, c, SpanOf(g))
  }

  /** Some 32-bit range has room from 4 GiB on for the block that a request of order `k` gets. */
  ghost predicate HighRange(ranges: seq<PciRange>, k: nat) {
    ClassOf(k) < Lists(Low) && exists g, w :: g in ranges && HighAt(g, ClassOf(k), w)
  }

  /** Whatever was placed before, the conversion fails only with such a range. */
  lemma TooHighNeedsRange(p: PoolState, ranges: seq<PciRange>, k: nat)
    requires Formed(p.free, SpansFor(ranges, Low)) && |p.free| == Lists(Low) && OnBus(ranges) && TooHigh(p, k)
    ensures HighRange(ranges, k)
  {
    var c := ClassOf(k);
    var a: nat :| BestAt(p.free, c, a) && a >= TWO_32;
    var i: nat :| Best(p.free, c, i) && a == Lowest(p.free[i]);
    assert Has(p.free, a, i);
    BlockFits(p.free, SpansFor(ranges, Low), a, i, c);
    var s :| s in SpansFor(ranges, Low) && InSpan(a, c, s);
    var n := SpanIndex(ranges, Low, s);
    assert ranges[n] in ranges && HighAt(ranges[n], c, a);
  }

  lemma NoConversionPanic(v: Pools, ranges: seq<PciRange>, bars: seq<Bar>, info: BarInfo)
    requires Consistent(v, ranges, bars) && Listed(v) && OnBus(ranges)
    requires info.Memory? && forall k: nat :: HasLayout(info.size, k) ==> !HighRange(ranges, k)
    ensures !Excused(NotU32, v, info)
  {
    assert Tracked(v.Of(Low), SpansFor(ranges, Low), bars, Low, DisjointRanges(ranges));
    forall k: nat | HasLayout(info.size, k) ensures !TooHigh(v.low, k) {
      if TooHigh(v.low, k) { TooHighNeedsRange(v.Of(Low), ranges, k); }
    }
  }

  /** No BAR ever lies in that room, so it is still there when everything below is used up. */
  lemma HighRoomStays(vs: seq<Pools>, ranges: seq<PciRange>, bars: seq<Bar>, k: nat)
    requires Traced(vs, ranges, bars) && HighRange(ranges, k)
    ensures SomeRoom(ranges, bars, Low, ClassOf(k))
  {
    var c := ClassOf(k);
    var g, w :| g in ranges && HighAt(g, c, w);
    assert KindOf(g) == Some(Low) && SpanOf(g) in SpansFor(ranges, Low);
    TraceConsistent(vs, ranges, bars);
    forall x: nat | In(x, w, c) ensures !Covered(bars, Low, x) {
      forall b | b in bars && b.kind == Low ensures !Covers(b, x) {
        LowBlockEnds(vs[|bars|], ranges, bars, b);
      }
    }
    assert Room(ranges, bars, Low, w, c);
  }

  // ---------------------------------------------------------------- and that it does

  /** `n` BARs of the same size. */
  function Alike(n: nat, size: nat): Device { seq(n, _ => Some(Memory(Width32, false, size))) }

  /** They have been placed in order, without gaps. */
  lemma {:induction false} InOrder(bars: seq<Bar>, n: nat, size: nat, j: nat)
    requires size > 0 && Programmed(bars, [Alike(n, size)], 1, 0) && j <= n
    ensures j <= |bars| && forall l :: 0 <= l < j ==> At(bars[l], 0, l)
    decreases j
  {
    if j > 0 {
      InOrder(bars, n, size, j - 1);
      assert Earlier(0, j - 1, 1, 0) && !Skipped([Alike(n, size)][0][j - 1]);
      var m := BarIndex(bars, 0, j - 1);
      if j <= |bars| {
        var l := bars[j - 1].request.index;
        assert l < j - 1 ==> At(bars[l], 0, l);
      }
    }
  }

  lemma {:induction false} HandedLow(bars: seq<Bar>)
    requires forall b :: b in bars ==> b.kind == Low
    ensures Handed(bars, Low) >= |bars|
  {
    if bars != [] {
      assert bars[|bars| - 1] in bars;
      HandedLow(bars[..|bars| - 1]);
    }
  }

  /** More BARs than the 32-bit ranges have bytes cannot all be placed. */
  lemma TooMany(vs: seq<Pools>, ranges: seq<PciRange>, bars: seq<Bar>, n: nat, size: nat)
    requires Traced(vs, ranges, bars) && DisjointRanges(ranges) && size > 0 && n > SizeFor(ranges, Low)
    ensures !Programmed(bars, [Alike(n, size)], 1, 0)
  {
    if Programmed(bars, [Alike(n, size)], 1, 0) {
      InOrder(bars, n, size, n);
      TraceConsistent(vs, ranges, bars);
      var p := vs[|bars|].Of(Low);
      assert Tracked(p, SpansFor(ranges, Low), bars, Low, true) && p.total == SizeFor(ranges, Low);
      forall b | b in bars ensures b.kind == Low {
        NarrowIsLow(vs[|bars|], ranges, bars, b);
      }
      HandedLow(bars);
    }
  }

  lemma NarrowIsLow(v: Pools, ranges: seq<PciRange>, bars: seq<Bar>, b: Bar)
    requires Consistent(v, ranges, bars) && b in bars && !b.request.wide
    ensures b.kind == Low
  {
    assert Tracked(v.Of(b.kind), SpansFor(ranges, b.kind), bars, b.kind, DisjointRanges(ranges));
  }

  /** Why the next 32-bit BAR is refused once it is. */
  lemma NarrowStops(vs: seq<Pools>, ranges: seq<PciRange>, bars: seq<Bar>, k: nat, e: Fault)
    requires Traced(vs, ranges, bars) && DisjointRanges(ranges) && OnBus(ranges) && k <= MAX_LAYOUT
    requires Excused(e, vs[|bars|], Memory(Width32, false, Pow2(k)))
    ensures e == if HighRange(ranges, k) then NotU32 else Exhausted
  {
    assert HasLayout(Pow2(k), k);
    if HighRange(ranges, k) {
      HighRoomStays(vs, ranges, bars, k);
      RefusedExactly(vs, ranges, bars, k, false, false);
      NoOther(vs[|bars|], k, e);
    } else {
      TraceConsistent(vs, ranges, bars);
      forall j: nat | HasLayout(Pow2(k), j) ensures !HighRange(ranges, j) {
        LayoutFixed(Pow2(k), j, k);
      }
      assert vs[|bars|] in vs;
      NoConversionPanic(vs[|bars|], ranges, bars, Memory(Width32, false, Pow2(k)));
    }
  }

  lemma NoOther(v: Pools, k: nat, e: Fault)
    requires Excused(e, v, Memory(Width32, false, Pow2(k))) && k <= MAX_LAYOUT && !NoneServes(v, k, false, false)
    ensures e == NotU32
  {
    assert HasLayout(Pow2(k), k);
    if e == Exhausted {
      var j: nat :| HasLayout(Pow2(k), j) && NoneServes(v, j, false, false);
      LayoutFixed(Pow2(k), j, k);
    }
  }

  /** A device with enough 32-bit BARs of one size stops the kernel with a failed conversion exactly if there
      is such a range for that size, else with the pool exhausted. */
  method FillLow(ranges: seq<PciRange>, k: nat, n: nat) returns (r: Result<(), Fault>)
    requires DisjointRanges(ranges) && OnBus(ranges) && k <= MAX_LAYOUT && n > SizeFor(ranges, Low)
    requires forall g :: g in ranges && IsMemory(g) ==> g.cpu + g.size < TWO_64
    ensures r == Err(if HighRange(ranges, k) then NotU32 else Exhausted)
  {
    var devices := [Alike(n, Pow2(k))];
    var root, done, vs := InitPci(ranges, devices);
    if done.Ok? {
      TooMany(vs, ranges, root.bars, n, Pow2(k));
    } else {
      ghost var d: nat, i: nat :| Stopped(vs, ranges, root.bars, devices, d, i, done.error);
      assert devices[d][i] == Some(Memory(Width32, false, Pow2(k)));
      NarrowStops(vs, ranges, root.bars, k, done.error);
    }
    return done;
  }

  /** The smallest case: one BAR of sixteen bytes, and sixteen bytes from 4 GiB on. */
  method ConversionFails() returns (r: Result<(), Fault>)
    ensures r == Err(NotU32)
  {
    var g := PciRange(0x1_0000_0000, 0x1_0000_0000, 16, 0x0200_0000);
    assert TypeBits(0x0200_0000) == 2;
    var k := 4;
    assert Pow2(k) == 16 && HighAt(g, ClassOf(k), TWO_32) && HighRange([g], k);
    var root, done, vs := InitPci([g], [Alike(1, Pow2(k))]);
    if done.Ok? {
      InOrder(root.bars, 1, Pow2(k), 1);
      NoneBelow(vs, g, root.bars, root.bars[0]);
    } else {
      ghost var d: nat, i: nat :| Stopped(vs, [g], root.bars, [Alike(1, Pow2(k))], d, i, done.error);
      assert [Alike(1, Pow2(k))][d][i] == Some(Memory(Width32, false, Pow2(k)));
      NarrowStops(vs, [g], root.bars, k, done.error);
    }
    return done;
  }

  /** No 32-bit BAR can be placed in a range that starts at 4 GiB or above. */
  lemma NoneBelow(vs: seq<Pools>, g: PciRange, bars: seq<Bar>, b: Bar)
    requires Traced(vs, [g], bars) && g.cpu >= TWO_32 && b in bars
    ensures b.request.wide
  {
    TraceConsistent(vs, [g], bars);
    if !b.request.wide {
      NarrowIsLow(vs[|bars|], [g], bars, b);
      LowBlockEnds(vs[|bars|], [g], bars, b);
      var i := RangeIndex([g], b);
    }
  }
}
