/** Where the BARs of a root go: what each of them asks for, what was handed out before it, and when it
    cannot be placed (src/pci.rs). */
module Placement {
  import opened Wrappers
  import opened DeviceTree
  import opened Pci
  import opened Blocks
  import opened FrameAllocator
  import opened Bars

  datatype Width = Width32 | Width64 | Below1MiB

  /** What a BAR reports about itself. */
  datatype BarInfo = Memory(width: Width, prefetch: bool, size: nat) | Io

  /** The BARs of one device function; `None` is a BAR that is not there. */
  type Device = seq<Option<BarInfo>>

  /** A memory BAR of `Pow2(order)` bytes that wants an address. */
  datatype Request = Request(device: nat, index: nat, order: nat, wide: bool, prefetch: bool)

  /** A programmed BAR and the pool its address came from. */
  datatype Bar = Bar(request: Request, address: nat, kind: Kind)

  const MAX_LAYOUT: nat := 62

  function Block(b: Bar): nat { ClassOf(b.request.order) }

  // ---------------------------------------------------------------- the requests of a root

  /** BAR `info` does not want an address. */
  predicate Skipped(info: Option<BarInfo>) { info.None? || info.value.Io? || info.value.size == 0 }

  /** A layout of `size` bytes has order `k`: the size is its own alignment, a power of two, and at most
      2^62. */
  predicate HasLayout(size: nat, k: nat) { k <= MAX_LAYOUT && size == Pow2(k) }

  /** BAR `info` is one the kernel can place. */
  ghost predicate Sized(info: Option<BarInfo>) {
    Skipped(info) || (!info.value.width.Below1MiB? && exists k: nat :: HasLayout(info.value.size, k))
  }

  /** `q` asks for what BAR `info` reports. */
  predicate Asks(q: Request, device: nat, index: nat, info: Option<BarInfo>) {
    && !Skipped(info) && q.device == device && q.index == index && HasLayout(info.value.size, q.order)
    && q.wide == info.value.width.Width64? && q.prefetch == info.value.prefetch && !info.value.width.Below1MiB?
  }

  /** Position (d, i) comes before (e, j) when devices and their BARs are gone through in order. */
  predicate Earlier(d: nat, i: nat, e: nat, j: nat) { d < e || (d == e && i < j) }

  ghost predicate HasBar(bars: seq<Bar>, d: nat, i: nat) {
    exists b :: b in bars && b.request.device == d && b.request.index == i
  }

  /** The BARs before position (d, i) that want an address have one each, in order, and no others. */
  ghost predicate Programmed(bars: seq<Bar>, devices: seq<Device>, d: nat, i: nat) {
    && (forall b :: b in bars ==>
          && b.request.device < |devices| && b.request.index < |devices[b.request.device]|
          && Earlier(b.request.device, b.request.index, d, i)
          && Asks(b.request, b.request.device, b.request.index, devices[b.request.device][b.request.index]))
    && (forall m, n :: 0 <= m < n < |bars| ==>
          Earlier(bars[m].request.device, bars[m].request.index, bars[n].request.device, bars[n].request.index))
    && (forall e, j :: 0 <= e < |devices| && 0 <= j < |devices[e]| && Earlier(e, j, d, i) ==>
          Sized(devices[e][j]) && (Skipped(devices[e][j]) || HasBar(bars, e, j)))
  }

  // ---------------------------------------------------------------- what was handed out

  predicate Covers(b: Bar, x: nat) { In(x, b.address, Block(b)) }

  ghost predicate Covered(bars: seq<Bar>, kind: Kind, x: nat) {
    exists b :: b in bars && b.kind == kind && Covers(b, x)
  }

  /** The bytes handed out from a pool. */
  function Handed(bars: seq<Bar>, kind: Kind): nat {
    if bars == [] then 0
    else
      var b := bars[|bars| - 1];
      Handed(bars[..|bars| - 1], kind) + if b.kind == kind then Pow2(Block(b)) else 0
  }

  /** BAR `b` is aligned, lies in one span of its pool, and may use that pool. */
  ghost predicate WellPlaced(b: Bar, spans: set<Span>) {
    && Aligned(b.address, Block(b)) && InOneSpan(b.address, Block(b), spans)
    && Eligible(b.kind, b.request.wide, b.request.prefetch)
    && (b.kind == Low ==> b.address < TWO_32) && (b.address == 0 ==> Block(b) <= ZERO_ORDER)
  }

  /** A pool is what the BARs handed out of it left over; exactly so if the ranges are disjoint. */
  ghost predicate Tracked(p: PoolState, spans: set<Span>, bars: seq<Bar>, kind: Kind, disjoint: bool) {
    && p.spans == spans && p.taken == Handed(bars, kind) && Formed(p.free, spans)
    && (forall b :: b in bars && b.kind == kind ==> WellPlaced(b, spans))
    && (disjoint ==> Sound(p) && forall x: nat :: Free(p.free, x) <==> InSpans(spans, x) && !Covered(bars, kind, x))
  }

  predicate BarsApart(a: Bar, b: Bar) { Apart(a.address, Block(a), b.address, Block(b)) }

  lemma CoveredStep(bars: seq<Bar>, b: Bar, kind: Kind, x: nat)
    ensures Covered(bars + [b], kind, x) <==> Covered(bars, kind, x) || (b.kind == kind && Covers(b, x))
  {
    if Covered(bars, kind, x) {
      var c :| c in bars && c.kind == kind && Covers(c, x);
      assert c in bars + [b];
    }
    assert b in bars + [b];
  }

  lemma HandedStep(bars: seq<Bar>, b: Bar, kind: Kind)
    ensures Handed(bars + [b], kind) == Handed(bars, kind) + if b.kind == kind then Pow2(Block(b)) else 0
  {
    assert (bars + [b])[..|bars|] == bars;
  }

  /** The pool that served the request. */
  lemma ServedStep(p: PoolState, q: PoolState, spans: set<Span>, bars: seq<Bar>, b: Bar, disjoint: bool)
    requires Tracked(p, spans, bars, b.kind, disjoint) && Granted(p, q, b.request.order, b.address)
             && WellPlaced(b, spans)
    ensures Tracked(q, spans, bars + [b], b.kind, disjoint)
    ensures disjoint ==> forall c :: c in bars && c.kind == b.kind ==> BarsApart(c, b)
  {
    HandedStep(bars, b, b.kind);
    forall x: nat ensures Covered(bars + [b], b.kind, x) <==> Covered(bars, b.kind, x) || Covers(b, x) {
      CoveredStep(bars, b, b.kind, x);
    }
    forall c | disjoint && c in bars && c.kind == b.kind ensures BarsApart(c, b) {
      HeldIsFree(p.free, b.address, Block(b));
      var x := if c.address < b.address then b.address else c.address;
      assert Covers(c, x) ==> Covered(bars, b.kind, x);
      assert Covers(b, x) ==> Free(p.free, x);
    }
  }

  lemma HeldIsFree(f: FreeLists, w: nat, c: nat)
    requires Held(f, w, c)
    ensures forall x: nat :: In(x, w, c) ==> Free(f, x)
  {
    var b, k :| Has(f, b, k) && c <= k && Within(w, c, b, k);
    forall x: nat | In(x, w, c) ensures Free(f, x) {
      assert In(x, b, k);
    }
  }

  /** The other pools. */
  lemma OtherStep(p: PoolState, spans: set<Span>, bars: seq<Bar>, b: Bar, kind: Kind, disjoint: bool)
    requires Tracked(p, spans, bars, kind, disjoint) && b.kind != kind
    ensures Tracked(p, spans, bars + [b], kind, disjoint)
  {
    HandedStep(bars, b, kind);
    forall x: nat ensures Covered(bars + [b], kind, x) <==> Covered(bars, kind, x) {
      CoveredStep(bars, b, kind, x);
    }
  }

  ghost predicate AllTracked(v: Pools, ranges: seq<PciRange>, bars: seq<Bar>) {
    forall kind ::
      Tracked(v.Of(kind), SpansFor(ranges, kind), bars, kind, DisjointRanges(ranges))
        && v.Of(kind).total == SizeFor(ranges, kind)
  }

  lemma SpanIndex(ranges: seq<PciRange>, kind: Kind, s: Span) returns (i: nat)
    requires s in SpansFor(ranges, kind)
    ensures i < |ranges| && IsMemory(ranges[i]) && KindOf(ranges[i]) == Some(kind) && SpanOf(ranges[i]) == s
  {
    var g :| g in ranges && KindOf(g) == Some(kind) && SpanOf(g) == s;
    i :| i < |ranges| && ranges[i] == g;
  }

  /** The block of BAR `b` lies in range `g`, of the right kind. */
  predicate BlockIn(b: Bar, g: PciRange) {
    IsMemory(g) && KindOf(g) == Some(b.kind) && InSpan(b.address, Block(b), SpanOf(g))
  }

  lemma RangeIndex(ranges: seq<PciRange>, b: Bar) returns (i: nat)
    requires InOneSpan(b.address, Block(b), SpansFor(ranges, b.kind))
    ensures i < |ranges| && BlockIn(b, ranges[i])
  {
    var s :| s in SpansFor(ranges, b.kind) && InSpan(b.address, Block(b), s);
    i := SpanIndex(ranges, b.kind, s);
  }

  lemma TrackedSpans(v: Pools, ranges: seq<PciRange>, bars: seq<Bar>, kind: Kind)
    requires AllTracked(v, ranges, bars)
    ensures v.Of(kind).spans == SpansFor(ranges, kind)
  {
    assert Tracked(v.Of(kind), SpansFor(ranges, kind), bars, kind, DisjointRanges(ranges));
  }

  /** Blocks from pools of different kinds lie in different ranges. */
  lemma KindsApart(ranges: seq<PciRange>, a: Bar, i: nat, b: Bar, j: nat)
    requires DisjointRanges(ranges) && a.kind != b.kind
    requires i < |ranges| && j < |ranges| && BlockIn(a, ranges[i]) && BlockIn(b, ranges[j])
    ensures BarsApart(a, b)
  {
    assert i < j ==> RangesApart(ranges[i], ranges[j]);
    assert j < i ==> RangesApart(ranges[j], ranges[i]);
  }

  lemma OtherApart(v: Pools, ranges: seq<PciRange>, bars: seq<Bar>, b: Bar, c: Bar)
    requires AllTracked(v, ranges, bars) && DisjointRanges(ranges) && c in bars && c.kind != b.kind
    requires InOneSpan(b.address, Block(b), SpansFor(ranges, b.kind))
    ensures BarsApart(c, b)
  {
    assert Tracked(v.Of(c.kind), SpansFor(ranges, c.kind), bars, c.kind, DisjointRanges(ranges));
    var i := RangeIndex(ranges, c);
    var j := RangeIndex(ranges, b);
    KindsApart(ranges, c, i, b, j);
  }

  ghost predicate AllApart(bars: seq<Bar>) { forall i, j :: 0 <= i < j < |bars| ==> BarsApart(bars[i], bars[j]) }

  /** One more BAR: the pools are tracked on, and with disjoint ranges it meets no earlier one. */
  lemma GrantStep(v: Pools, w: Pools, ranges: seq<PciRange>, bars: seq<Bar>, b: Bar)
    requires AllTracked(v, ranges, bars) && w == v.Put(b.kind, w.Of(b.kind))
    requires Granted(v.Of(b.kind), w.Of(b.kind), b.request.order, b.address)
    requires Eligible(b.kind, b.request.wide, b.request.prefetch) && (b.kind == Low ==> b.address < TWO_32)
    ensures AllTracked(w, ranges, bars + [b])
    ensures DisjointRanges(ranges) && AllApart(bars) ==> AllApart(bars + [b])
  {
    var disjoint := DisjointRanges(ranges);
    assert Tracked(v.Of(b.kind), SpansFor(ranges, b.kind), bars, b.kind, disjoint);
    assert WellPlaced(b, SpansFor(ranges, b.kind));
    ServedStep(v.Of(b.kind), w.Of(b.kind), SpansFor(ranges, b.kind), bars, b, disjoint);
    forall kind ensures Tracked(w.Of(kind), SpansFor(ranges, kind), bars + [b], kind, disjoint) {
      assert Tracked(v.Of(kind), SpansFor(ranges, kind), bars, kind, disjoint);
      if kind != b.kind {
        OtherStep(v.Of(kind), SpansFor(ranges, kind), bars, b, kind, disjoint);
      }
    }
    forall c | disjoint && c in bars ensures BarsApart(c, b) {
      if c.kind != b.kind {
        OtherApart(v, ranges, bars, b, c);
      }
    }
  }

  /** What holds between two BARs: the pools are tracked, and no two BARs meet if no two ranges do. */
  ghost predicate Consistent(v: Pools, ranges: seq<PciRange>, bars: seq<Bar>) {
    AllTracked(v, ranges, bars) && (DisjointRanges(ranges) ==> AllApart(bars))
  }

  /** No pool that may serve the BAR can. */
  ghost predicate NoneServes(v: Pools, k: nat, wide: bool, prefetch: bool) {
    forall kind :: Eligible(kind, wide, prefetch) ==> !Serves(v.Of(kind), k)
  }

  /** The 32-bit pool would serve the BAR, from 4 GiB or above, and no other pool that may serve it can. */
  ghost predicate OnlyTooHigh(v: Pools, k: nat, wide: bool, prefetch: bool) {
    TooHigh(v.low, k) && forall kind :: kind != Low && Eligible(kind, wide, prefetch) ==> !Serves(v.Of(kind), k)
  }

  /** Why a BAR cannot be placed: its size has no layout, it wants an address below 1 MiB, no eligible pool
      can serve it, or the only one that can has no address below 4 GiB for it. */
  ghost predicate Excused(e: Fault, v: Pools, info: BarInfo) {
    && info.Memory?
    && match e
       case BadLayout => forall k: nat :: !HasLayout(info.size, k)
       case Unsupported => info.width.Below1MiB? && exists k: nat :: HasLayout(info.size, k)
       case Exhausted =>
         && !info.width.Below1MiB?
         && exists k: nat :: HasLayout(info.size, k) && NoneServes(v, k, info.width.Width64?, info.prefetch)
       case NotU32 =>
         && !info.width.Below1MiB?
         && exists k: nat :: HasLayout(info.size, k) && OnlyTooHigh(v, k, info.width.Width64?, info.prefetch)
       case _ => false
  }

  // ---------------------------------------------------------------- one BAR after the other

  /** The order in which `allocate64` tries the pools. */
  predicate TriedBefore(a: Kind, b: Kind) { (a == Prefetch && b != Prefetch) || (a == High && b == Low) }

  /** Pool `kind` may serve the request and can, and no such pool is tried before it. */
  ghost predicate FirstToServe(v: Pools, kind: Kind, q: Request) {
    && Eligible(kind, q.wide, q.prefetch) && Serves(v.Of(kind), q.order)
    && forall other :: TriedBefore(other, kind) && Eligible(other, q.wide, q.prefetch) ==> !Serves(v.Of(other), q.order)
  }

  /** BAR `b` is placed: pools `v` become pools `w`. */
  ghost predicate Placed(v: Pools, w: Pools, b: Bar) {
    && FirstToServe(v, b.kind, b.request) && Granted(v.Of(b.kind), w.Of(b.kind), b.request.order, b.address)
    && w == v.Put(b.kind, w.Of(b.kind)) && (b.kind == Low ==> b.address < TWO_32)
  }

  function Lists(kind: Kind): nat { if kind == Low then 32 else 64 }

  ghost predicate Listed(v: Pools) { forall kind :: |v.Of(kind).free| == Lists(kind) }

  ghost predicate Begun(v: Pools, ranges: seq<PciRange>) {
    Fresh(v, ranges) && (DisjointRanges(ranges) ==> AllSound(v))
  }

  /** The pools before, between and after the BARs, each placed in what the earlier ones have left. */
  ghost predicate Traced(vs: seq<Pools>, ranges: seq<PciRange>, bars: seq<Bar>) {
    && |vs| == |bars| + 1 && Begun(vs[0], ranges)
    && (forall v :: v in vs ==> Listed(v))
    && forall n :: 0 <= n < |bars| ==> Placed(vs[n], vs[n + 1], bars[n])
  }

  lemma TraceStep(vs: seq<Pools>, ranges: seq<PciRange>, bars: seq<Bar>, w: Pools, b: Bar)
    requires Traced(vs, ranges, bars) && Listed(w) && Placed(vs[|bars|], w, b)
    ensures Traced(vs + [w], ranges, bars + [b])
  {
  }

  lemma TracePrefix(vs: seq<Pools>, ranges: seq<PciRange>, bars: seq<Bar>, n: nat)
    requires Traced(vs, ranges, bars) && n <= |bars|
    ensures Traced(vs[..n + 1], ranges, bars[..n])
  {
    forall v | v in vs[..n + 1] ensures Listed(v) {
      assert v in vs;
    }
  }

  lemma StartTracked(v: Pools, ranges: seq<PciRange>)
    requires Fresh(v, ranges) && (DisjointRanges(ranges) ==> AllSound(v))
    ensures Consistent(v, ranges, [])
  {
    forall kind ensures Tracked(v.Of(kind), SpansFor(ranges, kind), [], kind, DisjointRanges(ranges)) {
      assert Filled(v.Of(kind), SpansFor(ranges, kind));
      assert forall x: nat :: !Covered([], kind, x);
    }
  }

  /** Whatever the BARs were, they account for the pools. */
  lemma {:induction false} TraceConsistent(vs: seq<Pools>, ranges: seq<PciRange>, bars: seq<Bar>)
    requires Traced(vs, ranges, bars)
    ensures Consistent(vs[|bars|], ranges, bars)
    decreases |bars|
  {
    var n := |bars|;
    if n == 0 {
      StartTracked(vs[0], ranges);
      assert bars == [];
    } else {
      TracePrefix(vs, ranges, bars, n - 1);
      TraceConsistent(vs[..n], ranges, bars[..n - 1]);
      GrantStep(vs[n - 1], vs[n], ranges, bars[..n - 1], bars[n - 1]);
      assert bars == bars[..n - 1] + [bars[n - 1]];
    }
  }

  /** BAR `i` of device `d` is the one that stops the kernel, after the BARs before it were placed. */
  ghost predicate Stopped(vs: seq<Pools>, ranges: seq<PciRange>, bars: seq<Bar>, devices: seq<Device>, d: nat, i: nat,
                          e: Fault)
  {
    && Traced(vs, ranges, bars) && Programmed(bars, devices, d, i)
    && d < |devices| && i < |devices[d]| && !Skipped(devices[d][i]) && Excused(e, vs[|bars|], devices[d][i].value)
  }

  /** Why `init_pci` stops on a root: a range is not at its bus address, or there is such a BAR. */
  ghost predicate RootStops(ranges: seq<PciRange>, devices: seq<Device>, e: Fault) {
    if OnBus(ranges) then exists vs, bars, d, i :: Stopped(vs, ranges, bars, devices, d, i, e)
    else e == NotIdentity
  }
}
