/** How much the ranges and the devices fix: with disjoint ranges each BAR has one place to go, and it is
    refused exactly if no eligible range has room for it between the BARs before it. */
module Replay {
  import opened Wrappers
  import opened DeviceTree
  import opened Pci
  import opened Blocks
  import opened FrameAllocator
  import opened Bars
  import opened Placement

  // ---------------------------------------------------------------- the pools are fixed

  lemma PoolFixed(p: PoolState, q: PoolState)
    requires Sound(p) && Sound(q) && Formed(p.free, p.spans) && Formed(q.free, q.spans) && |p.free| == |q.free|
    requires p.spans == q.spans && p.taken == q.taken && p.total == q.total
    requires forall x: nat :: Free(p.free, x) <==> Free(q.free, x)
    ensures p == q
  {
    FreeListsFixed(p.free, q.free, p.spans);
  }

  lemma PoolsEqual(v: Pools, w: Pools)
    requires forall kind :: v.Of(kind) == w.Of(kind)
    ensures v == w
  {
    assert v.Of(Low) == w.Of(Low) && v.Of(High) == w.Of(High) && v.Of(Prefetch) == w.Of(Prefetch);
  }

  lemma BegunFixed(v: Pools, w: Pools, ranges: seq<PciRange>)
    requires DisjointRanges(ranges) && Begun(v, ranges) && Begun(w, ranges) && Listed(v) && Listed(w)
    ensures v == w
  {
    forall kind ensures v.Of(kind) == w.Of(kind) {
      assert Filled(v.Of(kind), SpansFor(ranges, kind)) && Filled(w.Of(kind), SpansFor(ranges, kind));
      PoolFixed(v.Of(kind), w.Of(kind));
    }
    PoolsEqual(v, w);
  }

  /** The pool, the address and what is left do not depend on anything but the pools and the request. */
  lemma PlacedFixed(v: Pools, w: Pools, b: Bar, x: Pools, c: Bar)
    requires AllSound(v) && Listed(v) && Listed(w) && Listed(x) && Placed(v, w, b) && Placed(v, x, c)
             && b.request == c.request
    ensures b == c && w == x && AllSound(w)
  {
    assert b.kind == c.kind by {
      assert !TriedBefore(b.kind, c.kind) && !TriedBefore(c.kind, b.kind);
    }
    var p, k := v.Of(b.kind), ClassOf(b.request.order);
    BestIsOne(p.free, k, b.address, c.address);
    PoolFixed(w.Of(b.kind), x.Of(b.kind));
    forall kind ensures Sound(w.Of(kind)) {
      assert Sound(v.Of(kind));
    }
  }

  /** Two traces that serve the same requests are the same. */
  lemma {:induction false} TraceFixed(vs: seq<Pools>, bars: seq<Bar>, ws: seq<Pools>, cars: seq<Bar>,
                                      ranges: seq<PciRange>, n: nat)
    requires DisjointRanges(ranges) && Traced(vs, ranges, bars) && Traced(ws, ranges, cars)
    requires n <= |bars| && n <= |cars| && forall m :: 0 <= m < n ==> bars[m].request == cars[m].request
    ensures vs[n] == ws[n] && AllSound(vs[n]) && forall m :: 0 <= m < n ==> bars[m] == cars[m]
    decreases n
  {
    if n == 0 {
      BegunFixed(vs[0], ws[0], ranges);
    } else {
      TraceFixed(vs, bars, ws, cars, ranges, n - 1);
      assert Placed(vs[n - 1], vs[n - 1 + 1], bars[n - 1]) && Placed(ws[n - 1], ws[n - 1 + 1], cars[n - 1]);
      PlacedFixed(vs[n - 1], vs[n], bars[n - 1], ws[n], cars[n - 1]);
    }
  }

  // ---------------------------------------------------------------- the requests are fixed

  lemma LayoutFixed(size: nat, j: nat, k: nat)
    requires HasLayout(size, j) && HasLayout(size, k)
    ensures j == k
  {
    if j < k { Pow2Mono(j, k); }
    if k < j { Pow2Mono(k, j); }
  }

  lemma AsksFixed(q: Request, r: Request, d: nat, i: nat, info: Option<BarInfo>)
    requires Asks(q, d, i, info) && Asks(r, d, i, info)
    ensures q == r
  {
    LayoutFixed(info.value.size, q.order, r.order);
  }

  predicate At(b: Bar, d: nat, i: nat) { b.request.device == d && b.request.index == i }

  lemma BarIndex(bars: seq<Bar>, d: nat, i: nat) returns (m: nat)
    requires HasBar(bars, d, i)
    ensures m < |bars| && At(bars[m], d, i)
  {
    var b :| b in bars && b.request.device == d && b.request.index == i;
    m :| m < |bars| && bars[m] == b;
  }

  /** Position (g, j) is the first that `bars` has from place `n` on, or the next after all of them. */
  ghost predicate FirstFrom(bars: seq<Bar>, n: nat, g: nat, j: nat) {
    forall l :: n <= l < |bars| ==> !Earlier(bars[l].request.device, bars[l].request.index, g, j)
  }

  /** Runs that agree on the first `n` BARs agree on where the next one is. */
  lemma NoneBetween(bars: seq<Bar>, d: nat, i: nat, cars: seq<Bar>, devices: seq<Device>, e: nat, j: nat, n: nat,
                    m: nat)
    requires Programmed(bars, devices, d, i) && Programmed(cars, devices, e, j)
    requires n <= |bars| && n <= m < |cars| && forall l :: 0 <= l < n ==> bars[l].request == cars[l].request
    requires var q := cars[m].request;
             FirstFrom(bars, n, q.device, q.index) && !Earlier(d, i, q.device, q.index)
    ensures m == n
  {
    var q, r := cars[m].request, cars[n].request;
    assert cars[n] in cars;
    if Earlier(r.device, r.index, q.device, q.index) {
      var _ := BarIndex(bars, r.device, r.index);
    }
  }

  /** BAR `n` of a shorter run is BAR `n` of a longer one, if the ones before it are. */
  lemma NextRequest(bars: seq<Bar>, d: nat, i: nat, cars: seq<Bar>, e: nat, j: nat, devices: seq<Device>, n: nat)
    requires Programmed(bars, devices, d, i) && Programmed(cars, devices, e, j) && n < |bars| && n <= |cars|
    requires (d == e && i == j) || Earlier(d, i, e, j)
    requires forall m :: 0 <= m < n ==> bars[m].request == cars[m].request
    ensures n < |cars| && bars[n].request == cars[n].request
  {
    var q := bars[n].request;
    assert bars[n] in bars;
    var m := BarIndex(cars, q.device, q.index);
    assert m >= n;
    NoneBetween(bars, d, i, cars, devices, e, j, n, m);
    assert cars[n] in cars;
    AsksFixed(q, cars[n].request, q.device, q.index, devices[q.device][q.index]);
  }

  lemma {:induction false} SameRequests(bars: seq<Bar>, d: nat, i: nat, cars: seq<Bar>, e: nat, j: nat,
                                        devices: seq<Device>, n: nat)
    requires Programmed(bars, devices, d, i) && Programmed(cars, devices, e, j) && n <= |bars|
    requires (d == e && i == j) || Earlier(d, i, e, j)
    ensures n <= |cars| && forall m :: 0 <= m < n ==> bars[m].request == cars[m].request
    decreases n
  {
    if n > 0 {
      SameRequests(bars, d, i, cars, e, j, devices, n - 1);
      NextRequest(bars, d, i, cars, e, j, devices, n - 1);
    }
  }

  /** In a run that got past BAR (d, i), that BAR comes right after those before it. */
  lemma ComesNext(bars: seq<Bar>, d: nat, i: nat, cars: seq<Bar>, e: nat, j: nat, devices: seq<Device>)
    requires Programmed(bars, devices, d, i) && Programmed(cars, devices, e, j) && Earlier(d, i, e, j)
    requires d < |devices| && i < |devices[d]| && !Skipped(devices[d][i])
    requires |bars| <= |cars| && forall m :: 0 <= m < |bars| ==> bars[m].request == cars[m].request
    ensures |bars| < |cars| && Asks(cars[|bars|].request, d, i, devices[d][i])
  {
    assert forall l :: 0 <= l < |bars| ==> bars[l] in bars;
    var m := BarIndex(cars, d, i);
    NoneBetween(bars, d, i, cars, devices, e, j, |bars|, m);
    assert cars[m] in cars;
  }

  // ---------------------------------------------------------------- the outcome is fixed

  lemma TooHighServes(p: PoolState, k: nat)
    requires TooHigh(p, k)
    ensures Serves(p, k)
  {
    var a: nat :| BestAt(p.free, ClassOf(k), a) && a >= TWO_32;
    BestServes(p, k, a);
  }

  lemma ExcusedOnce(v: Pools, info: BarInfo, e: Fault, f: Fault)
    requires Excused(e, v, info) && Excused(f, v, info)
    ensures e == f
  {
    if e == Exhausted && f == NotU32 { OneExcuse(v, info); }
    if e == NotU32 && f == Exhausted { OneExcuse(v, info); }
  }

  lemma OneExcuse(v: Pools, info: BarInfo)
    requires Excused(Exhausted, v, info)
    ensures !Excused(NotU32, v, info)
  {
    var j: nat :| HasLayout(info.size, j) && NoneServes(v, j, info.width.Width64?, info.prefetch);
    if k: nat :| HasLayout(info.size, k) && OnlyTooHigh(v, k, info.width.Width64?, info.prefetch) {
      LayoutFixed(info.size, j, k);
      TooHighServes(v.Of(Low), k);
    }
  }

  /** A BAR that was placed had no excuse not to be. */
  lemma PlacedNotExcused(v: Pools, w: Pools, b: Bar, d: nat, i: nat, info: BarInfo, e: Fault)
    requires Placed(v, w, b) && Asks(b.request, d, i, Some(info))
    ensures !Excused(e, v, info)
  {
    var k := b.request.order;
    if Excused(e, v, info) && (e == Exhausted || e == NotU32) {
      var wide, prefetch := info.width.Width64?, info.prefetch;
      var j: nat :| && HasLayout(info.size, j)
                    && if e == Exhausted then NoneServes(v, j, wide, prefetch) else OnlyTooHigh(v, j, wide, prefetch);
      LayoutFixed(info.size, j, k);
      assert v.Of(Low) == v.low;
      if e == NotU32 && b.kind == Low { BestServes(v.low, k, b.address); }
    }
  }

  /** A run that gets past the BAR of a stopped one does not exist. */
  lemma NotPast(vs: seq<Pools>, bars: seq<Bar>, d: nat, i: nat, e: Fault,
                ws: seq<Pools>, cars: seq<Bar>, g: nat, j: nat, ranges: seq<PciRange>, devices: seq<Device>)
    requires DisjointRanges(ranges) && Stopped(vs, ranges, bars, devices, d, i, e)
    requires Traced(ws, ranges, cars) && Programmed(cars, devices, g, j)
    ensures !Earlier(d, i, g, j)
  {
    if Earlier(d, i, g, j) {
      var n := |bars|;
      SameRequests(bars, d, i, cars, g, j, devices, n);
      ComesNext(bars, d, i, cars, g, j, devices);
      TraceFixed(vs, bars, ws, cars, ranges, n);
      PlacedNotExcused(ws[n], ws[n + 1], cars[n], d, i, devices[d][i].value, e);
    }
  }

  /** Two stopped runs stop at the same BAR for the same reason. */
  lemma StoppedOnce(vs: seq<Pools>, bars: seq<Bar>, d: nat, i: nat, e: Fault,
                    ws: seq<Pools>, cars: seq<Bar>, g: nat, j: nat, f: Fault,
                    ranges: seq<PciRange>, devices: seq<Device>)
    requires DisjointRanges(ranges)
    requires Stopped(vs, ranges, bars, devices, d, i, e) && Stopped(ws, ranges, cars, devices, g, j, f)
    ensures d == g && i == j && e == f && bars == cars
  {
    NotPast(vs, bars, d, i, e, ws, cars, g, j, ranges, devices);
    NotPast(ws, cars, g, j, f, vs, bars, d, i, ranges, devices);
    SameRequests(bars, d, i, cars, g, j, devices, |bars|);
    SameRequests(cars, g, j, bars, d, i, devices, |cars|);
    TraceFixed(vs, bars, ws, cars, ranges, |bars|);
    ExcusedOnce(vs[|bars|], devices[d][i].value, e, f);
  }

  lemma StopsOnce(ranges: seq<PciRange>, devices: seq<Device>, e: Fault)
    requires OnBus(ranges) && RootStops(ranges, devices, e)
    ensures DisjointRanges(ranges) ==> forall f :: RootStops(ranges, devices, f) ==> f == e
  {
    var vs, bars, d, i :| Stopped(vs, ranges, bars, devices, d, i, e);
    forall f | DisjointRanges(ranges) && RootStops(ranges, devices, f) ensures f == e {
      var ws, cars, g, j :| Stopped(ws, ranges, cars, devices, g, j, f);
      StoppedOnce(vs, bars, d, i, e, ws, cars, g, j, f, ranges, devices);
    }
  }

  /** A root whose BARs were all placed has no reason to stop. */
  lemma NeverStops(ws: seq<Pools>, ranges: seq<PciRange>, cars: seq<Bar>, devices: seq<Device>)
    requires OnBus(ranges) && Traced(ws, ranges, cars) && Programmed(cars, devices, |devices|, 0)
    ensures DisjointRanges(ranges) ==> forall e :: !RootStops(ranges, devices, e)
  {
    forall e | DisjointRanges(ranges) ensures !RootStops(ranges, devices, e) {
      if RootStops(ranges, devices, e) {
        var vs, bars, d, i :| Stopped(vs, ranges, bars, devices, d, i, e);
        NotPast(vs, bars, d, i, e, ws, cars, |devices|, 0, ranges, devices);
      }
    }
  }

  // ---------------------------------------------------------------- when a BAR is refused

  /** `Pow2(c)` aligned bytes at `w`, in one range of the pool and clear of the BARs in it, within the
      limits of the allocator. */
  ghost predicate Room(ranges: seq<PciRange>, bars: seq<Bar>, kind: Kind, w: nat, c: nat) {
    && c < Lists(kind) && (w == 0 ==> c <= ZERO_ORDER) && Aligned(w, c) && InOneSpan(w, c, SpansFor(ranges, kind))
    && forall x: nat :: In(x, w, c) ==> !Covered(bars, kind, x)
  }

  ghost predicate SomeRoom(ranges: seq<PciRange>, bars: seq<Bar>, kind: Kind, c: nat) {
    exists w :: Room(ranges, bars, kind, w, c)
  }

  lemma RoomServes(v: Pools, ranges: seq<PciRange>, bars: seq<Bar>, kind: Kind, k: nat)
    requires Consistent(v, ranges, bars) && Listed(v) && DisjointRanges(ranges)
    ensures Serves(v.Of(kind), k) <==> SomeRoom(ranges, bars, kind, ClassOf(k))
  {
    var p, c := v.Of(kind), ClassOf(k);
    var spans := SpansFor(ranges, kind);
    assert Tracked(p, spans, bars, kind, true);
    ServesIfFits(p, k);
    if w: nat :| c < |p.free| && (w == 0 ==> c <= ZERO_ORDER) && Window(p.free, p.spans, w, c) {
      assert Room(ranges, bars, kind, w, c);
    }
    if w: nat :| Room(ranges, bars, kind, w, c) {
      RoomIsWindow(p, ranges, bars, kind, w, c);
    }
  }

  lemma RoomIsWindow(p: PoolState, ranges: seq<PciRange>, bars: seq<Bar>, kind: Kind, w: nat, c: nat)
    requires Tracked(p, SpansFor(ranges, kind), bars, kind, true) && Room(ranges, bars, kind, w, c)
    ensures Window(p.free, p.spans, w, c)
  {
    var s :| s in p.spans && InSpan(w, c, s);
    forall x: nat | In(x, w, c) ensures Free(p.free, x) {
      assert InSpans(p.spans, x);
    }
  }

  /** With disjoint ranges a BAR is refused for lack of space exactly if no eligible range has room for it
      between the BARs placed before. */
  lemma RefusedExactly(vs: seq<Pools>, ranges: seq<PciRange>, bars: seq<Bar>, k: nat, wide: bool, prefetch: bool)
    requires Traced(vs, ranges, bars) && DisjointRanges(ranges)
    ensures NoneServes(vs[|bars|], k, wide, prefetch) <==>
            forall kind :: Eligible(kind, wide, prefetch) ==> !SomeRoom(ranges, bars, kind, ClassOf(k))
  {
    TraceConsistent(vs, ranges, bars);
    forall kind ensures Serves(vs[|bars|].Of(kind), k) <==> SomeRoom(ranges, bars, kind, ClassOf(k)) {
      RoomServes(vs[|bars|], ranges, bars, kind, k);
    }
  }

  /** The first BAR of a root: the same, for any ranges. */
  lemma FirstRefusedExactly(vs: seq<Pools>, ranges: seq<PciRange>, k: nat, wide: bool, prefetch: bool)
    requires Traced(vs, ranges, [])
    ensures NoneServes(vs[0], k, wide, prefetch) <==>
            forall kind :: Eligible(kind, wide, prefetch) ==> !SomeRoom(ranges, [], kind, ClassOf(k))
  {
    var v := vs[0];
    assert v in vs;
    forall kind ensures Serves(v.Of(kind), k) <==> SomeRoom(ranges, [], kind, ClassOf(k)) {
      assert Filled(v.Of(kind), SpansFor(ranges, kind));
      RoomHeld(v.Of(kind), ranges, kind, k);
      HeldRoom(v.Of(kind), ranges, kind, k);
    }
  }

  lemma RoomHeld(p: PoolState, ranges: seq<PciRange>, kind: Kind, k: nat)
    requires Filled(p, SpansFor(ranges, kind)) && |p.free| == Lists(kind)
    ensures SomeRoom(ranges, [], kind, ClassOf(k)) ==> Serves(p, k)
  {
    var c := ClassOf(k);
    if w: nat :| Room(ranges, [], kind, w, c) {
      assert Held(p.free, w, c);
    }
  }

  lemma HeldRoom(p: PoolState, ranges: seq<PciRange>, kind: Kind, k: nat)
    requires Formed(p.free, SpansFor(ranges, kind)) && |p.free| == Lists(kind)
    ensures Serves(p, k) ==> SomeRoom(ranges, [], kind, ClassOf(k))
  {
    var c := ClassOf(k);
    if w :| Held(p.free, w, c) {
      var b: nat, l: nat :| Has(p.free, b, l) && c <= l && Within(w, c, b, l);
      BlockFits(p.free, SpansFor(ranges, kind), b, l, c);
      assert forall x: nat :: !Covered([], kind, x);
      assert Room(ranges, [], kind, b, c);
    }
  }
}
