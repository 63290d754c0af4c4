/** Handing out BARs from the kept ranges: three pools, a two-stage fallback, every device of a root
    (src/pci.rs). */
module Bars {
  import opened Wrappers
  import opened DeviceTree
  import opened Paging
  import opened Pci
  import opened Blocks
  import opened FrameAllocator

  /** The pools `memory32`, `memory64` and `prefetchable_memory64`. */
  datatype Kind = Low | High | Prefetch

  /** The pool a range goes to; a 64-bit range that ends below `U32_MAX` counts as a 32-bit one. */
  function KindOf(g: PciRange): Option<Kind> {
    match TypeOf(g.flags)
    case Memory32 => Some(Low)
    case Memory64 => Some(if g.bus + g.size < U32_MAX then Low else if Prefetchable(g.flags) then Prefetch else High)
    case _ => None
  }

  function SpanOf(g: PciRange): Span { Span(g.cpu, g.cpu + g.size) }

  ghost function SpansFor(ranges: seq<PciRange>, kind: Kind): set<Span> {
    set g | g in ranges && KindOf(g) == Some(kind) :: SpanOf(g)
  }

  /** The size of all ranges that go to a pool. */
  function SizeFor(ranges: seq<PciRange>, kind: Kind): nat {
    if ranges == [] then 0
    else
      var g := ranges[|ranges| - 1];
      SizeFor(ranges[..|ranges| - 1], kind) + if KindOf(g) == Some(kind) then g.size else 0
  }

  predicate RangesApart(a: PciRange, b: PciRange) {
    a.cpu + a.size <= b.cpu || b.cpu + b.size <= a.cpu || a.size == 0 || b.size == 0
  }

  predicate DisjointRanges(ranges: seq<PciRange>) {
    forall i, j :: 0 <= i < j < |ranges| && IsMemory(ranges[i]) && IsMemory(ranges[j]) ==>
      RangesApart(ranges[i], ranges[j])
  }

  ghost predicate InSpans(spans: set<Span>, x: nat) { exists s :: s in spans && s.lo <= x < s.hi }

  lemma SpansStep(ranges: seq<PciRange>, i: nat, kind: Kind)
    requires i < |ranges|
    ensures SpansFor(ranges[..i + 1], kind) ==
            SpansFor(ranges[..i], kind) + if KindOf(ranges[i]) == Some(kind) then {SpanOf(ranges[i])} else {}
    ensures SizeFor(ranges[..i + 1], kind) ==
            SizeFor(ranges[..i], kind) + if KindOf(ranges[i]) == Some(kind) then ranges[i].size else 0
  {
    assert ranges[..i + 1] == ranges[..i] + [ranges[i]];
    assert ranges[..i + 1][..i] == ranges[..i];
  }

  lemma SpanIsNew(ranges: seq<PciRange>, i: nat, kind: Kind)
    requires i < |ranges| && DisjointRanges(ranges) && IsMemory(ranges[i])
    ensures NewSpan(SpanOf(ranges[i]), SpansFor(ranges[..i], kind))
  {
    forall r | r in SpansFor(ranges[..i], kind)
      ensures var s := SpanOf(ranges[i]); s.hi <= r.lo || r.hi <= s.lo || s.lo == s.hi || r.lo == r.hi
    {
      var g :| g in ranges[..i] && KindOf(g) == Some(kind) && SpanOf(g) == r;
      var j :| 0 <= j < i && ranges[j] == g;
      assert RangesApart(ranges[j], ranges[i]);
    }
  }

  lemma InSpansStep(spans: set<Span>, s: Span, x: nat)
    ensures InSpans(spans + {s}, x) <==> InSpans(spans, x) || s.lo <= x < s.hi
  {
    if InSpans(spans, x) {
      var r :| r in spans && r.lo <= x < r.hi;
      assert r in spans + {s};
    }
    assert s in spans + {s};
  }

  /** Which pools may serve a BAR, by its width and whether it is prefetchable. */
  predicate Eligible(kind: Kind, wide: bool, prefetch: bool) {
    match kind case Low => true case High => wide case Prefetch => wide && prefetch
  }

  /** The block that the pool would hand out for a request of order `k` does not start below 4 GiB. */
  ghost predicate TooHigh(p: PoolState, k: nat) { exists a: nat :: BestAt(p.free, ClassOf(k), a) && a >= TWO_32 }

  lemma BestServes(p: PoolState, k: nat, a: nat)
    requires BestAt(p.free, ClassOf(k), a)
    ensures Serves(p, k) && (TooHigh(p, k) <==> a >= TWO_32)
  {
    var c := ClassOf(k);
    var i: nat :| Best(p.free, c, i) && a == Lowest(p.free[i]);
    Pow2Mono(c, i);
    assert Has(p.free, a, i) && Within(a, c, a, i);
    assert Held(p.free, a, c);
    if b: nat :| BestAt(p.free, c, b) && b >= TWO_32 {
      BestIsOne(p.free, c, a, b);
    }
  }

  lemma NoneTooHigh(p: PoolState, k: nat)
    requires !Serves(p, k)
    ensures !TooHigh(p, k)
  {
    if a: nat :| BestAt(p.free, ClassOf(k), a) {
      BestServes(p, k, a);
    }
  }

  /** An address and the pool it came from. */
  datatype Grant = Grant(address: nat, kind: Kind)

  /** The contents of the three pools. */
  datatype Pools = Pools(low: PoolState, high: PoolState, prefetch: PoolState) {
    function Of(kind: Kind): PoolState {
      match kind case Low => low case High => high case Prefetch => prefetch
    }

    function Put(kind: Kind, p: PoolState): Pools {
      match kind case Low => this.(low := p) case High => this.(high := p) case Prefetch => this.(prefetch := p)
    }
  }

  class BarAllocator {
    const memory32: Pool
    const memory64: Pool
    const prefetchable: Pool

    ghost predicate Valid()
      reads memory32, memory64, prefetchable
    {
      && memory32 != memory64 && memory32 != prefetchable && memory64 != prefetchable
      && memory32.order == 32 && memory64.order == 64 && prefetchable.order == 64
      && memory32.Valid() && memory64.Valid() && prefetchable.Valid()
    }

    ghost function View(): Pools
      reads memory32, memory64, prefetchable
    {
      Pools(memory32.State(), memory64.State(), prefetchable.State())
    }

    constructor ()
      ensures Valid() && fresh(memory32) && fresh(memory64) && fresh(prefetchable)
      ensures forall kind :: Empty(View().Of(kind))
    {
      memory32 := new Pool(32);
      memory64 := new Pool(64);
      prefetchable := new Pool(64);
    }

    function PoolFor(kind: Kind): Pool {
      match kind case Low => memory32 case High => memory64 case Prefetch => prefetchable
    }

    method Add(kind: Kind, g: PciRange)
      requires Valid()
      modifies memory32, memory64, prefetchable
      ensures Valid()
      ensures View() == old(View()).Put(kind, View().Of(kind))
      ensures Added(old(View()).Of(kind), View().Of(kind), SpanOf(g))
    {
      PoolFor(kind).AddFrame(g.cpu, g.cpu + g.size);
    }

    /** `allocate32`. */
    method Allocate32(k: nat) returns (r: Result<Grant, Fault>)
      requires Valid()
      modifies memory32
      ensures Valid()
      ensures r == Err(Exhausted) <==> !Serves(old(View()).low, k)
      ensures r == Err(NotU32) <==> TooHigh(old(View()).low, k)
      ensures r.Err? ==> r.error == Exhausted || r.error == NotU32
      ensures r.Ok? ==> r.value.kind == Low && r.value.address < TWO_32
      ensures r.Ok? ==>
                Granted(old(View()).low, View().low, k, r.value.address) && View() == old(View()).Put(Low, View().low)
    {
      ghost var low := View().low;
      var a := memory32.AllocAligned(k);
      if a.None? {
        NoneTooHigh(low, k);
        return Err(Exhausted);
      }
      BestServes(low, k, a.value);
      if a.value >= TWO_32 {
        return Err(NotU32);
      }
      return Ok(Grant(a.value, Low));
    }

    /** `allocate64`: the prefetchable pool first if it may be used, then the 64-bit pool, then the
        32-bit one. */
    method Allocate64(k: nat, prefetch: bool) returns (r: Result<Grant, Fault>)
      requires Valid()
      modifies memory32, memory64, prefetchable
      ensures Valid()
      ensures r == Err(Exhausted) <==>
              !Serves(old(View()).low, k) && !Serves(old(View()).high, k)
                && (prefetch ==> !Serves(old(View()).prefetch, k))
      ensures r.Ok? ==> Eligible(r.value.kind, true, prefetch)
      ensures r.Ok? ==> Granted(old(View()).Of(r.value.kind), View().Of(r.value.kind), k, r.value.address)
      ensures r.Ok? ==> View() == old(View()).Put(r.value.kind, View().Of(r.value.kind))
      ensures r.Ok? && r.value.kind != Prefetch && prefetch ==> !Serves(old(View()).prefetch, k)
      ensures r.Ok? && r.value.kind == Low ==> !Serves(old(View()).high, k)
      ensures r == Err(NotU32) <==>
              TooHigh(old(View()).low, k) && !Serves(old(View()).high, k)
                && (prefetch ==> !Serves(old(View()).prefetch, k))
      ensures r.Err? ==> r.error == Exhausted || r.error == NotU32
      ensures r.Ok? && r.value.kind == Low ==> r.value.address < TWO_32
    {
      if prefetch {
        var a := prefetchable.AllocAligned(k);
        if a.Some? {
          return Ok(Grant(a.value, Prefetch));
        }
      }
      var a := memory64.AllocAligned(k);
      if a.Some? {
        return Ok(Grant(a.value, High));
      }
      r := Allocate32(k);
    }
  }

  ghost predicate Empty(p: PoolState) {
    && Sound(p) && Formed(p.free, p.spans) && Whole(p.free, p.spans) && p.spans == {} && p.taken == p.total == 0
    && forall x: nat :: !Free(p.free, x)
  }

  /** Nothing taken yet: the free bytes are those of the spans. */
  ghost predicate Filled(p: PoolState, spans: set<Span>) {
    && p.spans == spans && p.taken == 0 && Formed(p.free, spans) && Whole(p.free, spans)
    && forall x: nat :: Free(p.free, x) <==> InSpans(spans, x)
  }

  lemma FilledStep(p: PoolState, q: PoolState, spans: set<Span>, s: Span)
    requires Filled(p, spans) && Added(p, q, s)
    ensures Filled(q, spans + {s})
  {
    forall x: nat ensures InSpans(spans + {s}, x) <==> InSpans(spans, x) || s.lo <= x < s.hi {
      InSpansStep(spans, s, x);
    }
  }

  /** The pools right after `PciBarAllocator::new`. */
  ghost predicate Fresh(v: Pools, ranges: seq<PciRange>) {
    forall kind :: Filled(v.Of(kind), SpansFor(ranges, kind)) && v.Of(kind).total == SizeFor(ranges, kind)
  }

  ghost predicate AllSound(v: Pools) { forall kind :: Sound(v.Of(kind)) }

  /** Pool `kind` before and after range `i` was dealt with. */
  ghost predicate Dealt(p: PoolState, q: PoolState, ranges: seq<PciRange>, i: nat, kind: Kind)
    requires i < |ranges|
  {
    if KindOf(ranges[i]) == Some(kind) then Added(p, q, SpanOf(ranges[i])) else q == p
  }

  lemma BuildPool(p: PoolState, q: PoolState, ranges: seq<PciRange>, i: nat, kind: Kind)
    requires i < |ranges| && Dealt(p, q, ranges, i, kind)
    requires Filled(p, SpansFor(ranges[..i], kind)) && p.total == SizeFor(ranges[..i], kind)
             && (DisjointRanges(ranges) ==> Sound(p))
    ensures Filled(q, SpansFor(ranges[..i + 1], kind)) && q.total == SizeFor(ranges[..i + 1], kind)
            && (DisjointRanges(ranges) ==> Sound(q))
  {
    SpansStep(ranges, i, kind);
    if KindOf(ranges[i]) == Some(kind) {
      FilledStep(p, q, SpansFor(ranges[..i], kind), SpanOf(ranges[i]));
      if DisjointRanges(ranges) {
        SpanIsNew(ranges, i, kind);
      }
    }
  }

  lemma BuildStep(v: Pools, w: Pools, ranges: seq<PciRange>, i: nat)
    requires i < |ranges| && Fresh(v, ranges[..i]) && (DisjointRanges(ranges) ==> AllSound(v))
    requires match KindOf(ranges[i])
             case None => w == v
             case Some(kind) => w == v.Put(kind, w.Of(kind)) && Added(v.Of(kind), w.Of(kind), SpanOf(ranges[i]))
    ensures Fresh(w, ranges[..i + 1]) && (DisjointRanges(ranges) ==> AllSound(w))
  {
    forall kind ensures && Filled(w.Of(kind), SpansFor(ranges[..i + 1], kind))
                        && w.Of(kind).total == SizeFor(ranges[..i + 1], kind)
                        && (DisjointRanges(ranges) ==> Sound(w.Of(kind)))
    {
      assert Filled(v.Of(kind), SpansFor(ranges[..i], kind));
      BuildPool(v.Of(kind), w.Of(kind), ranges, i, kind);
    }
  }

  predicate OnBus(ranges: seq<PciRange>) { forall g :: g in ranges && IsMemory(g) ==> g.cpu == g.bus }

  /** `PciBarAllocator::new`: sorts the memory ranges into the pools. */
  method Build(ranges: seq<PciRange>) returns (r: Result<BarAllocator, Fault>)
    requires forall g :: g in ranges && IsMemory(g) ==> g.cpu + g.size < TWO_64
    ensures r.Ok? <==> OnBus(ranges)
    ensures r.Ok? ==>
              r.value.Valid() && fresh(r.value.memory32) && fresh(r.value.memory64) && fresh(r.value.prefetchable)
    ensures r.Ok? ==> Fresh(r.value.View(), ranges) && (DisjointRanges(ranges) ==> AllSound(r.value.View()))
  {
    var alloc := new BarAllocator();
    assert Fresh(alloc.View(), ranges[..0]) by {
      assert forall kind :: SpansFor(ranges[..0], kind) == {};
    }
    for i := 0 to |ranges|
      invariant alloc.Valid() && fresh(alloc.memory32) && fresh(alloc.memory64) && fresh(alloc.prefetchable)
      invariant OnBus(ranges[..i])
      invariant Fresh(alloc.View(), ranges[..i]) && (DisjointRanges(ranges) ==> AllSound(alloc.View()))
    {
      var g := ranges[i];
      ghost var before := alloc.View();
      if IsMemory(g) {
        if g.cpu != g.bus {
          return Err(NotIdentity);
        }
        alloc.Add(KindOf(g).value, g);
      }
      BuildStep(before, alloc.View(), ranges, i);
    }
    assert ranges[..|ranges|] == ranges;
    return Ok(alloc);
  }
}
