/** The power-of-two frame allocator behind the PCI BAR pools: `add_frame` and `alloc_aligned` of
    buddy_system_allocator::FrameAllocator, which the kernel uses without ever freeing. */
module FrameAllocator {
  import opened Wrappers
  import opened Blocks

  /** The smallest allocation, the size of a `usize`. */
  const MIN_ORDER: nat := 3

  function Max(a: nat, b: nat): nat { if a < b then b else a }

  lemma {:induction false} LowestExists(s: set<nat>, x: nat)
    requires x in s
    ensures exists b :: b in s && forall c :: c in s ==> b <= c
    decreases x
  {
    if y :| y in s && y < x {
      LowestExists(s, y);
    } else {
      assert forall c :: c in s ==> x <= c;
    }
  }

  /** The first element of an ordered set. */
  function Lowest(s: set<nat>): (b: nat)
    requires s != {}
    ensures b in s && forall c :: c in s ==> b <= c
  {
    ghost var x :| x in s;
    LowestExists(s, x);
    var b :| b in s && forall c :: c in s ==> b <= c;
    b
  }

  /** Span `s` has no byte in common with any of `spans`. */
  ghost predicate NewSpan(s: Span, spans: set<Span>) {
    forall r :: r in spans ==> s.hi <= r.lo || r.hi <= s.lo || s.lo == s.hi || r.lo == r.hi
  }

  /** All aligned windows of span `s` that start before `cur` are held. */
  ghost predicate HeldUpTo(f: FreeLists, s: Span, cur: nat) {
    forall w: nat, c: nat :: c < |f| && Aligned(w, c) && (w == 0 ==> c <= ZERO_ORDER) && InSpan(w, c, s) && w < cur ==>
      Held(f, w, c)
  }

  /** Order `k` is the largest for a block at `cur` that ends by `end`. */
  predicate Largest(cur: nat, end: nat, k: nat, order: nat) {
    !(k + 1 < order && Aligned(cur, k + 1) && cur + Pow2(k + 1) <= end && (cur == 0 ==> k + 1 <= ZERO_ORDER))
  }

  lemma HeldStep(f: FreeLists, s: Span, cur: nat, k: nat)
    requires HeldUpTo(f, s, cur) && s.lo <= cur && k < |f| && Aligned(cur, k) && Largest(cur, s.hi, k, |f|)
    ensures HeldUpTo(With(f, cur, k), s, cur + Pow2(k))
  {
    var g := With(f, cur, k);
    assert Has(g, cur, k) && forall b, j :: Has(f, b, j) ==> Has(g, b, j);
    forall w: nat, c: nat | c < |g| && Aligned(w, c) && (w == 0 ==> c <= ZERO_ORDER) && InSpan(w, c, s)
      && w < cur + Pow2(k)
      ensures Held(g, w, c)
    {
      if w < cur {
        var b, j :| Has(f, b, j) && c <= j && Within(w, c, b, j);
      } else if c <= k {
        Nest(w, c, cur, k);
      } else {
        Nest(cur, k, w, c);
        FinerAligned(cur, k + 1, c);
        Pow2Mono(k + 1, c);
        assert false;
      }
    }
  }

  /** The size of the next block at `cur`: the largest that is aligned and ends by `end`. */
  method BlockOrder(cur: nat, end: nat, order: nat) returns (k: nat)
    requires cur < end && 0 < order
    ensures k < order && Aligned(cur, k) && cur + Pow2(k) <= end && (cur == 0 ==> k <= ZERO_ORDER)
    ensures Largest(cur, end, k, order)
  {
    k := 0;
    while k + 1 < order && cur % Pow2(k + 1) == 0 && cur + Pow2(k + 1) <= end && (cur == 0 ==> k + 1 <= ZERO_ORDER)
      invariant k < order && Aligned(cur, k) && cur + Pow2(k) <= end && (cur == 0 ==> k <= ZERO_ORDER)
    {
      k := k + 1;
    }
  }

  /** The contents of an allocator: free lists, bytes handed out, bytes added, spans added. */
  datatype PoolState = PoolState(free: FreeLists, taken: nat, total: nat, spans: set<Span>)

  /** While the spans added were disjoint: free blocks are disjoint and as large as can be, and
      free plus taken bytes are the bytes added. */
  ghost predicate Sound(p: PoolState) {
    Disjoint(p.free) && Maximal(p.free, p.spans) && p.taken + Bytes(p.free) == p.total
  }

  /** Some free block is large enough for a request of order `k`. */
  ghost predicate Serves(p: PoolState, k: nat) { exists w :: Held(p.free, w, ClassOf(k)) }

  /** A span added to an allocator. */
  ghost predicate Added(p: PoolState, q: PoolState, s: Span) {
    && q.spans == p.spans + {s} && q.taken == p.taken && q.total == p.total + (s.hi - s.lo)
    && Formed(q.free, q.spans)
    && (forall x: nat :: Free(q.free, x) <==> Free(p.free, x) || s.lo <= x < s.hi)
    && (Sound(p) && NewSpan(s, p.spans) ==> Sound(q))
    && (Whole(p.free, p.spans) ==> Whole(q.free, q.spans))
  }

  /** A block handed out for a request of order `k`. */
  ghost predicate Granted(p: PoolState, q: PoolState, k: nat, a: nat) { Taken(p, q, ClassOf(k), a) }

  /** A block of order `c` taken: the lowest of the smallest order that is large enough, hence aligned,
      inside one span, free before; and with disjoint spans exactly its bytes are gone. */
  ghost predicate Taken(p: PoolState, q: PoolState, c: nat, a: nat) {
    && q.spans == p.spans && q.total == p.total && q.taken == p.taken + Pow2(c) && Formed(q.free, q.spans)
    && BestAt(p.free, c, a) && Aligned(a, c) && InOneSpan(a, c, p.spans) && (a == 0 ==> c <= ZERO_ORDER)
       && Held(p.free, a, c)
    && (Sound(p) ==> Sound(q) && forall x: nat :: Free(q.free, x) <==> Free(p.free, x) && !In(x, a, c))
  }

  /** Order `i` is the smallest from `c` on that has a free block. */
  predicate Best(f: FreeLists, c: nat, i: nat) {
    c <= i < |f| && f[i] != {} && forall l :: c <= l < i ==> f[l] == {}
  }

  /** The lowest block of the smallest such order starts at `a`. */
  ghost predicate BestAt(f: FreeLists, c: nat, a: nat) { exists i: nat :: Best(f, c, i) && a == Lowest(f[i]) }

  lemma BestIsOne(f: FreeLists, c: nat, a: nat, b: nat)
    requires BestAt(f, c, a) && BestAt(f, c, b)
    ensures a == b
  {
    var i: nat :| Best(f, c, i) && a == Lowest(f[i]);
    var j: nat :| Best(f, c, j) && b == Lowest(f[j]);
    assert i <= j && j <= i;
  }

  class Pool {
    const order: nat
    var free: FreeLists
    var taken: nat
    var total: nat
    ghost var spans: set<Span>

    ghost function State(): PoolState
      reads this
    {
      PoolState(free, taken, total, spans)
    }

    /** Every free block is aligned and lies in one span that was added. */
    ghost predicate Valid()
      reads this
    {
      0 < order == |free| && Formed(free, spans)
    }

    constructor (order: nat)
      requires order > 0
      ensures Valid() && Sound(State()) && this.order == order && spans == {} && taken == total == 0
      ensures forall x: nat :: !Free(free, x)
    {
      this.order := order;
      free, taken, total, spans := seq(order, _ => {}), 0, 0, {};
      new;
      NoBytes(order, free);
    }

    method AddFrame(start: nat, end: nat)
      requires Valid() && start <= end
      modifies this
      ensures Valid() && Added(old(State()), State(), Span(start, end))
    {
      ghost var s := Span(start, end);
      MoreSpans(free, spans, s);
      spans := spans + {s};
      var cur := start;
      while cur < end
        invariant start <= cur <= end
        invariant |free| == order && Formed(free, spans)
        invariant spans == old(spans) + {s} && total == old(total) && taken == old(taken)
        invariant forall x: nat :: Free(free, x) <==> old(Free(free, x)) || start <= x < cur
        invariant forall b, k :: Has(old(free), b, k) ==> Has(free, b, k)
        invariant HeldUpTo(free, s, cur)
        invariant Sound(old(State())) && NewSpan(s, old(spans)) ==>
                    Disjoint(free) && Bytes(free) == old(Bytes(free)) + (cur - start)
      {
        var k := BlockOrder(cur, end, order);
        assert InSpan(cur, k, s);
        AddFree(free, cur, k);
        AddFormed(free, spans, cur, k);
        HeldStep(free, s, cur, k);
        if Sound(old(State())) && NewSpan(s, old(spans)) {
          AddClear(old(free), old(spans), s, free, cur, k);
          AddDisjoint(free, cur, k);
          BytesAdd(free, k, cur);
        }
        free := With(free, cur, k);
        cur := cur + Pow2(k);
      }
      total := total + (end - start);
      if Whole(old(free), old(spans)) {
        AddWhole(old(free), old(spans), s, free);
      }
      if Sound(old(State())) && NewSpan(s, old(spans)) {
        AddMaximal(old(free), old(spans), s, free);
      }
    }

    /** The first order from `c` on that has a free block. */
    method FirstFree(c: nat) returns (i: nat)
      requires Valid()
      ensures c <= i && (forall l :: c <= l < i && l < order ==> free[l] == {}) && (i < order ==> free[i] != {})
    {
      i := c;
      while i < order && free[i] == {}
        invariant c <= i && forall l :: c <= l < i && l < order ==> free[l] == {}
      {
        i := i + 1;
      }
    }

    /** Takes a block of `Pow2(k)` bytes, or of the smallest size if that is larger: the start of the
        lowest block of the smallest order that is large enough. */
    method AllocAligned(k: nat) returns (r: Option<nat>)
      requires Valid()
      modifies this
      ensures Valid()
      ensures r.None? <==> !Serves(old(State()), k)
      ensures if r.Some? then Granted(old(State()), State(), k, r.value) else State() == old(State())
    {
      var c := ClassOf(k);
      var i := FirstFree(c);
      if i >= order {
        NoneHeld(free, c);
        return None;
      }
      var a := TakeBlock(i, c);
      return Some(a);
    }

    method TakeBlock(i: nat, c: nat) returns (a: nat)
      requires Valid() && Best(free, c, i)
      modifies this
      ensures Valid() && Taken(old(State()), State(), c, a)
    {
      BlockFits(free, spans, Lowest(free[i]), i, c);
      ghost var lowest := CutDown(i, c);
      a := Lowest(free[c]);
      if Sound(old(State())) {
        TakeFree(free, a, c);
        TakeMaximal(free, spans, a, c);
        BytesRemove(free, c, a);
      }
      TakeFormed(free, spans, a, c);
      free := Without(free, a, c);
      taken := taken + Pow2(c);
      assert Best(old(free), c, i) && a == Lowest(old(free)[i]);
    }

    /** Cuts the lowest block of order `i` down to order `c`, where no block is free so far. */
    method CutDown(i: nat, c: nat) returns (ghost a: nat)
      requires Valid() && c <= i < order && free[i] != {} && forall l :: c <= l < i ==> free[l] == {}
      modifies `free
      ensures Valid() && free[c] != {} && a == Lowest(free[c]) && a == Lowest(old(free)[i])
      ensures forall x: nat :: Free(free, x) <==> Free(old(free), x)
      ensures Sound(old(State())) ==> Disjoint(free) && MaximalBut(free, spans, a, c) && Bytes(free) == Bytes(old(free))
    {
      var j := i;
      a := Lowest(free[i]);
      while j > c
        invariant c <= j <= i && Valid()
        invariant free[j] != {} && Lowest(free[j]) == a && forall l :: c <= l < j ==> free[l] == {}
        invariant forall x: nat :: Free(free, x) <==> Free(old(free), x)
        invariant Sound(old(State())) ==>
                    Disjoint(free) && MaximalBut(free, spans, a, c) && Bytes(free) == Bytes(old(free))
      {
        var block := Lowest(free[j]);
        CutFree(free, block, j);
        CutFormed(free, spans, block, j);
        if Sound(old(State())) {
          CutDisjoint(free, block, j);
          CutMaximal(free, spans, block, j, c);
          CutBytes(free, block, j);
        }
        free := Cut(free, block, j);
        j := j - 1;
      }
    }
  }

  /** The order of block that serves a request of order `k`. */
  function ClassOf(k: nat): (c: nat)
    ensures c >= k && c >= MIN_ORDER && (c == k || c == MIN_ORDER)
  {
    Max(k, MIN_ORDER)
  }

  lemma NoneHeld(f: FreeLists, c: nat)
    requires forall l :: c <= l < |f| ==> f[l] == {}
    ensures forall w :: !Held(f, w, c)
  {
  }

  /** With disjoint spans a request is served exactly if an aligned window of that size is free inside
      one span, its order is below the number of free lists, and it is not a window of more than 32
      bytes at address zero. */
  lemma ServesIfFits(p: PoolState, k: nat)
    requires Sound(p) && Formed(p.free, p.spans)
    ensures Serves(p, k) <==>
            exists w :: ClassOf(k) < |p.free| && (w == 0 ==> ClassOf(k) <= ZERO_ORDER)
              && Window(p.free, p.spans, w, ClassOf(k))
  {
    var c := ClassOf(k);
    if w :| Held(p.free, w, c) {
      var b: nat, l: nat :| Has(p.free, b, l) && c <= l && Within(w, c, b, l);
      BlockFits(p.free, p.spans, b, l, c);
    }
    if w: nat :| c < |p.free| && (w == 0 ==> c <= ZERO_ORDER) && Window(p.free, p.spans, w, c) {
      assert Fits(p.free, p.spans, w, c);
      assert Held(p.free, w, c);
    }
  }

  /** So the two limits are the only ways to fail although a window is free. */
  lemma FailsOnlyAtLimits(p: PoolState, k: nat)
    requires Sound(p) && Formed(p.free, p.spans) && exists w :: Window(p.free, p.spans, w, ClassOf(k))
    ensures !Serves(p, k) <==>
            || ClassOf(k) >= |p.free|
            || (ClassOf(k) > ZERO_ORDER && forall w :: Window(p.free, p.spans, w, ClassOf(k)) ==> w == 0)
  {
    ServesIfFits(p, k);
  }

  /** A span that was just added is free. */
  lemma AddedWindow(p: PoolState, q: PoolState, s: Span, w: nat, c: nat)
    requires Added(p, q, s) && Aligned(w, c) && InSpan(w, c, s)
    ensures Window(q.free, q.spans, w, c)
  {
    assert s in q.spans;
  }

  lemma ZeroNotHeld(f: FreeLists)
    requires Formed(f, {Span(0, 64)})
    ensures forall w :: !Held(f, w, 6)
  {
    assert Pow2(6) == 64;
    forall b: nat, k: nat | Has(f, b, k) ensures k < 6 {
      if 6 <= k { Pow2Mono(6, k); }
    }
  }

  /** The first limit, at address zero: with the range from 0 to 64 added, 64 aligned bytes are free and
      a request for them fails. */
  method ZeroWindowLost() returns (p: Pool, r: Option<nat>)
    ensures fresh(p) && p.Valid() && Sound(p.State()) && p.order == 32
    ensures Window(p.free, p.spans, 0, 6) && r == None
  {
    p := new Pool(32);
    ghost var before := p.State();
    p.AddFrame(0, 64);
    assert Pow2(6) == 64 && p.spans == {Span(0, 64)};
    AddedWindow(before, p.State(), Span(0, 64), 0, 6);
    ZeroNotHeld(p.free);
    r := p.AllocAligned(6);
  }

  lemma LargeOrder()
    ensures Pow2(32) == 0x1_0000_0000 && Aligned(0x1_0000_0000, 32)
  {
    assert Pow2(8) == 0x100 && Pow2(12) == 0x1000;
    assert Pow2(16) == 0x1_0000 && Pow2(20) == 0x10_0000;
    assert Pow2(24) == 0x100_0000 && Pow2(28) == 0x1000_0000;
  }

  /** The second limit, the largest order: with the range from 2^32 to 2^33 added to a pool of 32 free
      lists, 2^32 aligned bytes are free and a request for them fails. */
  method LargeWindowLost() returns (p: Pool, r: Option<nat>)
    ensures fresh(p) && p.Valid() && Sound(p.State()) && p.order == 32
    ensures Window(p.free, p.spans, 0x1_0000_0000, 32) && r == None
  {
    var start, end, k := 0x1_0000_0000, 0x2_0000_0000, 32;
    LargeOrder();
    p := new Pool(32);
    ghost var before := p.State();
    p.AddFrame(start, end);
    AddedWindow(before, p.State(), Span(start, end), start, k);
    NoneHeld(p.free, k);
    r := p.AllocAligned(k);
  }

  /** The start of a free block of order `i` is a window of every smaller order. */
  lemma BlockFits(f: FreeLists, spans: set<Span>, a: nat, i: nat, c: nat)
    requires Has(f, a, i) && c <= i && Formed(f, spans)
    ensures Held(f, a, c) && Fits(f, spans, a, c) && Aligned(a, c) && InOneSpan(a, c, spans)
  {
    Pow2Mono(c, i);
    FinerAligned(a, c, i);
    assert Within(a, c, a, i);
    var s :| s in spans && InSpan(a, i, s);
    assert InSpan(a, c, s);
    forall x: nat | In(x, a, c) ensures Free(f, x) {
      assert In(x, a, i);
    }
  }

  lemma {:induction false} NoBytes(n: nat, f: FreeLists)
    requires |f| == n && forall k :: 0 <= k < n ==> f[k] == {}
    ensures Bytes(f) == 0
  {
    if n > 0 { NoBytes(n - 1, f[..n - 1]); }
  }

  /** Bytes of a new span are in no block of the old spans. */
  lemma AddClear(f: FreeLists, spans: set<Span>, s: Span, g: FreeLists, cur: nat, k: nat)
    requires Formed(f, spans) && NewSpan(s, spans) && s.lo <= cur && InSpan(cur, k, s)
    requires forall x: nat :: Free(g, x) <==> Free(f, x) || s.lo <= x < cur
    ensures Clear(g, cur, k)
  {
    forall x | In(x, cur, k) ensures !Free(f, x) {
      OldBytes(f, spans, s, x);
    }
  }

  lemma OldBytes(f: FreeLists, spans: set<Span>, s: Span, x: nat)
    requires Formed(f, spans) && NewSpan(s, spans) && s.lo <= x < s.hi
    ensures !Free(f, x)
  {
    forall b, k | Has(f, b, k) ensures !In(x, b, k) {
      var r :| r in spans && InSpan(b, k, r);
    }
  }

  lemma AddWhole(f: FreeLists, spans: set<Span>, s: Span, g: FreeLists)
    requires |f| == |g| && Whole(f, spans) && HeldUpTo(g, s, s.hi)
    requires forall b, k :: Has(f, b, k) ==> Has(g, b, k)
    ensures Whole(g, spans + {s})
  {
    forall w: nat, c: nat | c < |g| && Aligned(w, c) && (w == 0 ==> c <= ZERO_ORDER) && InOneSpan(w, c, spans + {s})
      ensures Held(g, w, c)
    {
      var r :| r in spans + {s} && InSpan(w, c, r);
      if r != s {
        assert InOneSpan(w, c, spans);
        var b, k :| Has(f, b, k) && c <= k && Within(w, c, b, k);
      }
    }
  }

  lemma AddMaximal(f: FreeLists, spans: set<Span>, s: Span, g: FreeLists)
    requires |f| == |g| && Formed(f, spans) && Maximal(f, spans) && NewSpan(s, spans)
    requires forall x: nat :: Free(g, x) <==> Free(f, x) || s.lo <= x < s.hi
    requires forall b, k :: Has(f, b, k) ==> Has(g, b, k)
    requires HeldUpTo(g, s, s.hi)
    ensures Maximal(g, spans + {s})
  {
    forall w, c | Fits(g, spans + {s}, w, c) ensures Held(g, w, c) {
      var r :| r in spans + {s} && InSpan(w, c, r);
      if r != s {
        assert InOneSpan(w, c, spans);
        assert forall x: nat :: In(x, w, c) ==> Free(g, x) && !(s.lo <= x < s.hi);
        assert Fits(f, spans, w, c);
        var b, k :| Has(f, b, k) && c <= k && Within(w, c, b, k);
      }
    }
  }
}
