/** Power-of-two blocks and free lists of them, as the frame allocator keeps them. */
module Blocks {

  // ---------------------------------------------------------------- arithmetic

  function Pow2(k: nat): (p: nat)
    ensures p > 0
  {
    if k == 0 then 1 else 2 * Pow2(k - 1)
  }

  lemma {:induction false} Pow2Mono(j: nat, k: nat)
    requires j <= k
    ensures Pow2(j) <= Pow2(k)
    ensures j < k ==> 2 * Pow2(j) <= Pow2(k)
    decreases k
  {
    if j < k { Pow2Mono(j, k - 1); }
  }

  /** Two multiples of `m` that differ are at least `m` apart. */
  lemma MultiplesApart(x: nat, y: nat, m: nat)
    requires m > 0 && x % m == 0 && y % m == 0 && x < y
    ensures x + m <= y
  {
    var p, q := x / m, y / m;
    assert x == m * p && y == m * q;
    assert q <= p ==> m * q <= m * p;
    assert p + 1 <= q ==> m * (p + 1) <= m * q;
  }

  lemma MultipleSum(x: nat, y: nat, m: nat)
    requires m > 0 && x % m == 0 && y % m == 0
    ensures (x + y) % m == 0
  {
    var p, q := x / m, y / m;
    assert x + y == m * (p + q);
    MultipleOf(p + q, m);
  }

  lemma {:induction false} MultipleOf(q: nat, m: nat)
    requires m > 0
    ensures (m * q) % m == 0
  {
    var d, r := (m * q) / m, (m * q) % m;
    var e: int := q - d;
    assert r == m * e;
    assert e >= 1 ==> m * e >= m;
    assert e <= -1 ==> m * e + m <= 0;
  }

  lemma {:induction false} FinerAligned(x: nat, j: nat, k: nat)
    requires j <= k && x % Pow2(k) == 0
    ensures x % Pow2(j) == 0
    decreases k
  {
    if j < k {
      var m := Pow2(k - 1);
      var q := x / Pow2(k);
      assert x == m * (2 * q);
      MultipleOf(2 * q, m);
      FinerAligned(x, j, k - 1);
    }
  }

  lemma Pow2Aligned(j: nat, k: nat)
    requires j <= k
    ensures Pow2(k) % Pow2(j) == 0
  {
    MultipleOf(1, Pow2(k));
    FinerAligned(Pow2(k), j, k);
  }

  // ---------------------------------------------------------------- blocks

  predicate Aligned(b: nat, k: nat) { b % Pow2(k) == 0 }

  /** Block (b, k) and block (c, j) have no byte in common. */
  predicate Apart(b: nat, k: nat, c: nat, j: nat) { b + Pow2(k) <= c || c + Pow2(j) <= b }

  /** Block (c, j) lies inside block (b, k). */
  predicate Within(c: nat, j: nat, b: nat, k: nat) { b <= c && c + Pow2(j) <= b + Pow2(k) }

  predicate In(x: nat, b: nat, k: nat) { b <= x < b + Pow2(k) }

  /** Aligned blocks nest: they are apart, or the finer one lies inside the other. */
  lemma Nest(c: nat, j: nat, b: nat, k: nat)
    requires j <= k && Aligned(c, j) && Aligned(b, k)
    ensures Apart(b, k, c, j) || Within(c, j, b, k)
  {
    FinerAligned(b, j, k);
    Pow2Aligned(j, k);
    MultipleSum(b, Pow2(k), Pow2(j));
    if c < b { MultiplesApart(c, b, Pow2(j)); }
    if c < b + Pow2(k) { MultiplesApart(c, b + Pow2(k), Pow2(j)); }
  }

  /** An aligned block splits into two aligned halves. */
  lemma Halves(b: nat, k: nat)
    requires k > 0 && Aligned(b, k)
    ensures Aligned(b, k - 1) && Aligned(b + Pow2(k - 1), k - 1)
    ensures Pow2(k) == Pow2(k - 1) + Pow2(k - 1)
  {
    FinerAligned(b, k - 1, k);
    MultipleOf(1, Pow2(k - 1));
    MultipleSum(b, Pow2(k - 1), Pow2(k - 1));
  }

  // ---------------------------------------------------------------- free lists

  /** The free blocks of each order, by their start. */
  type FreeLists = seq<set<nat>>

  datatype Span = Span(lo: nat, hi: nat)

  predicate Has(f: FreeLists, b: nat, k: nat) { k < |f| && b in f[k] }

  predicate InSpan(b: nat, k: nat, s: Span) { s.lo <= b && b + Pow2(k) <= s.hi }

  ghost predicate Free(f: FreeLists, x: nat) { exists b, k :: Has(f, b, k) && In(x, b, k) }

  ghost predicate Disjoint(f: FreeLists) {
    forall b, k, c, j :: Has(f, b, k) && Has(f, c, j) && (b != c || k != j) ==> Apart(b, k, c, j)
  }

  ghost predicate InOneSpan(b: nat, k: nat, spans: set<Span>) { exists s :: s in spans && InSpan(b, k, s) }

  /** Every free block is aligned and lies inside one of the spans; a block that starts at zero has
      at most 32 bytes. */
  ghost predicate Formed(f: FreeLists, spans: set<Span>) {
    forall b, k: nat :: Has(f, b, k) ==> Aligned(b, k) && InOneSpan(b, k, spans) && (b == 0 ==> k <= ZERO_ORDER)
  }

  const ZERO_ORDER: nat := 5

  /** An aligned window inside one span, all of it free. */
  ghost predicate Window(f: FreeLists, spans: set<Span>, w: nat, c: nat) {
    Aligned(w, c) && InOneSpan(w, c, spans) && forall x :: In(x, w, c) ==> Free(f, x)
  }

  /** A window within the two limits of the allocator: its order is one of the free lists', and at address
      zero it has at most 32 bytes. */
  ghost predicate Fits(f: FreeLists, spans: set<Span>, w: nat, c: nat) {
    c < |f| && (w == 0 ==> c <= ZERO_ORDER) && Window(f, spans, w, c)
  }

  ghost predicate Held(f: FreeLists, w: nat, c: nat) { exists b, k :: Has(f, b, k) && c <= k && Within(w, c, b, k) }

  /** No free window is cut up: each lies inside a single free block. */
  ghost predicate Maximal(f: FreeLists, spans: set<Span>) {
    forall w, c :: Fits(f, spans, w, c) ==> Held(f, w, c)
  }

  /** No span is cut up more than it has to be: every window of it lies inside a single free block. */
  ghost predicate Whole(f: FreeLists, spans: set<Span>) {
    forall w: nat, c: nat :: c < |f| && Aligned(w, c) && (w == 0 ==> c <= ZERO_ORDER) && InOneSpan(w, c, spans) ==>
      Held(f, w, c)
  }

  /** `Maximal` for the windows that are apart from the block about to be taken. */
  ghost predicate MaximalBut(f: FreeLists, spans: set<Span>, b: nat, k: nat) {
    forall w, c :: Fits(f, spans, w, c) && Apart(w, c, b, k) ==> Held(f, w, c)
  }

  function Bytes(f: FreeLists): nat {
    if f == [] then 0 else Bytes(f[..|f| - 1]) + |f[|f| - 1]| * Pow2(|f| - 1)
  }

  lemma {:induction false} BytesUpdate(f: FreeLists, k: nat, s: set<nat>)
    requires k < |f|
    ensures Bytes(f[k := s]) == Bytes(f) + |s| * Pow2(k) - |f[k]| * Pow2(k)
    decreases |f|
  {
    var g := f[k := s];
    if k == |f| - 1 {
      assert g[..|g| - 1] == f[..|f| - 1];
    } else {
      assert g[..|g| - 1] == f[..|f| - 1][k := s];
      BytesUpdate(f[..|f| - 1], k, s);
    }
  }

  lemma BytesAdd(f: FreeLists, k: nat, b: nat)
    requires k < |f| && b !in f[k]
    ensures Bytes(f[k := f[k] + {b}]) == Bytes(f) + Pow2(k)
  {
    BytesUpdate(f, k, f[k] + {b});
    var n, p := |f[k]|, Pow2(k);
    assert |f[k] + {b}| == n + 1 && (n + 1) * p == n * p + p;
  }

  lemma BytesRemove(f: FreeLists, k: nat, b: nat)
    requires k < |f| && b in f[k]
    ensures Bytes(f) == Bytes(f[k := f[k] - {b}]) + Pow2(k)
  {
    BytesUpdate(f, k, f[k] - {b});
    var n, p := |f[k] - {b}|, Pow2(k);
    assert |f[k]| == n + 1 && (n + 1) * p == n * p + p;
  }

  /** The free lists with one block more or less. */
  function With(f: FreeLists, b: nat, k: nat): FreeLists
    requires k < |f|
  {
    f[k := f[k] + {b}]
  }

  function Without(f: FreeLists, b: nat, k: nat): FreeLists
    requires k < |f|
  {
    f[k := f[k] - {b}]
  }

  /** Block (b, k) cut into its two halves. */
  function Cut(f: FreeLists, b: nat, k: nat): FreeLists
    requires 0 < k < |f|
  {
    With(With(Without(f, b, k), b + Pow2(k - 1), k - 1), b, k - 1)
  }

  lemma CutHas(f: FreeLists, b: nat, k: nat, c: nat, j: nat)
    requires 0 < k < |f|
    ensures Has(Cut(f, b, k), c, j) <==>
            (Has(f, c, j) && (c != b || j != k)) || (j == k - 1 && (c == b || c == b + Pow2(k - 1)))
  {
  }

  lemma CutFree(f: FreeLists, b: nat, k: nat)
    requires 0 < k && Has(f, b, k)
    ensures forall x :: Free(Cut(f, b, k), x) <==> Free(f, x)
  {
    var g := Cut(f, b, k);
    forall x ensures Free(g, x) <==> Free(f, x) {
      if Free(f, x) {
        var c, j :| Has(f, c, j) && In(x, c, j);
        CutHas(f, b, k, c, j);
        CutHas(f, b, k, b, k - 1);
        CutHas(f, b, k, b + Pow2(k - 1), k - 1);
        assert c == b && j == k ==> In(x, b, k - 1) || In(x, b + Pow2(k - 1), k - 1);
      }
      if Free(g, x) {
        var c, j :| Has(g, c, j) && In(x, c, j);
        CutHas(f, b, k, c, j);
        assert Has(f, c, j) || In(x, b, k);
      }
    }
  }

  lemma CutFormed(f: FreeLists, spans: set<Span>, b: nat, k: nat)
    requires 0 < k && Has(f, b, k) && Formed(f, spans)
    ensures Formed(Cut(f, b, k), spans)
  {
    var g := Cut(f, b, k);
    Halves(b, k);
    var s :| s in spans && InSpan(b, k, s);
    forall c, j: nat | Has(g, c, j) ensures Aligned(c, j) && InOneSpan(c, j, spans) && (c == 0 ==> j <= ZERO_ORDER) {
      CutHas(f, b, k, c, j);
      assert InSpan(b, k - 1, s) && InSpan(b + Pow2(k - 1), k - 1, s);
    }
  }

  lemma CutDisjoint(f: FreeLists, b: nat, k: nat)
    requires 0 < k && Has(f, b, k) && Disjoint(f)
    ensures Disjoint(Cut(f, b, k))
  {
    var g := Cut(f, b, k);
    forall c, j, d, l | Has(g, c, j) && Has(g, d, l) && (c != d || j != l) ensures Apart(c, j, d, l) {
      CutHas(f, b, k, c, j);
      CutHas(f, b, k, d, l);
      assert Has(f, c, j) && (c != b || j != k) ==> Apart(c, j, b, k);
      assert Has(f, d, l) && (d != b || l != k) ==> Apart(d, l, b, k);
    }
  }

  /** A window that lies in a block but not over its start lies in one of the halves. */
  lemma HalfHolds(w: nat, c: nat, b: nat, k: nat, e: nat)
    requires 0 < k && e < k && Aligned(b, k) && Aligned(w, c) && c <= k && Within(w, c, b, k) && Apart(w, c, b, e)
    ensures c <= k - 1 && (Within(w, c, b, k - 1) || Within(w, c, b + Pow2(k - 1), k - 1))
  {
    Halves(b, k);
    if c < k {
      Nest(w, c, b, k - 1);
      Nest(w, c, b + Pow2(k - 1), k - 1);
    }
  }

  lemma CutMaximal(f: FreeLists, spans: set<Span>, b: nat, k: nat, e: nat)
    requires e < k && Has(f, b, k) && Formed(f, spans) && MaximalBut(f, spans, b, e)
    ensures MaximalBut(Cut(f, b, k), spans, b, e)
  {
    var g := Cut(f, b, k);
    CutFree(f, b, k);
    forall w, c | Fits(g, spans, w, c) && Apart(w, c, b, e) ensures Held(g, w, c) {
      assert Fits(f, spans, w, c);
      var d, l :| Has(f, d, l) && c <= l && Within(w, c, d, l);
      CutHas(f, b, k, d, l);
      if d == b && l == k {
        HalfHolds(w, c, b, k, e);
        CutHas(f, b, k, b, k - 1);
        CutHas(f, b, k, b + Pow2(k - 1), k - 1);
      }
    }
  }

  lemma CutBytes(f: FreeLists, b: nat, k: nat)
    requires 0 < k && Has(f, b, k) && Disjoint(f)
    ensures Bytes(Cut(f, b, k)) == Bytes(f)
  {
    var h := b + Pow2(k - 1);
    BytesRemove(f, k, b);
    assert Has(f, h, k - 1) ==> Apart(h, k - 1, b, k);
    assert Has(f, b, k - 1) ==> Apart(b, k - 1, b, k);
    BytesAdd(Without(f, b, k), k - 1, h);
    BytesAdd(With(Without(f, b, k), h, k - 1), k - 1, b);
  }

  /** Block (b, k) of `f` is a block of every other such set of free lists with the same free bytes. */
  lemma SameBlock(f: FreeLists, g: FreeLists, spans: set<Span>, b: nat, k: nat)
    requires |f| == |g| && Formed(f, spans) && Formed(g, spans) && Disjoint(f) && Maximal(f, spans) && Maximal(g, spans)
    requires forall x: nat :: Free(f, x) <==> Free(g, x)
    requires Has(f, b, k)
    ensures Has(g, b, k)
  {
    assert forall x: nat :: In(x, b, k) ==> Free(f, x);
    assert Fits(g, spans, b, k);
    var c: nat, j: nat :| Has(g, c, j) && k <= j && Within(b, k, c, j);
    assert forall x: nat :: In(x, c, j) ==> Free(g, x);
    assert Fits(f, spans, c, j);
    var d: nat, l: nat :| Has(f, d, l) && j <= l && Within(c, j, d, l);
    assert !Apart(b, k, d, l);
  }

  /** Disjoint free blocks that are as large as can be are fixed by the bytes they cover. */
  lemma FreeListsFixed(f: FreeLists, g: FreeLists, spans: set<Span>)
    requires |f| == |g| && Formed(f, spans) && Formed(g, spans)
    requires Disjoint(f) && Disjoint(g) && Maximal(f, spans) && Maximal(g, spans)
    requires forall x: nat :: Free(f, x) <==> Free(g, x)
    ensures f == g
  {
    forall k: nat | k < |f| ensures f[k] == g[k] {
      forall b: nat ensures b in f[k] <==> b in g[k] {
        if Has(f, b, k) { SameBlock(f, g, spans, b, k); }
        if Has(g, b, k) { SameBlock(g, f, spans, b, k); }
      }
    }
  }

  // ---------------------------------------------------------------- taking and adding a block

  lemma TakeFree(f: FreeLists, b: nat, k: nat)
    requires Has(f, b, k) && Disjoint(f)
    ensures Disjoint(Without(f, b, k))
    ensures forall x :: Free(Without(f, b, k), x) <==> Free(f, x) && !In(x, b, k)
  {
    var g := Without(f, b, k);
    assert forall c, j :: Has(g, c, j) <==> Has(f, c, j) && (c != b || j != k);
    forall x ensures Free(g, x) <==> Free(f, x) && !In(x, b, k) {
      if Free(g, x) {
        var c, j :| Has(g, c, j) && In(x, c, j);
        assert Has(f, c, j) && Apart(c, j, b, k);
      }
      if Free(f, x) && !In(x, b, k) {
        var c, j :| Has(f, c, j) && In(x, c, j);
        assert Has(g, c, j);
      }
    }
  }

  lemma TakeMaximal(f: FreeLists, spans: set<Span>, b: nat, k: nat)
    requires Has(f, b, k) && Disjoint(f) && MaximalBut(f, spans, b, k)
    ensures Maximal(Without(f, b, k), spans)
  {
    var g := Without(f, b, k);
    TakeFree(f, b, k);
    forall w: nat, c: nat | Fits(g, spans, w, c) ensures Held(g, w, c) {
      assert Fits(f, spans, w, c);
      var x := if w < b then b else w;
      assert !(In(x, w, c) && In(x, b, k));
      var d, l :| Has(f, d, l) && c <= l && Within(w, c, d, l);
      assert Has(g, d, l);
    }
  }

  lemma TakeFormed(f: FreeLists, spans: set<Span>, b: nat, k: nat)
    requires Has(f, b, k) && Formed(f, spans)
    ensures Formed(Without(f, b, k), spans)
  {
    assert forall c, j :: Has(Without(f, b, k), c, j) ==> Has(f, c, j);
  }

  /** Block (b, k) meets no free byte. */
  ghost predicate Clear(f: FreeLists, b: nat, k: nat) { forall x :: In(x, b, k) ==> !Free(f, x) }

  lemma AddFree(f: FreeLists, b: nat, k: nat)
    requires k < |f|
    ensures forall x :: Free(With(f, b, k), x) <==> Free(f, x) || In(x, b, k)
  {
    var g := With(f, b, k);
    assert forall c, j :: Has(g, c, j) <==> Has(f, c, j) || (c == b && j == k);
    forall x ensures Free(g, x) <==> Free(f, x) || In(x, b, k) {
      if Free(f, x) {
        var c, j :| Has(f, c, j) && In(x, c, j);
        assert Has(g, c, j);
      }
      assert Has(g, b, k);
    }
  }

  lemma AddDisjoint(f: FreeLists, b: nat, k: nat)
    requires k < |f| && Disjoint(f) && Clear(f, b, k)
    ensures Disjoint(With(f, b, k)) && b !in f[k]
  {
    var g := With(f, b, k);
    assert forall c, j :: Has(g, c, j) <==> Has(f, c, j) || (c == b && j == k);
    forall c: nat, j: nat | Has(f, c, j) ensures Apart(c, j, b, k) {
      var x := if c < b then b else c;
      assert In(x, c, j) && In(x, b, k) ==> Free(f, x);
    }
    assert Has(f, b, k) ==> Apart(b, k, b, k);
  }

  lemma AddFormed(f: FreeLists, spans: set<Span>, b: nat, k: nat)
    requires k < |f| && Formed(f, spans) && Aligned(b, k) && InOneSpan(b, k, spans) && (b == 0 ==> k <= ZERO_ORDER)
    ensures Formed(With(f, b, k), spans)
  {
    assert forall c, j :: Has(With(f, b, k), c, j) ==> Has(f, c, j) || (c == b && j == k);
  }

  lemma MoreSpans(f: FreeLists, spans: set<Span>, s: Span)
    requires Formed(f, spans)
    ensures Formed(f, spans + {s})
  {
    forall b, k | InOneSpan(b, k, spans) ensures InOneSpan(b, k, spans + {s}) {
      var r :| r in spans && InSpan(b, k, r);
      assert r in spans + {s};
    }
  }
}
