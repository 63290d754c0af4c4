/** The handler tables as the kernel keeps them: one map for all cores, one map per core, updated in
    place (src/interrupts.rs).  Each method is one call run to its end; the interleavings of calls
    are in module Dispatch. */
module Interrupts {
  import opened Wrappers
  import opened Machine
  import opened Cpus
  import opened Dispatch
  import opened Paths

  /** The handler set before, if any, or the failed assertion or lookup that ends the run. */
  datatype Reply = Previous(h: Option<Handler>) | AlreadyExists | NoSlot

  function Lookup(m: map<IntId, Handler>, i: IntId): Option<Handler> { if i in m then Some(m[i]) else None }

  /** What one call of the API does to the tables from slot `c`; `None` is the failed assertion. */
  function Applied(t: Tables, c: nat, kind: CallKind): Option<Tables>
    requires c < |t.priv|
  {
    match kind
    case SetShared(i, h) =>
      if i in t.priv[c] then None
      else Some(t.(shared := t.shared[i := h], log := t.log + [AddShared(c, i, h)]))
    case DropShared(i) => Some(t.(shared := t.shared - {i}, log := t.log + [DelShared(c, i)]))
    case SetPrivate(i, h) =>
      if i in t.shared then None
      else Some(t.(priv := t.priv[c := t.priv[c][i := h]], log := t.log + [CheckShared(c, i)] + [AddPrivate(c, i, h)]))
    case DropPrivate(i) => Some(t.(priv := t.priv[c := t.priv[c] - {i}], log := t.log + [DelPrivate(c, i)]))
    case _ => Some(t)
  }

  /** Whether an interrupt that is in both tables of slot `c` got there by another core's call. */
  ghost predicate Explains(t: Tables, c: nat, i: IntId)
    requires c < |t.priv|
  {
    && (i in t.priv[c] ==> LastCheck(t.log, c, i) >= 0)
    && (i in t.priv[c] && i in t.shared ==> Overtaken(t, c, i))
  }

  class IrqTables {
    const ids: seq<bv64>
    var shared: map<IntId, Handler>
    var priv: seq<map<IntId, Handler>>
    ghost var log: seq<Access>

    ghost function View(): Tables
      reads this
    {
      Tables(map[], shared, priv, log)
    }

    /** The tables are what the log of calls says, and no interrupt is in both tables of a core
        unless another core put it there after this one had looked. */
    ghost predicate Valid()
      reads this
    {
      && |priv| == |ids| && Logged(View())
      && forall c, i :: 0 <= c < |priv| ==> Explains(View(), c, i)
    }

    constructor (ids: seq<bv64>)
      ensures Valid() && this.ids == ids && log == []
    {
      this.ids := ids;
      shared, priv, log := map[], seq(|ids|, _ => map[]), [];
    }

    method SetShared(affinity: bv64, i: IntId, h: Handler) returns (r: Reply)
      requires Valid()
      modifies this
      ensures Valid()
      ensures r.NoSlot? <==> affinity !in ids
      ensures r.AlreadyExists? <==> affinity in ids && old(LatestPrivate(log, IndexOf(ids, affinity).value, i)).Some?
      ensures r.Previous? ==> r.h == old(LatestShared(log, i))
      ensures r.Previous? ==>
              Some(View()) == Applied(old(View()), IndexOf(ids, affinity).value, CallKind.SetShared(i, h))
      ensures !r.Previous? ==> View() == old(View())
    {
      var slot := IndexOf(ids, affinity);
      if slot.None? { return NoSlot; }
      var c := slot.value;
      assert LatestPrivate(log, c, i) == Lookup(priv[c], i);
      if i in priv[c] { return AlreadyExists; }
      r := Previous(Lookup(shared, i));
      ghost var t := View();
      shared, log := shared[i := h], log + [AddShared(c, i, h)];
      LogKeepsTables(t, AddShared(c, i, h), View());
      SharedAdded(t, View(), c, i, h);
    }

    method RemoveShared(ghost c: nat, i: IntId) returns (r: Reply)
      requires Valid() && c < |ids|
      modifies this
      ensures Valid() && r == Previous(old(LatestShared(log, i)))
              && Some(View()) == Applied(old(View()), c, DropShared(i))
    {
      r := Previous(Lookup(shared, i));
      ghost var t := View();
      shared, log := shared - {i}, log + [DelShared(c, i)];
      LogKeepsTables(t, DelShared(c, i), View());
      forall d, j | 0 <= d < |priv| ensures Explains(View(), d, j) {
        Append(t.log, DelShared(c, i), d, j);
        assert Explains(t, d, j);
      }
    }

    method SetPrivate(affinity: bv64, i: IntId, h: Handler) returns (r: Reply)
      requires Valid()
      modifies this
      ensures Valid()
      ensures r.NoSlot? <==> affinity !in ids && old(LatestShared(log, i)).None?
      ensures r.AlreadyExists? <==> old(LatestShared(log, i)).Some?
      ensures r.Previous? ==> r.h == old(LatestPrivate(log, IndexOf(ids, affinity).value, i))
      ensures r.Previous? ==>
              Some(View()) == Applied(old(View()), IndexOf(ids, affinity).value, CallKind.SetPrivate(i, h))
      ensures !r.Previous? ==> View() == old(View())
    {
      if i in shared { return AlreadyExists; }
      var slot := IndexOf(ids, affinity);
      if slot.None? { return NoSlot; }
      var c := slot.value;
      r := Previous(Lookup(priv[c], i));
      ghost var t := View();
      ghost var u := t.(log := log + [CheckShared(c, i)]);
      priv := priv[c := priv[c][i := h]];
      log := log + [CheckShared(c, i)] + [AddPrivate(c, i, h)];
      LogKeepsTables(t, CheckShared(c, i), u);
      LogKeepsTables(u, AddPrivate(c, i, h), View());
      PrivateAdded(t, u, View(), c, i, h);
    }

    method RemovePrivate(affinity: bv64, i: IntId) returns (r: Reply)
      requires Valid()
      modifies this
      ensures Valid()
      ensures r.NoSlot? <==> affinity !in ids
      ensures !r.AlreadyExists?
      ensures r.Previous? ==> r.h == old(LatestPrivate(log, IndexOf(ids, affinity).value, i))
      ensures r.Previous? ==> Some(View()) == Applied(old(View()), IndexOf(ids, affinity).value, DropPrivate(i))
      ensures !r.Previous? ==> View() == old(View())
    {
      var slot := IndexOf(ids, affinity);
      if slot.None? { return NoSlot; }
      var c := slot.value;
      r := Previous(Lookup(priv[c], i));
      ghost var t := View();
      priv, log := priv[c := priv[c] - {i}], log + [DelPrivate(c, i)];
      LogKeepsTables(t, DelPrivate(c, i), View());
      forall d, j | 0 <= d < |priv| ensures Explains(View(), d, j) {
        Append(t.log, DelPrivate(c, i), d, j);
        assert Explains(t, d, j);
      }
    }

    /** The choice in `handle_irq`: no handler is the panic. */
    method Find(affinity: bv64, i: IntId) returns (h: Option<Handler>)
      requires Valid() && affinity in ids
      ensures h == Chosen(log, IndexOf(ids, affinity).value, i)
    {
      var c := IndexOf(ids, affinity).value;
      assert Lookup(priv[c], i) == LatestPrivate(log, c, i) && Lookup(shared, i) == LatestShared(log, i);
      return if i in priv[c] then Some(priv[c][i]) else Lookup(shared, i);
    }
  }

  lemma SharedAdded(t: Tables, t': Tables, c: nat, i: IntId, h: Handler)
    requires c < |t.priv| && i !in t.priv[c]
    requires forall d, j :: 0 <= d < |t.priv| ==> Explains(t, d, j)
    requires t' == t.(shared := t.shared[i := h], log := t.log + [AddShared(c, i, h)])
    ensures forall d, j :: 0 <= d < |t.priv| ==> Explains(t', d, j)
  {
    forall d, j | 0 <= d < |t.priv| ensures Explains(t', d, j) {
      Append(t.log, AddShared(c, i, h), d, j);
      CheckInLog(t.log, d, j);
      assert Explains(t, d, j);
    }
  }

  lemma PrivateAdded(t: Tables, u: Tables, t': Tables, c: nat, i: IntId, h: Handler)
    requires c < |t.priv| && i !in t.shared
    requires forall d, j :: 0 <= d < |t.priv| ==> Explains(t, d, j)
    requires u == t.(log := t.log + [CheckShared(c, i)])
    requires t' == u.(priv := t.priv[c := t.priv[c][i := h]], log := u.log + [AddPrivate(c, i, h)])
    ensures forall d, j :: 0 <= d < |t.priv| ==> Explains(t', d, j)
  {
    forall d, j | 0 <= d < |t.priv| ensures Explains(t', d, j) {
      Append(t.log, CheckShared(c, i), d, j);
      Append(u.log, AddPrivate(c, i, h), d, j);
      assert Explains(t, d, j);
    }
  }

  // ---------------------------------------------------------------- the same calls, step by step

  lemma SetSharedAlone(cfg: Config, g: Globals, me: Core, c: nat, i: IntId, h: Handler)
    requires Calling(g, me, c, SetShared(i, h)) && Table !in g.tables.owner && i !in g.tables.priv[c]
    ensures Gets(cfg, c, Effect(g, me),
                 Effect(g.(tables := Applied(g.tables, c, SetShared(i, h)).value), me.(call := Idle)))
  {
    var k, a := SetShared(i, h), Effect(g, me);
    var g' := g.(tables := Applied(g.tables, c, k).value);
    AtMask(cfg, g, me, c, k);
    AtAccess(cfg, g, me, c, k, 1, AssertNoPrivate(i), g);
    GetsThen(cfg, c, a, Effect(g, Masking(me, k, 1)), Effect(g, Masking(me, k, 2)));
    AtAcquire(cfg, g, me, c, k, 2, Table);
    GetsThen(cfg, c, a, Effect(g, Masking(me, k, 2)), Effect(Locked(g, c, Table), Masking(me, k, 3)));
    AtAccess(cfg, Locked(g, c, Table), me, c, k, 3, InsertShared(i, h), Locked(g', c, Table));
    GetsThen(cfg, c, a, Effect(Locked(g, c, Table), Masking(me, k, 3)),
             Effect(Locked(g', c, Table), Masking(me, k, 4)));
    AtRelease(cfg, g', me, c, k, 4, Table);
    GetsThen(cfg, c, a, Effect(Locked(g', c, Table), Masking(me, k, 4)), Effect(g', Masking(me, k, 5)));
    AtRestore(cfg, g', me, c, k, 5);
    GetsThen(cfg, c, a, Effect(g', Masking(me, k, 5)), Effect(g', me.(call := Idle)));
  }

  lemma DropSharedAlone(cfg: Config, g: Globals, me: Core, c: nat, i: IntId)
    requires Calling(g, me, c, DropShared(i)) && Table !in g.tables.owner
    ensures Gets(cfg, c, Effect(g, me),
                 Effect(g.(tables := Applied(g.tables, c, DropShared(i)).value), me.(call := Idle)))
  {
    var k, a := DropShared(i), Effect(g, me);
    var g' := g.(tables := Applied(g.tables, c, k).value);
    AtMask(cfg, g, me, c, k);
    AtAcquire(cfg, g, me, c, k, 1, Table);
    GetsThen(cfg, c, a, Effect(g, Masking(me, k, 1)), Effect(Locked(g, c, Table), Masking(me, k, 2)));
    AtAccess(cfg, Locked(g, c, Table), me, c, k, 2, RemoveShared(i), Locked(g', c, Table));
    GetsThen(cfg, c, a, Effect(Locked(g, c, Table), Masking(me, k, 2)),
             Effect(Locked(g', c, Table), Masking(me, k, 3)));
    AtRelease(cfg, g', me, c, k, 3, Table);
    GetsThen(cfg, c, a, Effect(Locked(g', c, Table), Masking(me, k, 3)), Effect(g', Masking(me, k, 4)));
    AtRestore(cfg, g', me, c, k, 4);
    GetsThen(cfg, c, a, Effect(g', Masking(me, k, 4)), Effect(g', me.(call := Idle)));
  }

  /** The tables once a core has found no shared handler for `i`. */
  function Checked(t: Tables, c: nat, i: IntId): Tables { t.(log := t.log + [CheckShared(c, i)]) }

  /** `set_private_irq_handler` up to the point where it has checked and released the table. */
  lemma SetPrivateChecks(cfg: Config, g: Globals, me: Core, c: nat, i: IntId, h: Handler)
    requires Calling(g, me, c, SetPrivate(i, h)) && Table !in g.tables.owner && i !in g.tables.shared
    ensures Gets(cfg, c, Effect(g, me), Effect(g.(tables := Checked(g.tables, c, i)), Masking(me, SetPrivate(i, h), 4)))
  {
    var k, a := SetPrivate(i, h), Effect(g, me);
    var u := g.(tables := Checked(g.tables, c, i));
    AtMask(cfg, g, me, c, k);
    AtAcquire(cfg, g, me, c, k, 1, Table);
    GetsThen(cfg, c, a, Effect(g, Masking(me, k, 1)), Effect(Locked(g, c, Table), Masking(me, k, 2)));
    AtAccess(cfg, Locked(g, c, Table), me, c, k, 2, AssertNoShared(i), Locked(u, c, Table));
    GetsThen(cfg, c, a, Effect(Locked(g, c, Table), Masking(me, k, 2)), Effect(Locked(u, c, Table), Masking(me, k, 3)));
    AtRelease(cfg, u, me, c, k, 3, Table);
    GetsThen(cfg, c, a, Effect(Locked(u, c, Table), Masking(me, k, 3)), Effect(u, Masking(me, k, 4)));
  }

  lemma SetPrivateAlone(cfg: Config, g: Globals, me: Core, c: nat, i: IntId, h: Handler)
    requires Calling(g, me, c, SetPrivate(i, h)) && Table !in g.tables.owner && i !in g.tables.shared
    ensures Gets(cfg, c, Effect(g, me),
                 Effect(g.(tables := Applied(g.tables, c, SetPrivate(i, h)).value), me.(call := Idle)))
  {
    var k, a := SetPrivate(i, h), Effect(g, me);
    var u := g.(tables := Checked(g.tables, c, i));
    var g' := g.(tables := Applied(g.tables, c, k).value);
    SetPrivateChecks(cfg, g, me, c, i, h);
    AtAccess(cfg, u, me, c, k, 4, InsertPrivate(i, h), g');
    GetsThen(cfg, c, a, Effect(u, Masking(me, k, 4)), Effect(g', Masking(me, k, 5)));
    AtRestore(cfg, g', me, c, k, 5);
    GetsThen(cfg, c, a, Effect(g', Masking(me, k, 5)), Effect(g', me.(call := Idle)));
  }

  lemma DropPrivateAlone(cfg: Config, g: Globals, me: Core, c: nat, i: IntId)
    requires Calling(g, me, c, DropPrivate(i))
    ensures Gets(cfg, c, Effect(g, me),
                 Effect(g.(tables := Applied(g.tables, c, DropPrivate(i)).value), me.(call := Idle)))
  {
    var k, a := DropPrivate(i), Effect(g, me);
    var g' := g.(tables := Applied(g.tables, c, k).value);
    AtMask(cfg, g, me, c, k);
    AtAccess(cfg, g, me, c, k, 1, RemovePrivate(i), g');
    GetsThen(cfg, c, a, Effect(g, Masking(me, k, 1)), Effect(g', Masking(me, k, 2)));
    AtRestore(cfg, g', me, c, k, 2);
    GetsThen(cfg, c, a, Effect(g', Masking(me, k, 2)), Effect(g', me.(call := Idle)));
  }

  lemma SetSharedFails(cfg: Config, g: Globals, me: Core, c: nat, i: IntId, h: Handler)
    requires Calling(g, me, c, SetShared(i, h)) && i in g.tables.priv[c]
    ensures Gets(cfg, c, Effect(g, me), Effect(g.(panic := Some(PrivateExists)), Masking(me, SetShared(i, h), 1)))
  {
    var k := SetShared(i, h);
    var b, d := Effect(g, Masking(me, k, 1)), Effect(g.(panic := Some(PrivateExists)), Masking(me, k, 1));
    AtMask(cfg, g, me, c, k);
    GetsStep(cfg, c, b, Go, d);
    GetsThen(cfg, c, Effect(g, me), b, d);
  }

  lemma SetPrivateFails(cfg: Config, g: Globals, me: Core, c: nat, i: IntId, h: Handler)
    requires Calling(g, me, c, SetPrivate(i, h)) && Table !in g.tables.owner && i in g.tables.shared
    ensures Gets(cfg, c, Effect(g, me),
                 Effect(Locked(g, c, Table).(panic := Some(SharedExists)), Masking(me, SetPrivate(i, h), 2)))
  {
    var k := SetPrivate(i, h);
    var l := Locked(g, c, Table);
    var b, d := Effect(l, Masking(me, k, 2)), Effect(l.(panic := Some(SharedExists)), Masking(me, k, 2));
    AtMask(cfg, g, me, c, k);
    AtAcquire(cfg, g, me, c, k, 1, Table);
    GetsThen(cfg, c, Effect(g, me), Effect(g, Masking(me, k, 1)), b);
    GetsStep(cfg, c, b, Go, d);
    GetsThen(cfg, c, Effect(g, me), b, d);
  }

  /** A call that runs to its end without interference does to the tables of the step system what the
      method above does to the tables in place, and panics in the same cases. */
  lemma CallsAreAtomicAlone(cfg: Config, g: Globals, me: Core, c: nat, kind: CallKind) returns (e: Effect)
    requires Calling(g, me, c, kind) && Table !in g.tables.owner
    requires kind.SetShared? || kind.DropShared? || kind.SetPrivate? || kind.DropPrivate?
    ensures Gets(cfg, c, Effect(g, me), e)
    ensures match Applied(g.tables, c, kind)
            case Some(t) => e == Effect(g.(tables := t), me.(call := Idle))
            case None => e.Effect? && e.g.panic.Some?
  {
    match kind
    case SetShared(i, h) =>
      if i in g.tables.priv[c] {
        SetSharedFails(cfg, g, me, c, i, h);
        e := Effect(g.(panic := Some(PrivateExists)), Masking(me, kind, 1));
      } else {
        SetSharedAlone(cfg, g, me, c, i, h);
        e := Effect(g.(tables := Applied(g.tables, c, kind).value), me.(call := Idle));
      }
    case DropShared(i) =>
      DropSharedAlone(cfg, g, me, c, i);
      e := Effect(g.(tables := Applied(g.tables, c, kind).value), me.(call := Idle));
    case SetPrivate(i, h) =>
      if i in g.tables.shared {
        SetPrivateFails(cfg, g, me, c, i, h);
        e := Effect(Locked(g, c, Table).(panic := Some(SharedExists)), Masking(me, kind, 2));
      } else {
        SetPrivateAlone(cfg, g, me, c, i, h);
        e := Effect(g.(tables := Applied(g.tables, c, kind).value), me.(call := Idle));
      }
    case DropPrivate(i) =>
      DropPrivateAlone(cfg, g, me, c, i);
      e := Effect(g.(tables := Applied(g.tables, c, kind).value), me.(call := Idle));
  }
}
