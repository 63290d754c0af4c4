/** The handler tables under any interleaving: which handler is chosen, when a removed handler is
    gone for good, and how an interrupt can end up in both tables. */
module Dispatch {
  import opened Wrappers
  import opened Machine
  import opened Frames
  import opened Locks

  // ---------------------------------------------------------------- reading the log backwards

  /** The shared handler of `i`: the latest registration, unless it was removed since. */
  function LatestShared(log: seq<Access>, i: IntId): Option<Handler> {
    if log == [] then None
    else
      var a := log[|log| - 1];
      if a.AddShared? && a.i == i then Some(a.h)
      else if a.DelShared? && a.i == i then None
      else LatestShared(log[..|log| - 1], i)
  }

  function LatestPrivate(log: seq<Access>, c: nat, i: IntId): Option<Handler> {
    if log == [] then None
    else
      var a := log[|log| - 1];
      if a.AddPrivate? && a.c == c && a.i == i then Some(a.h)
      else if a.DelPrivate? && a.c == c && a.i == i then None
      else LatestPrivate(log[..|log| - 1], c, i)
  }

  /** The handler that core `c` owes interrupt `i`: its own one first, else the shared one. */
  function Chosen(log: seq<Access>, c: nat, i: IntId): Option<Handler> {
    if LatestPrivate(log, c, i).Some? then LatestPrivate(log, c, i) else LatestShared(log, i)
  }

  /** When core `c` last found no shared handler for `i`, as a position in the log. */
  function LastCheck(log: seq<Access>, c: nat, i: IntId): int {
    if log == [] then -1
    else if log[|log| - 1] == CheckShared(c, i) then |log| - 1
    else LastCheck(log[..|log| - 1], c, i)
  }

  /** When a shared handler for `i` was last registered. */
  function LastAdd(log: seq<Access>, i: IntId): (n: int)
    ensures -1 <= n < |log| && (n >= 0 ==> log[n].AddShared? && log[n].i == i)
  {
    if log == [] then -1
    else if log[|log| - 1].AddShared? && log[|log| - 1].i == i then |log| - 1
    else LastAdd(log[..|log| - 1], i)
  }

  lemma Append(log: seq<Access>, a: Access, c: nat, i: IntId)
    ensures LatestShared(log + [a], i) ==
              if a.AddShared? && a.i == i then Some(a.h)
              else if a.DelShared? && a.i == i then None else LatestShared(log, i)
    ensures LatestPrivate(log + [a], c, i) ==
              if a.AddPrivate? && a.c == c && a.i == i then Some(a.h)
              else if a.DelPrivate? && a.c == c && a.i == i then None else LatestPrivate(log, c, i)
    ensures LastCheck(log + [a], c, i) == if a == CheckShared(c, i) then |log| else LastCheck(log, c, i)
    ensures LastAdd(log + [a], i) == if a.AddShared? && a.i == i then |log| else LastAdd(log, i)
  {
    assert (log + [a])[..|log|] == log;
  }

  lemma {:induction false} CheckInLog(log: seq<Access>, c: nat, i: IntId)
    ensures -1 <= LastCheck(log, c, i) < |log|
  {
    if log != [] && log[|log| - 1] != CheckShared(c, i) { CheckInLog(log[..|log| - 1], c, i); }
  }

  // ---------------------------------------------------------------- invariants

  /** The tables are what the log says. */
  ghost predicate Logged(t: Tables) {
    && (forall i :: LatestShared(t.log, i) == if i in t.shared then Some(t.shared[i]) else None)
    && forall c, i :: 0 <= c < |t.priv| ==>
         LatestPrivate(t.log, c, i) == if i in t.priv[c] then Some(t.priv[c][i]) else None
  }

  /** Core `me` has found no shared handler for `i` and has not registered its own yet. */
  predicate PastCheck(me: Core, i: IntId) {
    me.call.Busy? && me.call.kind.SetPrivate? && me.call.kind.i == i && 3 <= me.call.at <= 4
  }

  /** Core `me` has found no private handler of its own and has not registered the shared one yet. */
  predicate PastNoPrivate(me: Core, i: IntId) {
    me.call.Busy? && me.call.kind.SetShared? && me.call.kind.i == i && 2 <= me.call.at <= 3
  }

  /** Interrupt `i` in both tables means: another core added the shared entry after `c` looked. */
  ghost predicate Overtaken(t: Tables, c: nat, i: IntId) {
    && 0 <= LastCheck(t.log, c, i) < LastAdd(t.log, i)
    && t.log[LastAdd(t.log, i)].c != c
  }

  /** What holds of core `c` and interrupt `i` in every state. */
  ghost predicate EntryInv(t: Tables, me: Core, c: nat, i: IntId)
    requires c < |t.priv|
  {
    && (PastNoPrivate(me, i) ==> i !in t.priv[c])
    && (i in t.priv[c] || PastCheck(me, i) ==> LastCheck(t.log, c, i) >= 0)
    && (i in t.shared && (i in t.priv[c] || PastCheck(me, i)) ==> Overtaken(t, c, i))
  }

  ghost predicate TableInv(t: Tables, me: Core, c: nat)
    requires c < |t.priv|
  {
    && (me.handler.Body? && me.handler.shared ==> me.handler.i in t.shared && t.shared[me.handler.i] == me.handler.h)
    && (me.handler.SeekTable? || me.handler.SeekShared? ==> me.handler.i !in t.priv[c])
    && forall i :: EntryInv(t, me, c, i)
  }

  ghost predicate AllTables(cfg: Config, s: State) {
    && AllLocks(cfg, s) && Logged(s.g.tables)
    && forall c :: 0 <= c < cfg.count ==> TableInv(s.g.tables, s.cores[c], c)
  }

  // ---------------------------------------------------------------- steps

  /** The access to the tables that core `me` makes next, if any. */
  function NextAccess(me: Core): Option<TableOp> {
    if me.handler.Quiet? && me.call.Busy? && CallInstr(me.call.kind, me.call.at).Tab?
    then Some(CallInstr(me.call.kind, me.call.at).t) else None
  }

  lemma AccessStep(cfg: Config, g: Globals, me: Core, c: nat, ch: Choice)
    requires c < |g.tables.priv| && g.panic.None? && NextAccess(me).Some?
    ensures var r, q := Exec(cfg, g, me, c, ch), ExecTable(g, me, c, NextAccess(me).value);
            && r.Effect? && r.g == q.g
            && r.me == if q.g.panic.None? then me.(call := Busy(me.call.kind, me.call.at + 1)) else me
  {
    TableFrame(g, me, c, NextAccess(me).value);
  }

  lemma NoAccessStep(cfg: Config, g: Globals, me: Core, c: nat, ch: Choice)
    requires c < |g.tables.priv| && NextAccess(me).None?
    ensures var r := Exec(cfg, g, me, c, ch);
            r.Effect? ==> r.g.tables == g.tables.(owner := r.g.tables.owner)
  {
    if !me.handler.Quiet? {
      HandlerFrame(cfg, g, me, c, ch);
    } else if me.call.Busy? {
      InstrFrame(cfg, g, me, c, CallInstr(me.call.kind, me.call.at));
    } else {
      PlanGroup(cfg, g, me.place, ch);
      var plan := PlanOf(cfg, g, me.place, ch);
      if plan.Do? { InstrFrame(cfg, g, me, c, plan.x); }
    }
  }

  /** One access keeps the tables equal to what the log says. */
  lemma LogKeepsTables(t: Tables, a: Access, t': Tables)
    requires Logged(t) && t'.log == t.log + [a] && |t'.priv| == |t.priv| && a.c < |t.priv|
    requires t'.shared == match a
                          case AddShared(_, i, h) => t.shared[i := h]
                          case DelShared(_, i) => t.shared - {i}
                          case _ => t.shared
    requires t'.priv == match a
                        case AddPrivate(c, i, h) => t.priv[c := t.priv[c][i := h]]
                        case DelPrivate(c, i) => t.priv[c := t.priv[c] - {i}]
                        case _ => t.priv
    ensures Logged(t')
  {
    forall i ensures LatestShared(t'.log, i) == if i in t'.shared then Some(t'.shared[i]) else None {
      Append(t.log, a, 0, i);
    }
    forall d: nat, i | d < |t.priv|
      ensures LatestPrivate(t'.log, d, i) == if i in t'.priv[d] then Some(t'.priv[d][i]) else None
    {
      Append(t.log, a, d, i);
    }
  }

  lemma AccessLogged(g: Globals, me: Core, c: nat, x: TableOp)
    requires c < |g.tables.priv| && Logged(g.tables)
    ensures Logged(ExecTable(g, me, c, x).g.tables)
  {
    var t, t' := g.tables, ExecTable(g, me, c, x).g.tables;
    match x
    case AssertNoPrivate(_) =>
    case AssertNoShared(i) => if t' != t { LogKeepsTables(t, CheckShared(c, i), t'); }
    case InsertShared(i, h) => LogKeepsTables(t, AddShared(c, i, h), t');
    case RemoveShared(i) => LogKeepsTables(t, DelShared(c, i), t');
    case InsertPrivate(i, h) => LogKeepsTables(t, AddPrivate(c, i, h), t');
    case RemovePrivate(i) => LogKeepsTables(t, DelPrivate(c, i), t');
  }

  // The core that runs.

  lemma CheckKeepsEntry(g: Globals, me: Core, c: nat, x: TableOp, i: IntId)
    requires c < |g.tables.priv| && g.panic.None? && EntryInv(g.tables, me, c, i)
    requires NextAccess(me) == Some(x) && ExecTable(g, me, c, x).g.panic.None?
    requires x.AssertNoPrivate? || x.AssertNoShared?
    ensures EntryInv(ExecTable(g, me, c, x).g.tables, me.(call := Busy(me.call.kind, me.call.at + 1)), c, i)
  {
    if x.AssertNoShared? { Append(g.tables.log, CheckShared(c, x.i), c, i); }
  }

  /** Another entry of the log that does not concern `i` and `c`. */
  lemma OvertakenStays(t: Tables, a: Access, c: nat, i: IntId)
    requires Overtaken(t, c, i) && a != CheckShared(c, i) && !(a.AddShared? && a.i == i)
    ensures Overtaken(t.(log := t.log + [a]), c, i)
  {
    Append(t.log, a, c, i);
  }

  lemma AddKeepsEntry(t: Tables, me: Core, c: nat, j: IntId, h: Handler, i: IntId)
    requires c < |t.priv| && EntryInv(t, me, c, i) && me.call == Busy(SetShared(j, h), 3)
    ensures EntryInv(t.(shared := t.shared[j := h], log := t.log + [AddShared(c, j, h)]),
                     me.(call := Busy(SetShared(j, h), 4)), c, i)
  {
    var a := AddShared(c, j, h);
    Append(t.log, a, c, i);
    if i != j && Overtaken(t, c, i) { OvertakenStays(t, a, c, i); }
  }

  lemma RemoveKeepsEntry(t: Tables, me: Core, c: nat, j: IntId, i: IntId)
    requires c < |t.priv| && EntryInv(t, me, c, i) && me.call == Busy(DropShared(j), 2)
    ensures EntryInv(t.(shared := t.shared - {j}, log := t.log + [DelShared(c, j)]),
                     me.(call := Busy(DropShared(j), 3)), c, i)
  {
    var a := DelShared(c, j);
    Append(t.log, a, c, i);
    if Overtaken(t, c, i) { OvertakenStays(t, a, c, i); }
  }

  lemma PrivateKeepsEntry(g: Globals, me: Core, c: nat, x: TableOp, i: IntId)
    requires c < |g.tables.priv| && g.panic.None? && EntryInv(g.tables, me, c, i)
    requires NextAccess(me) == Some(x) && ExecTable(g, me, c, x).g.panic.None?
    requires x.InsertPrivate? || x.RemovePrivate?
    ensures EntryInv(ExecTable(g, me, c, x).g.tables, me.(call := Busy(me.call.kind, me.call.at + 1)), c, i)
  {
    Append(g.tables.log, if x.InsertPrivate? then AddPrivate(c, x.i, x.h) else DelPrivate(c, x.i), c, i);
  }

  lemma AccessKeepsEntry(g: Globals, me: Core, c: nat, x: TableOp, i: IntId)
    requires c < |g.tables.priv| && g.panic.None? && EntryInv(g.tables, me, c, i)
    requires NextAccess(me) == Some(x) && ExecTable(g, me, c, x).g.panic.None?
    ensures EntryInv(ExecTable(g, me, c, x).g.tables, me.(call := Busy(me.call.kind, me.call.at + 1)), c, i)
  {
    if x.AssertNoPrivate? || x.AssertNoShared? { CheckKeepsEntry(g, me, c, x, i); }
    else if x.InsertShared? { AddKeepsEntry(g.tables, me, c, x.i, x.h, i); }
    else if x.RemoveShared? { RemoveKeepsEntry(g.tables, me, c, x.i, i); }
    else { PrivateKeepsEntry(g, me, c, x, i); }
  }

  // Every other core.

  lemma AddKeepsOther(t: Tables, you: Core, c: nat, d: nat, j: IntId, h: Handler, i: IntId)
    requires d < |t.priv| && c != d && EntryInv(t, you, d, i)
    ensures EntryInv(t.(shared := t.shared[j := h], log := t.log + [AddShared(c, j, h)]), you, d, i)
  {
    var a := AddShared(c, j, h);
    Append(t.log, a, d, i);
    CheckInLog(t.log, d, i);
    if i != j && Overtaken(t, d, i) { OvertakenStays(t, a, d, i); }
  }

  lemma LogKeepsOther(t: Tables, t': Tables, a: Access, you: Core, d: nat, i: IntId)
    requires d < |t.priv| && EntryInv(t, you, d, i) && !a.AddShared? && a.c != d
    requires t'.log == t.log + [a] && |t'.priv| == |t.priv| && t'.priv[d] == t.priv[d]
             && (i in t'.shared ==> i in t.shared)
    ensures EntryInv(t', you, d, i)
  {
    Append(t.log, a, d, i);
    if Overtaken(t, d, i) { OvertakenStays(t, a, d, i); }
  }

  lemma AccessKeepsOtherEntry(g: Globals, me: Core, c: nat, x: TableOp, you: Core, d: nat, i: IntId)
    requires c < |g.tables.priv| && d < |g.tables.priv| && c != d && g.panic.None?
    requires EntryInv(g.tables, you, d, i)
    ensures EntryInv(ExecTable(g, me, c, x).g.tables, you, d, i)
  {
    var t, t' := g.tables, ExecTable(g, me, c, x).g.tables;
    match x
    case AssertNoPrivate(_) =>
    case AssertNoShared(j) => if t' != t { LogKeepsOther(t, t', CheckShared(c, j), you, d, i); }
    case InsertShared(j, h) => AddKeepsOther(t, you, c, d, j, h, i);
    case RemoveShared(j) => LogKeepsOther(t, t', DelShared(c, j), you, d, i);
    case InsertPrivate(j, h) => LogKeepsOther(t, t', AddPrivate(c, j, h), you, d, i);
    case RemovePrivate(j) => LogKeepsOther(t, t', DelPrivate(c, j), you, d, i);
  }

  /** Without an access no core gets past a check, and `handle_irq` finds what the tables hold. */
  lemma NoAccessKeeps(cfg: Config, g: Globals, me: Core, c: nat, ch: Choice)
    requires c < |g.tables.priv| && g.panic.None? && NextAccess(me).None? && TableInv(g.tables, me, c)
    ensures var r := Exec(cfg, g, me, c, ch);
            r.Effect? ==>
              |r.g.tables.priv| == |g.tables.priv| && TableInv(r.g.tables, r.me, c)
  {
    NoAccessStep(cfg, g, me, c, ch);
    var r := Exec(cfg, g, me, c, ch);
    if r.Effect? {
      if me.handler.Quiet? { ThreadPast(cfg, g, me, c, ch); } else { HandlerFrame(cfg, g, me, c, ch); }
      forall i ensures EntryInv(r.g.tables, r.me, c, i) { assert EntryInv(g.tables, me, c, i); }
      if !me.handler.Quiet? { HandlerFinds(cfg, g, me, c, ch); }
    }
  }

  lemma ThreadPast(cfg: Config, g: Globals, me: Core, c: nat, ch: Choice)
    requires c < |g.tables.priv| && g.panic.None? && NextAccess(me).None? && me.handler.Quiet?
    ensures var r := ThreadStep(cfg, g, me, c, ch);
            r.Effect? ==>
              && r.me.handler.Quiet?
              && forall i ::
                   && (PastCheck(r.me, i) ==> PastCheck(me, i))
                   && (PastNoPrivate(r.me, i) ==> PastNoPrivate(me, i))
  {
    if me.call.Busy? {
      InstrFrame(cfg, g, me, c, CallInstr(me.call.kind, me.call.at));
    } else {
      var plan := PlanOf(cfg, g, me.place, ch);
      if plan.Do? { InstrFrame(cfg, g, me, c, plan.x); }
    }
  }

  /** What `handle_irq` runs next is what the tables say. */
  lemma HandlerFinds(cfg: Config, g: Globals, me: Core, c: nat, ch: Choice)
    requires c < |g.tables.priv| && g.panic.None? && !me.handler.Quiet? && TableInv(g.tables, me, c)
    ensures var r := HandlerStep(cfg, g, me, c, ch);
            r.Effect? ==>
              && (r.me.handler.Body? && r.me.handler.shared ==>
                    r.me.handler.i in g.tables.shared && g.tables.shared[r.me.handler.i] == r.me.handler.h)
              && (r.me.handler.SeekTable? || r.me.handler.SeekShared? ==> r.me.handler.i !in g.tables.priv[c])
  {
    if me.handler.Body? {
      InstrFrame(cfg, g, me, c, BodyInstr(cfg.platform, me.handler.h, me.handler.i, me.handler.at));
    }
  }

  /** Core `c` steps: its own invariant. */
  lemma ExecKeepsTables(cfg: Config, g: Globals, me: Core, c: nat, ch: Choice)
    requires c < |g.tables.priv| && g.panic.None? && Logged(g.tables) && TableInv(g.tables, me, c)
    ensures var r := Exec(cfg, g, me, c, ch);
            r.Effect? ==> |r.g.tables.priv| == |g.tables.priv| && Logged(r.g.tables) && TableInv(r.g.tables, r.me, c)
  {
    if NextAccess(me).Some? {
      var x := NextAccess(me).value;
      AccessStep(cfg, g, me, c, ch);
      AccessLogged(g, me, c, x);
      TableFrame(g, me, c, x);
      var r := Exec(cfg, g, me, c, ch);
      forall i ensures EntryInv(r.g.tables, r.me, c, i) {
        assert EntryInv(g.tables, me, c, i);
        if r.g.panic.None? { AccessKeepsEntry(g, me, c, x, i); }
      }
    } else {
      NoAccessStep(cfg, g, me, c, ch);
      NoAccessKeeps(cfg, g, me, c, ch);
    }
  }

  /** Core `c` steps: the invariant of another core `d`.  While `d` runs a shared handler it holds
      the table lock, so `c` cannot change the shared table. */
  lemma ExecKeepsOthers(cfg: Config, g: Globals, me: Core, c: nat, ch: Choice, you: Core, d: nat)
    requires c < |g.tables.priv| && d < |g.tables.priv| && c != d && g.panic.None?
    requires LockInv(g.tables.owner, me, c) && LockInv(g.tables.owner, you, d) && TableInv(g.tables, you, d)
    ensures var r := Exec(cfg, g, me, c, ch);
            r.Effect? ==>
              |r.g.tables.priv| == |g.tables.priv| && TableInv(r.g.tables, you, d)
  {
    if NextAccess(me).Some? {
      var x := NextAccess(me).value;
      AccessStep(cfg, g, me, c, ch);
      TableFrame(g, me, c, x);
      var r := Exec(cfg, g, me, c, ch);
      if you.handler.Body? && you.handler.shared {
        assert Holds(you, Table);
        assert !Holds(me, Table);
      }
      forall i ensures EntryInv(r.g.tables, you, d, i) {
        assert EntryInv(g.tables, you, d, i);
        AccessKeepsOtherEntry(g, me, c, x, you, d, i);
      }
    } else {
      NoAccessStep(cfg, g, me, c, ch);
      var r := Exec(cfg, g, me, c, ch);
      if r.Effect? { forall i ensures EntryInv(r.g.tables, you, d, i) { assert EntryInv(g.tables, you, d, i); } }
    }
  }

  // ---------------------------------------------------------------- every state of every run

  lemma StepKeepsTables(cfg: Config, s: State, e: Event)
    requires AllTables(cfg, s) && Step(cfg, s, e).Some?
    ensures AllTables(cfg, Step(cfg, s, e).value)
  {
    StepKeepsLocks(cfg, s, e);
    match e
    case Run(c, ch) =>
      var s' := Step(cfg, s, e).value;
      ExecKeepsTables(cfg, s.g, s.cores[c], c, ch);
      forall d | 0 <= d < cfg.count && d != c ensures TableInv(s'.g.tables, s'.cores[d], d) {
        ExecKeepsOthers(cfg, s.g, s.cores[c], c, ch, s.cores[d], d);
      }
    case _ => QuietEventKeeps(cfg, s, e);
  }

  /** Interrupts, devices and power-up do not touch the tables. */
  lemma QuietEventKeeps(cfg: Config, s: State, e: Event)
    requires AllTables(cfg, s) && Step(cfg, s, e).Some? && !e.Run?
    ensures var s' := Step(cfg, s, e).value;
            s'.g.tables == s.g.tables && |s'.cores| == cfg.count
            && forall c :: 0 <= c < cfg.count ==> TableInv(s'.g.tables, s'.cores[c], c)
  {
    var s' := Step(cfg, s, e).value;
    assert s'.g.tables == s.g.tables;
    forall c | 0 <= c < cfg.count ensures TableInv(s'.g.tables, s'.cores[c], c) {
      assert TableInv(s.g.tables, s.cores[c], c);
      forall i ensures EntryInv(s'.g.tables, s'.cores[c], c, i) { assert EntryInv(s.g.tables, s.cores[c], c, i); }
    }
  }

  lemma {:induction false} TablesAlways(cfg: Config, s: State, es: seq<Event>)
    requires KernelInit(cfg, s) || ClientInit(cfg, s)
    requires After(cfg, s, es).Some?
    ensures AllTables(cfg, After(cfg, s, es).value)
    decreases |es|
  {
    if es == [] {
      LocksAlways(cfg, s, []);
    } else {
      TablesAlways(cfg, s, es[..|es| - 1]);
      StepKeepsTables(cfg, After(cfg, s, es[..|es| - 1]).value, es[|es| - 1]);
    }
  }

  // ---------------------------------------------------------------- dispatch

  /** What the log of a run owes an interrupt is what `handle_irq` does with it: a handler that is
      about to run is the chosen one, looked up in the table it came from, and the panic for an
      unexpected interrupt means that there was none. */
  lemma DispatchRefinement(cfg: Config, s: State, es: seq<Event>, c: nat, ch: Choice)
    requires KernelInit(cfg, s) || ClientInit(cfg, s)
    requires After(cfg, s, es).Some? && c < cfg.count
    requires Step(cfg, After(cfg, s, es).value, Run(c, ch)).Some?
    ensures var t := After(cfg, s, es).value;
            var u := Step(cfg, t, Run(c, ch)).value;
            var log := u.g.tables.log;
            && (!t.cores[c].handler.Body? && u.cores[c].handler.Body? ==>
                  var Body(i, h, shared, at) := u.cores[c].handler;
                  at == 0 && Chosen(log, c, i) == Some(h) && shared == LatestPrivate(log, c, i).None?)
            && (forall i :: u.g.panic == Some(UnexpectedIrq(c, i)) ==> Chosen(log, c, i) == None)
  {
    TablesAlways(cfg, s, es);
    var t := After(cfg, s, es).value;
    if !t.cores[c].handler.Quiet? {
      HandlerFrame(cfg, t.g, t.cores[c], c, ch);
      HandlerChooses(cfg, t.g, t.cores[c], c, ch);
    } else {
      ThreadStaysOut(cfg, t.g, t.cores[c], c, ch);
    }
  }

  lemma HandlerChooses(cfg: Config, g: Globals, me: Core, c: nat, ch: Choice)
    requires c < |g.tables.priv| && g.panic.None? && !me.handler.Quiet? && TableInv(g.tables, me, c) && Logged(g.tables)
    requires HandlerStep(cfg, g, me, c, ch).Effect?
    ensures var r := HandlerStep(cfg, g, me, c, ch);
            var log := g.tables.log;
            && (!me.handler.Body? && r.me.handler.Body? ==>
                  var Body(i, h, shared, at) := r.me.handler;
                  at == 0 && Chosen(log, c, i) == Some(h) && shared == LatestPrivate(log, c, i).None?)
            && (forall i :: r.g.panic == Some(UnexpectedIrq(c, i)) ==> Chosen(log, c, i) == None)
  {
    match me.handler
    case Body(i, h, shared, at) => InstrPanics(cfg, g, me, c, BodyInstr(cfg.platform, h, i, at));
    case _ =>
  }

  /** No single instruction panics for an unexpected interrupt. */
  lemma InstrPanics(cfg: Config, g: Globals, me: Core, c: nat, x: Instr)
    requires c < |g.tables.priv| && g.panic.None?
    ensures var r := ExecInstr(cfg, g, me, c, x); r.Effect? && r.g.panic.Some? ==> !r.g.panic.value.UnexpectedIrq?
  {
    InstrFrame(cfg, g, me, c, x);
  }

  lemma ThreadStaysOut(cfg: Config, g: Globals, me: Core, c: nat, ch: Choice)
    requires c < |g.tables.priv| && g.panic.None? && me.handler.Quiet?
    ensures var r := ThreadStep(cfg, g, me, c, ch);
            r.Effect? ==> r.me.handler.Quiet? && (r.g.panic.Some? ==> !r.g.panic.value.UnexpectedIrq?)
  {
    if me.call.Busy? {
      InstrPanics(cfg, g, me, c, CallInstr(me.call.kind, me.call.at));
      InstrFrame(cfg, g, me, c, CallInstr(me.call.kind, me.call.at));
    } else {
      var plan := PlanOf(cfg, g, me.place, ch);
      if plan.Do? {
        InstrPanics(cfg, g, me, c, plan.x);
        InstrFrame(cfg, g, me, c, plan.x);
      }
    }
  }

  /** What one core does to its own table is invisible to the others. */
  lemma PrivateStaysPrivate(log: seq<Access>, a: Access, c: nat, i: IntId)
    requires (a.AddPrivate? || a.DelPrivate? || a.CheckShared?) && a.c != c
    ensures Chosen(log + [a], c, i) == Chosen(log, c, i)
  {
    Append(log, a, c, i);
  }

  // ---------------------------------------------------------------- quiescence

  /** At most one shared handler runs at a time, over all cores. */
  lemma OneSharedHandler(cfg: Config, s: State, es: seq<Event>, c: nat, d: nat)
    requires KernelInit(cfg, s) || ClientInit(cfg, s)
    requires After(cfg, s, es).Some? && c < cfg.count && d < cfg.count
    ensures var t := After(cfg, s, es).value;
            t.cores[c].handler.Body? && t.cores[c].handler.shared && t.cores[d].handler.Body?
              && t.cores[d].handler.shared
            ==> c == d
  {
    LocksAlways(cfg, s, es);
    var t := After(cfg, s, es).value;
    assert LockInv(t.g.tables.owner, t.cores[c], c) && LockInv(t.g.tables.owner, t.cores[d], d);
    if t.cores[c].handler.Body? && t.cores[c].handler.shared { assert Holds(t.cores[c], Table); }
    if t.cores[d].handler.Body? && t.cores[d].handler.shared { assert Holds(t.cores[d], Table); }
  }

  predicate RunsShared(me: Core, i: IntId, h: Handler) {
    me.handler.Body? && me.handler.shared && me.handler.i == i && me.handler.h == h
  }

  /** The log only grows. */
  lemma LogGrows(cfg: Config, s: State, e: Event)
    requires Shaped(cfg, s) && Step(cfg, s, e).Some?
    ensures s.g.tables.log <= Step(cfg, s, e).value.g.tables.log
  {
    if e.Run? {
      var me := s.cores[e.c];
      if NextAccess(me).Some? {
        AccessStep(cfg, s.g, me, e.c, e.ch);
      } else {
        NoAccessStep(cfg, s.g, me, e.c, e.ch);
      }
    }
  }

  lemma {:induction false} LogGrowsAlong(cfg: Config, s: State, es: seq<Event>)
    requires Shaped(cfg, s) && After(cfg, s, es).Some?
    ensures s.g.tables.log <= After(cfg, s, es).value.g.tables.log
    decreases |es|
  {
    if es != [] {
      LogGrowsAlong(cfg, s, es[..|es| - 1]);
      LogGrows(cfg, After(cfg, s, es[..|es| - 1]).value, es[|es| - 1]);
    }
  }

  lemma {:induction false} NotReadded(log: seq<Access>, n: nat, i: IntId, h: Handler)
    requires n <= |log| && LatestShared(log[..n], i) != Some(h)
    requires forall j, c :: n <= j < |log| ==> log[j] != AddShared(c, i, h)
    ensures LatestShared(log, i) != Some(h)
    decreases |log|
  {
    if n == |log| {
      assert log[..n] == log;
    } else {
      var m := log[..|log| - 1];
      assert m[..n] == log[..n];
      assert forall j :: n <= j < |m| ==> m[j] == log[j];
      NotReadded(m, n, i, h);
      var a := log[|log| - 1];
      assert a.AddShared? ==> a == AddShared(a.c, a.i, a.h);
    }
  }

  lemma {:induction false} AfterConcat(cfg: Config, s: State, es: seq<Event>, fs: seq<Event>)
    requires Shaped(cfg, s) && After(cfg, s, es).Some?
    ensures After(cfg, s, es + fs) == After(cfg, After(cfg, s, es).value, fs)
    decreases |fs|
  {
    if fs == [] {
      assert es + fs == es;
    } else {
      AfterConcat(cfg, s, es, fs[..|fs| - 1]);
      assert (es + fs)[..|es + fs| - 1] == es + fs[..|fs| - 1];
    }
  }

  /** Once `h` is not registered for `i` in the shared table - it was removed or replaced - no core
      is running it, and none runs it later in the run unless it has been registered again. */
  lemma Quiescence(cfg: Config, s: State, es: seq<Event>, fs: seq<Event>, i: IntId, h: Handler, c: nat)
    requires KernelInit(cfg, s) || ClientInit(cfg, s)
    requires After(cfg, s, es).Some? && c < cfg.count
    requires var t := After(cfg, s, es).value;
             && After(cfg, t, fs).Some?
             && !(i in t.g.tables.shared && t.g.tables.shared[i] == h)
             && var u := After(cfg, t, fs).value;
                forall j, d :: |t.g.tables.log| <= j < |u.g.tables.log| ==> u.g.tables.log[j] != AddShared(d, i, h)
    ensures !RunsShared(After(cfg, After(cfg, s, es).value, fs).value.cores[c], i, h)
  {
    var t := After(cfg, s, es).value;
    var u := After(cfg, t, fs).value;
    TablesAlways(cfg, s, es);
    AfterConcat(cfg, s, es, fs);
    TablesAlways(cfg, s, es + fs);
    LogGrowsAlong(cfg, t, fs);
    var n := |t.g.tables.log|;
    assert u.g.tables.log[..n] == t.g.tables.log;
    NotReadded(u.g.tables.log, n, i, h);
    assert TableInv(u.g.tables, u.cores[c], c);
  }

  /** Access `a` takes handler `h` of interrupt `i` out of the shared table: it is removed, or another
      one is registered in its place. */
  predicate TakesOut(a: Access, i: IntId, h: Handler) {
    (a.DelShared? && a.i == i) || (a.AddShared? && a.i == i && a.h != h)
  }

  /** So after a removal or a replacement, by any core, no core runs the old handler until some core
      registers it again. */
  lemma QuietAfterRemoval(cfg: Config, s: State, es: seq<Event>, n: nat, i: IntId, h: Handler, c: nat)
    requires KernelInit(cfg, s) || ClientInit(cfg, s)
    requires After(cfg, s, es).Some? && c < cfg.count
    requires var log := After(cfg, s, es).value.g.tables.log;
             && n < |log| && TakesOut(log[n], i, h)
             && forall j, d :: n < j < |log| ==> log[j] != AddShared(d, i, h)
    ensures !RunsShared(After(cfg, s, es).value.cores[c], i, h)
  {
    TablesAlways(cfg, s, es);
    var t := After(cfg, s, es).value;
    StaysOut(t.g.tables.log, n, i, h);
    NotInTable(t.g.tables, t.cores[c], c, i, h);
  }

  lemma StaysOut(log: seq<Access>, n: nat, i: IntId, h: Handler)
    requires n < |log| && TakesOut(log[n], i, h)
    requires forall j, d :: n < j < |log| ==> log[j] != AddShared(d, i, h)
    ensures LatestShared(log, i) != Some(h)
  {
    assert log[..n + 1] == log[..n] + [log[n]];
    Append(log[..n], log[n], 0, i);
    NotReadded(log, n + 1, i, h);
  }

  lemma NotInTable(t: Tables, me: Core, c: nat, i: IntId, h: Handler)
    requires c < |t.priv| && Logged(t) && TableInv(t, me, c) && LatestShared(t.log, i) != Some(h)
    ensures !RunsShared(me, i, h)
  {
  }

  /** The calls make these accesses: when `remove_shared_irq_handler` or a replacing
      `set_shared_irq_handler` has got past its access, the log ends with one. */
  lemma CallTakesOut(cfg: Config, g: Globals, me: Core, c: nat, ch: Choice, h: Handler)
    requires c < |g.tables.priv| && g.panic.None? && me.handler.Quiet? && me.call.Busy?
    requires || (me.call.kind.DropShared? && me.call.at == 2)
             || (me.call.kind.SetShared? && me.call.at == 3 && me.call.kind.h != h)
    ensures var r := Exec(cfg, g, me, c, ch);
            && r.Effect? && r.me.call == Busy(me.call.kind, me.call.at + 1)
            && |r.g.tables.log| == |g.tables.log| + 1 && TakesOut(r.g.tables.log[|g.tables.log|], me.call.kind.i, h)
  {
    AccessStep(cfg, g, me, c, ch);
  }

  // ---------------------------------------------------------------- exclusivity

  ghost predicate RemovedSince(log: seq<Access>, n: int, i: IntId) {
    exists j :: 0 <= j < |log| && n < j && log[j].DelShared? && log[j].i == i
  }

  /** A shared handler is live exactly if one was added and none was removed since. */
  lemma {:induction false} LiveSinceAdd(log: seq<Access>, i: IntId)
    ensures LatestShared(log, i).Some? <==> LastAdd(log, i) >= 0 && !RemovedSince(log, LastAdd(log, i), i)
  {
    if log != [] {
      var rest, a := log[..|log| - 1], log[|log| - 1];
      LiveSinceAdd(rest, i);
      assert log == rest + [a] && forall j :: 0 <= j < |rest| ==> rest[j] == log[j];
      assert log[|rest|] == a;
    }
  }

  /** Which of its private interrupts core `c` also finds in the shared table: exactly those for which
      another core added a handler after `c` had found none, and nobody has removed it since. */
  lemma OverlapByOvertaking(cfg: Config, s: State, es: seq<Event>, c: nat, i: IntId)
    requires KernelInit(cfg, s) || ClientInit(cfg, s)
    requires After(cfg, s, es).Some? && c < cfg.count && i in After(cfg, s, es).value.g.tables.priv[c]
    ensures var t := After(cfg, s, es).value.g.tables;
            var n := LastAdd(t.log, i);
            i in t.shared <==> 0 <= LastCheck(t.log, c, i) < n && t.log[n].c != c && !RemovedSince(t.log, n, i)
  {
    TablesAlways(cfg, s, es);
    var t := After(cfg, s, es).value;
    assert EntryInv(t.g.tables, t.cores[c], c, i);
    LiveSinceAdd(t.g.tables.log, i);
    assert LatestShared(t.g.tables.log, i).Some? <==> i in t.g.tables.shared;
  }

  ghost predicate InBoth(t: Tables, c: nat, i: IntId)
    requires c < |t.priv|
  {
    i in t.shared && i in t.priv[c]
  }

  /** The access that puts `i` into both tables of core `c`: another core inserts the shared entry over a
      private one of `c`, or `c` inserts its own over a shared one. */
  ghost predicate Collides(t: Tables, d: nat, x: Option<TableOp>, c: nat, i: IntId)
    requires c < |t.priv|
  {
    && x.Some? && x.value.i == i
    && ((x.value.InsertShared? && d != c && i in t.priv[c]) || (x.value.InsertPrivate? && d == c && i in t.shared))
  }

  lemma AccessCollides(g: Globals, me: Core, d: nat, x: TableOp, c: nat, i: IntId)
    requires c < |g.tables.priv| && d < |g.tables.priv| && !InBoth(g.tables, c, i)
    requires x.InsertShared? && c == d ==> x.i !in g.tables.priv[c]
    ensures InBoth(ExecTable(g, me, d, x).g.tables, c, i) <==> Collides(g.tables, d, Some(x), c, i)
  {
  }

  lemma InsertingShared(cfg: Config, s: State, d: nat)
    requires AllTables(cfg, s) && d < cfg.count && NextAccess(s.cores[d]).Some?
             && NextAccess(s.cores[d]).value.InsertShared?
    ensures NextAccess(s.cores[d]).value.i !in s.g.tables.priv[d]
  {
    assert EntryInv(s.g.tables, s.cores[d], d, NextAccess(s.cores[d]).value.i);
  }

  /** In every run, exactly these accesses put an interrupt into both tables of a core. */
  lemma OverlapBegins(cfg: Config, s: State, es: seq<Event>, e: Event, c: nat, i: IntId)
    requires KernelInit(cfg, s) || ClientInit(cfg, s)
    requires After(cfg, s, es).Some? && Step(cfg, After(cfg, s, es).value, e).Some? && c < cfg.count
    requires !InBoth(After(cfg, s, es).value.g.tables, c, i)
    ensures var t := After(cfg, s, es).value;
            var u := Step(cfg, t, e).value;
            && |u.g.tables.priv| == cfg.count
            && (InBoth(u.g.tables, c, i) <==> e.Run? && Collides(t.g.tables, e.c, NextAccess(t.cores[e.c]), c, i))
  {
    TablesAlways(cfg, s, es);
    var t := After(cfg, s, es).value;
    StepShaped(cfg, t, e);
    if e.Run? {
      if NextAccess(t.cores[e.c]).Some? {
        var x := NextAccess(t.cores[e.c]).value;
        AccessStep(cfg, t.g, t.cores[e.c], e.c, e.ch);
        if x.InsertShared? { InsertingShared(cfg, t, e.c); }
        AccessCollides(t.g, t.cores[e.c], e.c, x, c, i);
      } else {
        NoAccessStep(cfg, t.g, t.cores[e.c], e.c, e.ch);
      }
    }
  }

  /** So when `set_shared_irq_handler` on core `d` inserts its handler, the interrupt is in both tables of
      exactly the other cores that have a private handler for it. */
  lemma SharedInsertOverlaps(cfg: Config, s: State, es: seq<Event>, d: nat, ch: Choice, c: nat, i: IntId, h: Handler)
    requires KernelInit(cfg, s) || ClientInit(cfg, s)
    requires After(cfg, s, es).Some? && c < cfg.count && d < cfg.count
    requires var t := After(cfg, s, es).value;
             t.cores[d].handler.Quiet? && t.cores[d].call == Busy(SetShared(i, h), 3) && Step(cfg, t, Run(d, ch)).Some?
    ensures var t := After(cfg, s, es).value;
            var u := Step(cfg, t, Run(d, ch)).value;
            |u.g.tables.priv| == cfg.count && (InBoth(u.g.tables, c, i) <==> c != d && i in t.g.tables.priv[c])
  {
    TablesAlways(cfg, s, es);
    var t := After(cfg, s, es).value;
    InsertingShared(cfg, t, d);
    AccessStep(cfg, t.g, t.cores[d], d, ch);
  }

  /** And when `set_private_irq_handler` inserts its handler, exactly if a shared one is there by then. */
  lemma PrivateInsertOverlaps(cfg: Config, s: State, es: seq<Event>, c: nat, ch: Choice, i: IntId, h: Handler)
    requires KernelInit(cfg, s) || ClientInit(cfg, s)
    requires After(cfg, s, es).Some? && c < cfg.count
    requires var t := After(cfg, s, es).value;
             t.cores[c].handler.Quiet? && t.cores[c].call == Busy(SetPrivate(i, h), 4) && Step(cfg, t, Run(c, ch)).Some?
    ensures var t := After(cfg, s, es).value;
            var u := Step(cfg, t, Run(c, ch)).value;
            |u.g.tables.priv| == cfg.count && (InBoth(u.g.tables, c, i) <==> i in t.g.tables.shared)
  {
    AccessStep(cfg, After(cfg, s, es).value.g, After(cfg, s, es).value.cores[c], c, ch);
  }

  /** Hence a core that alone adds shared handlers never has an interrupt in both its tables. */
  lemma AloneNeverOverlaps(cfg: Config, s: State, es: seq<Event>, c: nat, i: IntId)
    requires KernelInit(cfg, s) || ClientInit(cfg, s)
    requires After(cfg, s, es).Some? && c < cfg.count
    requires var log := After(cfg, s, es).value.g.tables.log;
             forall j :: 0 <= j < |log| && log[j].AddShared? && log[j].i == i ==> log[j].c == c
    ensures var t := After(cfg, s, es).value.g.tables; !(i in t.shared && i in t.priv[c])
  {
    var t := After(cfg, s, es).value.g.tables;
    if i in t.shared && i in t.priv[c] { OverlapByOvertaking(cfg, s, es, c, i); }
  }

  lemma {:induction false} LiveWasAdded(log: seq<Access>, c: nat, i: IntId)
    ensures LatestShared(log, i).Some? ==> exists j :: 0 <= j < |log| && log[j].AddShared? && log[j].i == i
    ensures LatestPrivate(log, c, i).Some? ==>
              exists j :: 0 <= j < |log| && log[j].AddPrivate? && log[j].c == c && log[j].i == i
  {
    if log != [] {
      var rest, a := log[..|log| - 1], log[|log| - 1];
      LiveWasAdded(rest, c, i);
      assert log[|log| - 1] == a && forall j :: 0 <= j < |rest| ==> rest[j] == log[j];
    }
  }

  /** Nor does any core if SGIs are only registered privately and SPIs only shared. */
  lemma SplitNeverOverlaps(cfg: Config, s: State, es: seq<Event>, c: nat, i: IntId)
    requires KernelInit(cfg, s) || ClientInit(cfg, s)
    requires After(cfg, s, es).Some? && c < cfg.count
    requires var log := After(cfg, s, es).value.g.tables.log;
             forall j :: 0 <= j < |log| ==>
               (log[j].AddShared? ==> log[j].i.Spi?) && (log[j].AddPrivate? ==> log[j].i.Sgi?)
    ensures var t := After(cfg, s, es).value.g.tables; !(i in t.shared && i in t.priv[c])
  {
    TablesAlways(cfg, s, es);
    LiveWasAdded(After(cfg, s, es).value.g.tables.log, c, i);
  }
}
