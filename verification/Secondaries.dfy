/** Secondary cores: from the entry point through the wait for an SGI to power-off. */
module Secondaries {
  import opened Wrappers
  import opened Machine
  import opened Frames
  import opened Locks
  import opened Dispatch
  import opened Kernel

  /** SGI `n` has a private handler on core `me`. */
  predicate Registered(me: Core, n: nat) {
    && n < SGI_COUNT && me.place.Secondary?
    && match me.place.sec
       case Register(m) => n + 1 < m || (n + 1 == m && Made(me.call, 5))
       case Await(_) => true
       case Unregister(m) => n >= m || (n + 1 == m && !Made(me.call, 2))
       case _ => false
  }

  ghost predicate SecondaryTables(t: Tables, me: Core, c: nat)
    requires c < |t.priv|
  {
    && (forall i :: i in t.priv[c] <==> i.Sgi? && Registered(me, i.n))
    && (forall i :: i in t.priv[c] ==> t.priv[c][i] == SecondaryHandler)
  }

  /** Before `irq_enable`. */
  predicate Starting(place: Place) {
    place.Secondary? && (place.sec.Init? || place.sec.Configure? || place.sec.Register?)
  }

  /** After `wfi` has returned. */
  predicate Waited(place: Place) {
    place.Secondary? && (place.sec.Unregister? || (place.sec.Await? && place.sec.n >= 2))
  }

  /** Only SGIs reach the core, all with one priority; at most one is active. */
  ghost predicate SecondaryGic(me: Core) {
    && (forall i :: i in me.enabled ==>
          i.Sgi? && i.n < SGI_COUNT && (Prio(me, i) == SGI_PRIORITY || me.place == Secondary(Configure(i.n, true))))
    && |me.active| <= 1 && (|me.active| == 1 ==> me.active[0] in me.enabled)
    && (Starting(me.place) ==>
          me.masked && me.handler.Quiet? && me.active == [] && forall j :: 0 <= j < |me.saved| ==> me.saved[j])
  }

  /** Unless `wfi` returns early, the core has taken its SGI by the time `wfi` is over, and takes
      none after it. */
  ghost predicate SecondaryWait(cfg: Config, me: Core) {
    && (!cfg.earlyWfi && Waited(me.place) ==> me.active != [])
    && (!me.handler.Quiet? ==>
          me.place.Secondary? && !Starting(me.place) && (cfg.earlyWfi || (me.place.sec.Await? && me.place.sec.n <= 1)))
  }

  /** The handler looks for the SGI just taken, and finds it unless `wfi` was over already. */
  ghost predicate SecondaryHandling(cfg: Config, g: Globals, me: Core, c: nat)
    requires c < |g.tables.priv|
  {
    match me.handler
    case Entered => Signalled(cfg, g, me, c)
    case Acked(i) => me.active == [i] && (i in g.tables.priv[c] || Waited(me.place))
    case SeekPrivate(i) => me.active == [i] && (i in g.tables.priv[c] || Waited(me.place))
    case SeekTable(i) => me.active == [i] && Waited(me.place)
    case SeekShared(i) => me.active == [i] && Waited(me.place)
    case Body(i, h, shared, _) => h == SecondaryHandler && !shared
    case DropTable => false
    case _ => true
  }

  ghost predicate SecondaryInv(cfg: Config, g: Globals, me: Core, c: nat) {
    && c < |g.tables.priv| && c < |g.cpus.power| && c != cfg.primary
    && PlaceInv(cfg, me, c) && SecondaryTables(g.tables, me, c) && SecondaryGic(me) && SecondaryWait(cfg, me)
    && SecondaryHandling(cfg, g, me, c)
    && (!g.cpus.power[c].Off? ==> g.cpus.active && g.cpus.stored && g.cpus.gicReady)
    && (g.cpus.power[c].On? ==> me.place.Secondary?)
  }

  /** A core with an active SGI can be signalled nothing more: all SGIs have its priority. */
  lemma ActiveBlocks(cfg: Config, g: Globals, me: Core, c: nat, i: IntId)
    requires SecondaryGic(me) && !Starting(me.place) && me.active != []
    ensures !Deliverable(cfg, g, me, c, i)
  {
    assert me.active[..|me.active| - 1] == [];
    assert Running(me, []) == IDLE_PRIORITY;
  }

  // Steps of the thread.

  ghost predicate SameRegistered(me: Core, to: Core) { forall n :: Registered(me, n) == Registered(to, n) }

  lemma SecondaryPlanRegistered(me: Core)
    requires SecondaryPlace(me.place) && me.place.Secondary? && me.call.Idle?
    ensures match SecondaryPlan(me.place.sec)
            case Do(x, next) => x != Cpu(PowerOff) ==> SameRegistered(me, me.(place := next))
            case Begin(kind, next) => SameRegistered(me, me.(place := next, call := Busy(kind, 0)))
            case Jump(next) => SameRegistered(me, me.(place := next))
            case Wait => true
    ensures match SecondaryPlan(me.place.sec)
            case Do(x, next) => x == Cpu(PowerOff) ==> forall n :: !Registered(me, n)
            case _ => true
  {
  }

  lemma SecondaryAccess(cfg: Config, g: Globals, me: Core, c: nat, x: TableOp)
    requires SecondaryInv(cfg, g, me, c) && g.panic.None? && me.handler.Quiet? && me.call.Busy? && InRange(me)
    requires NextAccess(me) == Some(x) && forall i :: i in g.tables.shared ==> i.Spi?
    ensures var r := ExecTable(g, me, c, x);
            r.g.panic.None? && |r.g.tables.priv| == |g.tables.priv|
            && SecondaryTables(r.g.tables, me.(call := Busy(me.call.kind, me.call.at + 1)), c)
  {
  }

  lemma SecondaryCallRegistered(cfg: Config, g: Globals, me: Core, c: nat, ch: Choice)
    requires PlaceInv(cfg, me, c) && c != cfg.primary && c < |g.tables.priv| && g.panic.None? && InRange(me)
    requires me.handler.Quiet? && me.call.Busy? && NextAccess(me).None?
    ensures var r := ThreadStep(cfg, g, me, c, ch); r.Effect? && r.g.panic.None? ==> SameRegistered(me, r.me)
  {
    CallFrame(cfg, g, me, c, ch);
  }

  /** Same GIC view at the same kind of place. */
  lemma SameSecondaryGic(me: Core, to: Core)
    requires SecondaryGic(me) && to.enabled == me.enabled && to.prio == me.prio && to.active == me.active
    requires forall n :: me.place == Secondary(Configure(n, true)) ==> to.place == me.place
    requires Starting(to.place) ==>
               Starting(me.place) && to.masked && to.handler.Quiet? && forall j :: 0 <= j < |to.saved| ==> to.saved[j]
    ensures SecondaryGic(to)
  {
    assert forall i :: Prio(to, i) == Prio(me, i);
  }

  /** A call on a secondary core cannot panic and keeps everything. */
  lemma SecondaryCall(cfg: Config, g: Globals, me: Core, c: nat, ch: Choice)
    requires SecondaryInv(cfg, g, me, c) && g.panic.None? && me.handler.Quiet? && me.call.Busy? && InRange(me)
    requires forall i :: i in g.tables.shared ==> i.Spi?
    ensures var r := ThreadStep(cfg, g, me, c, ch);
            r.Effect? ==> r.g.panic.None? && SecondaryInv(cfg, r.g, r.me, c)
  {
    var r := ThreadStep(cfg, g, me, c, ch);
    CallFrame(cfg, g, me, c, ch);
    if r.Effect? {
      SecondaryCallTables(cfg, g, me, c, ch);
      SecondaryCallMask(cfg, g, me, c, ch);
      SameSecondaryGic(me, r.me);
    }
  }

  lemma SecondaryCallMask(cfg: Config, g: Globals, me: Core, c: nat, ch: Choice)
    requires SecondaryGic(me) && g.panic.None? && me.handler.Quiet? && me.call.Busy? && c < |g.tables.priv|
    ensures var r := ThreadStep(cfg, g, me, c, ch);
            r.Effect? && Starting(me.place) ==> r.me.masked && forall j :: 0 <= j < |r.me.saved| ==> r.me.saved[j]
  {
    var x := CallInstr(me.call.kind, me.call.at);
    CallGroup(me.call.kind, me.call.at);
    InstrFrame(cfg, g, me, c, x);
  }

  lemma SecondaryCallTables(cfg: Config, g: Globals, me: Core, c: nat, ch: Choice)
    requires SecondaryInv(cfg, g, me, c) && g.panic.None? && me.handler.Quiet? && me.call.Busy? && InRange(me)
    requires forall i :: i in g.tables.shared ==> i.Spi?
    ensures var r := ThreadStep(cfg, g, me, c, ch);
            r.Effect? ==>
              r.g.panic.None? && |r.g.tables.priv| == |g.tables.priv| && SecondaryTables(r.g.tables, r.me, c)
  {
    if NextAccess(me).Some? {
      AccessStep(cfg, g, me, c, ch);
      SecondaryAccess(cfg, g, me, c, NextAccess(me).value);
    } else {
      NoAccessStep(cfg, g, me, c, ch);
      SecondaryCallSafe(cfg, g, me, c, ch);
      SecondaryCallRegistered(cfg, g, me, c, ch);
    }
  }

  lemma SecondaryCallSafe(cfg: Config, g: Globals, me: Core, c: nat, ch: Choice)
    requires PlaceInv(cfg, me, c) && c != cfg.primary && c < |g.tables.priv| && g.panic.None?
    requires me.handler.Quiet? && me.call.Busy? && NextAccess(me).None?
    ensures var r := ThreadStep(cfg, g, me, c, ch); r.Effect? ==> r.g.panic.None?
  {
    var x := CallInstr(me.call.kind, me.call.at);
    CallGroup(me.call.kind, me.call.at);
    if x.Sync? { SyncFrame(g, me, c, x.s); }
  }

  lemma SecondaryDoGic(cfg: Config, g: Globals, me: Core, c: nat, x: Instr, next: Place)
    requires SecondaryGic(me) && me.handler.Quiet? && c < |g.tables.priv| && me.place.Secondary? && me.call.Idle?
    requires SecondaryPlan(me.place.sec) == Do(x, next) && SecondaryPlace(me.place)
    ensures var r := ExecInstr(cfg, g, me, c, x); r.Effect? ==> SecondaryGic(r.me.(place := next))
  {
    var r := ExecInstr(cfg, g, me, c, x);
    InstrFrame(cfg, g, me, c, x);
    if x.Irq? && (x.q.Enable? || x.q.SetPriority?) {
    } else if r.Effect? {
      if x.Irq? { GicFrame(cfg, g, me, c, x.q); }
      assert next.Secondary? && x.Sync? && Starting(next) ==> x.s.Acquire? || x.s.Release?;
      SameSecondaryGic(me, r.me.(place := next));
    }
  }

  lemma SecondaryDoSafe(cfg: Config, g: Globals, me: Core, c: nat, x: Instr, next: Place)
    requires SecondaryInv(cfg, g, me, c) && g.panic.None? && me.place.Secondary? && me.handler.Quiet?
    requires g.cpus.power[c].On? && SecondaryPlan(me.place.sec) == Do(x, next)
    ensures var r := ExecInstr(cfg, g, me, c, x);
            r.Effect? ==>
              && r.g.panic.None? && SecondaryWait(cfg, r.me.(place := next))
                 && r.g.tables == g.tables.(owner := r.g.tables.owner)
              && |r.g.cpus.power| == |g.cpus.power|
              && r.g.cpus.active == g.cpus.active && r.g.cpus.stored == g.cpus.stored
                 && r.g.cpus.gicReady == g.cpus.gicReady
              && (r.g.cpus.power[c].On? ==> next.Secondary?)
  {
    InstrFrame(cfg, g, me, c, x);
    assert !x.Tab? && (x.Cpu? ==> x.p.ActivateSecondary? || x.p.PowerOff?);
    if x.Sync? { SyncFrame(g, me, c, x.s); }
    if x.Cpu? { CpuFrame(g, me, c, x.p); }
  }

  lemma SecondaryDo(cfg: Config, g: Globals, me: Core, c: nat, ch: Choice, x: Instr, next: Place)
    requires SecondaryInv(cfg, g, me, c) && g.panic.None? && g.cpus.power[c].On?
    requires me.handler.Quiet? && me.call.Idle? && PlanOf(cfg, g, me.place, ch) == Do(x, next)
    ensures var r := ThreadStep(cfg, g, me, c, ch);
            r.Effect? ==> r.g.panic.None? && SecondaryInv(cfg, r.g, r.me, c)
  {
    ThreadStays(cfg, g, me, c, ch);
    SecondaryDoGic(cfg, g, me, c, x, next);
    SecondaryDoSafe(cfg, g, me, c, x, next);
    SecondaryPlanRegistered(me);
    InstrFrame(cfg, g, me, c, x);
    var r := ThreadStep(cfg, g, me, c, ch);
    if r.Effect? {
      assert forall n :: Registered(r.me, n) == Registered(me.(place := next), n);
      assert x == Cpu(PowerOff) ==> forall n :: !Registered(me.(place := next), n);
    }
  }

  lemma SecondaryMove(cfg: Config, g: Globals, me: Core, c: nat, ch: Choice)
    requires SecondaryInv(cfg, g, me, c) && g.panic.None? && me.handler.Quiet? && me.call.Idle?
    requires !PlanOf(cfg, g, me.place, ch).Do?
    ensures var r := ThreadStep(cfg, g, me, c, ch);
            r.Effect? ==> r.g.panic.None? && SecondaryInv(cfg, r.g, r.me, c)
  {
    ThreadStays(cfg, g, me, c, ch);
    var r := ThreadStep(cfg, g, me, c, ch);
    if r.Effect? {
      SecondaryPlanRegistered(me);
      assert forall n :: me.place != Secondary(Configure(n, true));
      SameSecondaryGic(me, r.me);
    }
  }

  lemma SecondaryThread(cfg: Config, g: Globals, me: Core, c: nat, ch: Choice)
    requires SecondaryInv(cfg, g, me, c) && g.panic.None? && g.cpus.power[c].On? && InRange(me)
    requires me.handler.Quiet? && forall i :: i in g.tables.shared ==> i.Spi?
    ensures var r := ThreadStep(cfg, g, me, c, ch);
            r.Effect? ==> r.g.panic.None? && SecondaryInv(cfg, r.g, r.me, c)
  {
    if me.call.Busy? { SecondaryCall(cfg, g, me, c, ch); }
    else if PlanOf(cfg, g, me.place, ch).Do? {
      var Do(x, next) := PlanOf(cfg, g, me.place, ch);
      SecondaryDo(cfg, g, me, c, ch, x, next);
    } else {
      SecondaryMove(cfg, g, me, c, ch);
    }
  }

  // Steps of the handler.

  lemma SecondaryFrame(cfg: Config, g: Globals, me: Core, g': Globals, to: Core, c: nat)
    requires SecondaryInv(cfg, g, me, c) && !me.handler.Quiet?
    requires to.place == me.place && to.call == me.call && to.enabled == me.enabled && to.prio == me.prio
    requires g'.cpus == g.cpus && g'.tables == g.tables.(owner := g'.tables.owner)
    requires |to.active| <= 1 && (|to.active| == 1 ==> to.active[0] in to.enabled)
    requires SecondaryHandling(cfg, g', to, c)
    ensures SecondaryInv(cfg, g', to, c)
  {
    assert forall i :: Prio(to, i) == Prio(me, i);
    assert forall n :: Registered(me, n) == Registered(to, n);
  }

  lemma SecondaryAck(cfg: Config, g: Globals, me: Core, c: nat, ch: Choice)
    requires SecondaryInv(cfg, g, me, c) && g.panic.None? && me.handler.Entered?
    ensures var r := HandlerStep(cfg, g, me, c, ch);
            r.Effect? ==> r.g.panic.None? && SecondaryInv(cfg, r.g, r.me, c)
  {
    var r := HandlerStep(cfg, g, me, c, ch);
    if r.Effect? {
      assert ch.Pick?;
      if me.active != [] { ActiveBlocks(cfg, g, me, c, ch.i); }
      assert me.active + [ch.i] == [ch.i];
      assert Registered(me, ch.i.n) || Waited(me.place);
      SecondaryFrame(cfg, g, me, r.g, r.me, c);
    }
  }

  /** The one panic a secondary core can meet: an SGI taken after `wfi` had returned without one. */
  predicate Early(me: Core, c: nat, why: Panic) {
    why.UnexpectedIrq? && why.c == c && Waited(me.place) && me.active == [why.i] && me.handler == SeekShared(why.i)
  }

  lemma SecondaryHandles(cfg: Config, g: Globals, me: Core, c: nat, ch: Choice)
    requires SecondaryInv(cfg, g, me, c) && g.panic.None? && !me.handler.Quiet? && InRange(me)
    requires forall i :: i in g.tables.shared ==> i.Spi?
    ensures var r := HandlerStep(cfg, g, me, c, ch);
            r.Effect? ==> SecondaryInv(cfg, r.g, r.me, c) && (r.g.panic.Some? ==> Early(r.me, c, r.g.panic.value))
  {
    var r := HandlerStep(cfg, g, me, c, ch);
    if me.handler.Entered? {
      SecondaryAck(cfg, g, me, c, ch);
    } else if r.Effect? {
      HandlerFrame(cfg, g, me, c, ch);
      SecondaryHandlerMoves(cfg, g, me, c, ch);
      SecondaryFrame(cfg, g, me, r.g, r.me, c);
    }
  }

  lemma SecondaryHandlerMoves(cfg: Config, g: Globals, me: Core, c: nat, ch: Choice)
    requires SecondaryInv(cfg, g, me, c) && g.panic.None? && !me.handler.Quiet? && !me.handler.Entered? && InRange(me)
    requires forall i :: i in g.tables.shared ==> i.Spi?
    ensures var r := HandlerStep(cfg, g, me, c, ch);
            r.Effect? ==> r.me.active == me.active && |r.g.tables.priv| == |g.tables.priv|
                          && SecondaryHandling(cfg, r.g, r.me, c)
                             && (r.g.panic.Some? ==> Early(r.me, c, r.g.panic.value))
  {
    HandlerFrame(cfg, g, me, c, ch);
    if me.handler.Body? {
      var x := BodyInstr(cfg.platform, me.handler.h, me.handler.i, me.handler.at);
      BodyGroup(cfg.platform, me.handler.h, me.handler.i, me.handler.at);
      InstrFrame(cfg, g, me, c, x);
      SyncFrame(g, me, c, x.s);
    } else if me.handler.SeekShared? {
      assert me.active[0] in me.enabled;
    }
  }
}
