/** What each group of instructions can change. */
module Frames {
  import opened Machine

  lemma SyncFrame(g: Globals, me: Core, c: nat, x: SyncOp)
    ensures var r := ExecSync(g, me, c, x);
            r.Effect? ==>
              && r.g == g.(tables := g.tables.(owner := r.g.tables.owner), panic := r.g.panic)
              && r.me == me.(masked := r.me.masked, saved := r.me.saved)
              && (r.g.panic != g.panic ==> !g.cpus.gicReady && x == Acquire(Gic))
  {
  }

  lemma TableFrame(g: Globals, me: Core, c: nat, x: TableOp)
    requires c < |g.tables.priv|
    ensures var r := ExecTable(g, me, c, x);
            && r.Effect? && r.me == me
            && r.g == g.(tables := r.g.tables, panic := r.g.panic)
            && r.g.tables.owner == g.tables.owner
            && |r.g.tables.priv| == |g.tables.priv|
            && (forall d :: 0 <= d < |g.tables.priv| && d != c ==> r.g.tables.priv[d] == g.tables.priv[d])
  {
  }

  lemma GicFrame(cfg: Config, g: Globals, me: Core, c: nat, x: GicOp)
    ensures var r := ExecGic(cfg, g, me, c, x);
            r.Effect? ==>
              && r.g == g.(pend := r.g.pend) && (!x.SendSgi? ==> r.g == g)
              && r.me == me.(active := r.me.active, pmr := r.me.pmr, enabled := r.me.enabled, prio := r.me.prio)
  {
  }

  lemma AlarmFrame(g: Globals, me: Core, x: AlarmOp)
    ensures var r := ExecAlarm(g, me, x); r.Effect? && r.me == me && r.g == g.(alarm := r.g.alarm)
  {
  }

  lemma ConsoleFrame(g: Globals, me: Core, x: ConsoleOp)
    ensures var r := ExecConsole(g, me, x); r.Effect? && r.me == me && r.g == g.(console := r.g.console)
  {
  }

  lemma CpuFrame(g: Globals, me: Core, c: nat, x: CpuOp)
    ensures var r := ExecCpu(g, me, c, x);
            r.Effect? ==>
              && r.me == me && r.g == g.(cpus := r.g.cpus, off := r.g.off, panic := r.g.panic)
              && |r.g.cpus.power| == |g.cpus.power|
  {
  }

  /** The globals an instruction leaves alone, by its group. */
  lemma InstrFrame(cfg: Config, g: Globals, me: Core, c: nat, x: Instr)
    requires c < |g.tables.priv|
    ensures var r := ExecInstr(cfg, g, me, c, x);
            r.Effect? ==>
              && (!x.Sync? && !x.Tab? ==> r.g.tables == g.tables)
              && (!x.Tab? ==> r.g.tables == g.tables.(owner := r.g.tables.owner))
              && (!x.Sync? ==> r.g.tables.owner == g.tables.owner)
              && (!x.Irq? ==> r.g.pend == g.pend)
              && (!x.Rtc? ==> r.g.alarm == g.alarm)
              && (!x.Com? ==> r.g.console == g.console)
              && (!x.Cpu? ==> r.g.cpus == g.cpus && r.g.off == g.off)
              && r.me.place == me.place && r.me.call == me.call && r.me.handler == me.handler
              && (!x.Sync? ==> r.me.masked == me.masked && r.me.saved == me.saved)
              && (!x.Irq? ==>
                    && r.me.active == me.active && r.me.pmr == me.pmr && r.me.enabled == me.enabled
                    && r.me.prio == me.prio)
  {
    match x
    case Sync(s) => SyncFrame(g, me, c, s);
    case Tab(t) => TableFrame(g, me, c, t);
    case Irq(q) => GicFrame(cfg, g, me, c, q);
    case Rtc(a) => AlarmFrame(g, me, a);
    case Com(u) => ConsoleFrame(g, me, u);
    case Cpu(p) => CpuFrame(g, me, c, p);
    case Nop =>
  }

  lemma CallGroup(kind: CallKind, at: nat)
    ensures var x := CallInstr(kind, at);
            && (x.Sync? || x.Tab? || x.Com?)
            && (x.Sync? ==> !x.s.Unmask?)
            && (kind.Log? ==> x.Sync?)
            && (x.Com? ==> kind.Read? || kind.Poll?)
            && (x.Tab? ==> kind.SetShared? || kind.DropShared? || kind.SetPrivate? || kind.DropPrivate?)
  {
  }

  lemma BodyGroup(p: Platform, h: Handler, i: IntId, at: nat)
    ensures var x := BodyInstr(p, h, i, at);
            && (x.Sync? || x == Com(ClearRx) || x == Nop || x == Irq(End(i)) || x == Rtc(StoreAlarm))
            && (x.Sync? ==> !x.s.Unmask? && (x.s.Acquire? || x.s.Release? ==> x.s.l == Uart))
            && (x.Irq? || x.Com? || x.Nop? ==> h.ConsoleHandler?)
            && (x.Rtc? ==> !h.ConsoleHandler? && at >= 4)
  {
  }

  /** One step inside a call. */
  lemma CallFrame(cfg: Config, g: Globals, me: Core, c: nat, ch: Choice)
    requires c < |g.tables.priv| && g.panic.None? && me.handler.Quiet? && me.call.Busy?
    ensures var r := ThreadStep(cfg, g, me, c, ch);
            r.Effect? ==>
              && r.g.pend == g.pend && r.g.alarm == g.alarm && r.g.cpus == g.cpus && r.g.off == g.off
              && (!me.call.kind.Read? && !me.call.kind.Poll? ==> r.g.console == g.console)
              && r.me.place == me.place && r.me.handler == me.handler
              && r.me.call == (if r.g.panic.Some? then me.call
                               else if me.call.at + 1 < Length(me.call.kind) then Busy(me.call.kind, me.call.at + 1)
                               else Idle)
              && r.me.active == me.active && r.me.pmr == me.pmr && r.me.enabled == me.enabled && r.me.prio == me.prio
  {
    CallGroup(me.call.kind, me.call.at);
    InstrFrame(cfg, g, me, c, CallInstr(me.call.kind, me.call.at));
  }

  /** Between calls a thread touches neither the handler tables nor the UART. */
  lemma PlanGroup(cfg: Config, g: Globals, place: Place, ch: Choice)
    ensures var plan := PlanOf(cfg, g, place, ch); 
            plan.Do? ==> !plan.x.Tab? && !plan.x.Com? && !plan.x.Nop? && plan.x != Rtc(StoreAlarm)
  {
  }

  /** What a step of `handle_irq` leaves alone: the thread's position, the tables, the CPU states. */
  predicate HandlerScope(g: Globals, me: Core, r: Effect) {
    r.Effect? ==>
      && r.g.tables == g.tables.(owner := r.g.tables.owner) && r.g.cpus == g.cpus && r.g.off == g.off
      && r.me.place == me.place && r.me.call == me.call
      && r.me.pmr == me.pmr && r.me.enabled == me.enabled && r.me.prio == me.prio
  }

  lemma BodyInstrFrame(cfg: Config, g: Globals, me: Core, c: nat, h: Handler, i: IntId, at: nat)
    requires c < |g.tables.priv|
    ensures HandlerScope(g, me, ExecInstr(cfg, g, me, c, BodyInstr(cfg.platform, h, i, at)))
  {
    BodyGroup(cfg.platform, h, i, at);
    var x := BodyInstr(cfg.platform, h, i, at);
    InstrFrame(cfg, g, me, c, x);
    if x.Irq? { GicFrame(cfg, g, me, c, x.q); }
  }

  lemma BodyFrame(cfg: Config, g: Globals, me: Core, c: nat, ch: Choice)
    requires c < |g.tables.priv| && me.handler.Body?
    ensures HandlerScope(g, me, HandlerStep(cfg, g, me, c, ch))
  {
    BodyInstrFrame(cfg, g, me, c, me.handler.h, me.handler.i, me.handler.at);
  }

  lemma SeekFrame(cfg: Config, g: Globals, me: Core, c: nat, ch: Choice)
    requires c < |g.tables.priv|
    requires me.handler.Acked? || me.handler.SeekTable? || me.handler.DropTable? || me.handler.Leaving?
    ensures HandlerScope(g, me, HandlerStep(cfg, g, me, c, ch))
  {
    match me.handler
    case Acked(i) => SyncFrame(g, me, c, Mask);
    case SeekTable(i) => SyncFrame(g, me, c, Acquire(Table));
    case DropTable => SyncFrame(g, me, c, Release(Table));
    case Leaving => SyncFrame(g, me, c, Restore);
  }

  lemma HandlerFrame(cfg: Config, g: Globals, me: Core, c: nat, ch: Choice)
    requires c < |g.tables.priv|
    ensures HandlerScope(g, me, HandlerStep(cfg, g, me, c, ch))
  {
    if me.handler.Body? { BodyFrame(cfg, g, me, c, ch); }
    else if me.handler.Acked? || me.handler.SeekTable? || me.handler.DropTable? || me.handler.Leaving? {
      SeekFrame(cfg, g, me, c, ch);
    }
  }
}
