/** The real-time clock, the console and the secondary stacks over whole runs of the kernel. */
module Devices {
  import opened Wrappers
  import opened Machine
  import opened Frames
  import opened Locks
  import opened Kernel
  import opened Secondaries
  import opened Runs

  function Bit(b: bool): nat { if b then 1 else 0 }

  /** The alarm flag counts handler runs not yet finished; every match is acknowledged, merged into
      an earlier one, or still waiting. */
  ghost predicate AlarmInv(cfg: Config, a: Alarm, me: Core) {
    && a.stores == a.swaps + Bit(a.fired)
    && a.matches == a.acks + a.merged + Bit(a.raw && !a.served)
    && (a.served ==> a.raw)
    && (a.served <==> RtcIrq(cfg.platform) in me.active && !(me.place.Shell? && me.place.at.Finish?))
  }

  /** Every acknowledged alarm has been stored in the flag, or its handler is about to do so. */
  ghost predicate HandledInv(cfg: Config, a: Alarm, h: Handling) {
    a.acks == a.stores + Bit(Extra(h) == [RtcIrq(cfg.platform)])
  }

  /** What was received is what was delivered and what is still there. */
  ghost predicate ConsoleInv(u: Console) {
    && u.received == u.delivered + u.fifo
    && (u.ready ==> u.fifo != [])
  }

  /** The core whose start is under way. */
  function Target(place: Place): Option<nat> {
    if !place.Shell? then None
    else
      match place.at
      case LockStacks(t) => Some(t)
      case Take(t) => Some(t)
      case FreeStacks(t) => Some(t)
      case Push(t) => Some(t)
      case Start(t) => Some(t)
      case _ => None
  }

  /** Every core that is not off, and no other, uses a stack, and it is its own. */
  ghost predicate StacksOk(cfg: Config, b: Cpus) {
    && |b.power| == cfg.count && cfg.primary < cfg.count
    && (forall t, u :: t in b.stacks && u in b.stacks && t != u ==> b.stacks[t] != b.stacks[u])
    && (forall t :: t in b.stacks ==> b.stacks[t] < b.nextStack)
    && (forall t :: t in b.inUse ==> t in b.stacks && b.inUse[t] == b.stacks[t])
    && (forall t: nat :: t in b.inUse <==> t < cfg.count && t != cfg.primary && !b.power[t].Off?)
  }

  /** A start under way is that of a core that is off; its stack exists once it has been taken. */
  ghost predicate StartOk(cfg: Config, b: Cpus, place: Place)
    requires |b.power| == cfg.count
  {
    && (Target(place).Some? ==>
          Target(place).value < cfg.count && Target(place).value != cfg.primary && b.power[Target(place).value].Off?)
    && (place.Shell? && (place.at.FreeStacks? || place.at.Push? || place.at.Start?) ==> Target(place).value in b.stacks)
  }

  ghost predicate StackInv(cfg: Config, b: Cpus, me: Core) { StacksOk(cfg, b) && StartOk(cfg, b, me.place) }

  ghost predicate DeviceInv(cfg: Config, g: Globals, me: Core) {
    && AlarmInv(cfg, g.alarm, me) && HandledInv(cfg, g.alarm, me.handler)
    && ConsoleInv(g.console) && StackInv(cfg, g.cpus, me)
  }

  // ---------------------------------------------------------------- steps of the primary core

  lemma CallDevices(cfg: Config, g: Globals, me: Core, ch: Choice)
    requires DeviceInv(cfg, g, me) && g.panic.None? && me.handler.Quiet? && me.call.Busy?
             && cfg.primary < |g.tables.priv|
    ensures var r := ThreadStep(cfg, g, me, cfg.primary, ch); r.Effect? ==> DeviceInv(cfg, r.g, r.me)
  {
    CallFrame(cfg, g, me, cfg.primary, ch);
    CallGroup(me.call.kind, me.call.at);
    var x := CallInstr(me.call.kind, me.call.at);
    if x.Com? { ConsoleKeeps(g, me, x.u); } else { InstrFrame(cfg, g, me, cfg.primary, x); }
  }

  lemma ConsoleKeeps(g: Globals, me: Core, x: ConsoleOp)
    requires ConsoleInv(g.console)
    ensures ConsoleInv(ExecConsole(g, me, x).g.console)
  {
    if x.TryRead? && g.console.fifo != [] {
      var u := g.console;
      var m := if x.n < |u.fifo| then x.n else |u.fifo|;
      assert u.fifo == u.fifo[..m] + u.fifo[m..];
      assert u.delivered + u.fifo == (u.delivered + u.fifo[..m]) + u.fifo[m..];
    }
  }

  /** The alarm command's own steps: swap, clear, end. */
  lemma AlarmRtc(cfg: Config, g: Globals, me: Core, ch: Choice, x: AlarmOp, next: Place)
    requires AlarmInv(cfg, g.alarm, me) && PrimaryActive(cfg, g.alarm, me) && me.handler.Quiet?
    requires me.place.Shell? && ShellPlan(cfg, g, me.place.at, ch) == Do(Rtc(x), next)
    ensures AlarmInv(cfg, ExecAlarm(g, me, x).g.alarm, me.(place := next))
  {
  }

  lemma AlarmEnd(cfg: Config, g: Globals, me: Core, ch: Choice, x: GicOp, next: Place)
    requires AlarmInv(cfg, g.alarm, me) && PrimaryActive(cfg, g.alarm, me) && me.handler.Quiet?
    requires me.place.Shell? && ShellPlan(cfg, g, me.place.at, ch) == Do(Irq(x), next)
    ensures var r := ExecGic(cfg, g, me, cfg.primary, x); r.Effect? ==> AlarmInv(cfg, g.alarm, r.me.(place := next))
  {
  }

  lemma AlarmDo(cfg: Config, g: Globals, me: Core, ch: Choice, x: Instr, next: Place)
    requires AlarmInv(cfg, g.alarm, me) && PrimaryActive(cfg, g.alarm, me) && me.handler.Quiet?
             && cfg.primary < |g.tables.priv|
    requires me.place.Shell? && ShellPlan(cfg, g, me.place.at, ch) == Do(x, next)
    ensures var r := ExecInstr(cfg, g, me, cfg.primary, x); r.Effect? ==> AlarmInv(cfg, r.g.alarm, r.me.(place := next))
  {
    InstrFrame(cfg, g, me, cfg.primary, x);
    if x.Rtc? { AlarmRtc(cfg, g, me, ch, x.a, next); }
    else if x.Irq? { AlarmEnd(cfg, g, me, ch, x.q, next); }
    else { assert !me.place.at.Finish? && !(next.Shell? && next.at.Finish?); }
  }

  lemma BootAlarm(cfg: Config, g: Globals, me: Core, x: Instr, next: Place)
    requires AlarmInv(cfg, g.alarm, me) && cfg.primary < |g.tables.priv|
    requires me.place.Boot? && BootPlan(cfg.platform, me.place.n) == Do(x, next)
    ensures var r := ExecInstr(cfg, g, me, cfg.primary, x); r.Effect? ==> AlarmInv(cfg, r.g.alarm, r.me.(place := next))
  {
    InstrFrame(cfg, g, me, cfg.primary, x);
    assert !x.Rtc? && (x.Irq? ==> !x.q.End?);
  }

  lemma StackTaken(cfg: Config, g: Globals, me: Core, t: nat)
    requires StacksOk(cfg, g.cpus)
    ensures var r := ExecCpu(g, me, cfg.primary, TakeStack(t));
            r.Effect? && StacksOk(cfg, r.g.cpus) && t in r.g.cpus.stacks && r.g.cpus.power == g.cpus.power
  {
  }

  lemma StackStarted(cfg: Config, g: Globals, me: Core, t: nat)
    requires StacksOk(cfg, g.cpus) && t < cfg.count && t != cfg.primary
    ensures var r := ExecCpu(g, me, cfg.primary, PowerOn(t)); r.Effect? ==> StacksOk(cfg, r.g.cpus)
  {
  }

  lemma StackTakeDo(cfg: Config, g: Globals, me: Core, t: nat)
    requires StackInv(cfg, g.cpus, me) && me.place == Shell(Take(t))
    ensures var r := ExecCpu(g, me, cfg.primary, TakeStack(t));
            StackInv(cfg, r.g.cpus, r.me.(place := Shell(FreeStacks(t))))
  {
    StackTaken(cfg, g, me, t);
  }

  lemma StackStartDo(cfg: Config, g: Globals, me: Core, t: nat)
    requires StackInv(cfg, g.cpus, me) && me.place == Shell(Start(t))
    ensures var r := ExecCpu(g, me, cfg.primary, PowerOn(t));
            r.Effect? ==> StackInv(cfg, r.g.cpus, r.me.(place := Shell(Report)))
  {
    StackStarted(cfg, g, me, t);
  }

  lemma StackPlace(cfg: Config, g: Globals, me: Core, ch: Choice, x: Instr, next: Place)
    requires StackInv(cfg, g.cpus, me) && me.place.Shell? && !me.place.at.Take? && !me.place.at.Start?
    requires ShellPlan(cfg, g, me.place.at, ch) == Do(x, next)
    ensures StartOk(cfg, g.cpus, next) && (x.Cpu? ==> x.p.SystemOff?)
  {
  }

  lemma StackDo(cfg: Config, g: Globals, me: Core, ch: Choice, x: Instr, next: Place)
    requires StackInv(cfg, g.cpus, me) && me.place.Shell? && cfg.primary < |g.tables.priv|
    requires ShellPlan(cfg, g, me.place.at, ch) == Do(x, next)
    ensures var r := ExecInstr(cfg, g, me, cfg.primary, x); r.Effect? ==> StackInv(cfg, r.g.cpus, r.me.(place := next))
  {
    if me.place.at.Take? { StackTakeDo(cfg, g, me, me.place.at.t); }
    else if me.place.at.Start? { StackStartDo(cfg, g, me, me.place.at.t); }
    else {
      StackPlace(cfg, g, me, ch, x, next);
      InstrFrame(cfg, g, me, cfg.primary, x);
    }
  }

  lemma BootStack(cfg: Config, g: Globals, me: Core, x: Instr, next: Place)
    requires StackInv(cfg, g.cpus, me) && cfg.primary < |g.tables.priv|
    requires me.place.Boot? && BootPlan(cfg.platform, me.place.n) == Do(x, next)
    ensures var r := ExecInstr(cfg, g, me, cfg.primary, x); r.Effect? ==> StackInv(cfg, r.g.cpus, r.me.(place := next))
  {
    InstrFrame(cfg, g, me, cfg.primary, x);
    assert x.Cpu? ==> x.p.ActivatePt? || x.p.StorePt? || x.p.InitGic?;
    assert Target(next).None? && !(next.Shell? && (next.at.FreeStacks? || next.at.Push? || next.at.Start?));
  }

  lemma MoveStart(cfg: Config, g: Globals, me: Core, ch: Choice, next: Place, call: Call)
    requires StackInv(cfg, g.cpus, me) && me.place.Shell? && g.cpus.power[cfg.primary].On?
    requires ShellPlan(cfg, g, me.place.at, ch) == Jump(next)
             || (call.Busy? && ShellPlan(cfg, g, me.place.at, ch) == Begin(call.kind, next))
    ensures StartOk(cfg, g.cpus, next) && next.Shell? && !me.place.at.Finish? && !next.at.Finish?
  {
  }

  lemma MoveDevices(cfg: Config, g: Globals, me: Core, ch: Choice, next: Place, call: Call)
    requires DeviceInv(cfg, g, me) && PrimaryPlace(me.place) && g.cpus.power[cfg.primary].On?
    requires PlanOf(cfg, g, me.place, ch) == Jump(next)
             || (call.Busy? && PlanOf(cfg, g, me.place, ch) == Begin(call.kind, next))
    ensures DeviceInv(cfg, g, me.(place := next, call := call))
  {
    if me.place.Shell? { MoveStart(cfg, g, me, ch, next, call); } else { assert next.Boot?; }
  }

  lemma ThreadDevices(cfg: Config, g: Globals, me: Core, ch: Choice)
    requires DeviceInv(cfg, g, me) && PrimaryInv(cfg, g, me) && g.panic.None? && me.handler.Quiet?
             && g.cpus.power[cfg.primary].On?
    ensures var r := ThreadStep(cfg, g, me, cfg.primary, ch); r.Effect? ==> DeviceInv(cfg, r.g, r.me)
  {
    if me.call.Busy? { CallDevices(cfg, g, me, ch); }
    else {
      match PlanOf(cfg, g, me.place, ch)
      case Do(x, next) => DoDevices(cfg, g, me, ch, x, next);
      case Begin(kind, next) => MoveDevices(cfg, g, me, ch, next, Busy(kind, 0));
      case Jump(next) => MoveDevices(cfg, g, me, ch, next, Idle);
      case Wait =>
    }
  }

  lemma DoHandled(cfg: Config, g: Globals, me: Core, x: Instr)
    requires HandledInv(cfg, g.alarm, me.handler) && x != Rtc(StoreAlarm) && cfg.primary < |g.tables.priv|
    ensures var r := ExecInstr(cfg, g, me, cfg.primary, x); r.Effect? ==> HandledInv(cfg, r.g.alarm, me.handler)
  {
    if x.Rtc? { AlarmCounts(g, me, x.a); } else { InstrFrame(cfg, g, me, cfg.primary, x); }
  }

  lemma AlarmCounts(g: Globals, me: Core, x: AlarmOp)
    requires !x.StoreAlarm?
    ensures var r := ExecAlarm(g, me, x); r.g.alarm.acks == g.alarm.acks && r.g.alarm.stores == g.alarm.stores
  {
  }

  lemma DoDevices(cfg: Config, g: Globals, me: Core, ch: Choice, x: Instr, next: Place)
    requires DeviceInv(cfg, g, me) && PrimaryInv(cfg, g, me) && g.panic.None? && me.handler.Quiet? && me.call.Idle?
    requires PlanOf(cfg, g, me.place, ch) == Do(x, next)
    ensures var r := ThreadStep(cfg, g, me, cfg.primary, ch); r.Effect? ==> DeviceInv(cfg, r.g, r.me)
  {
    PlanGroup(cfg, g, me.place, ch);
    InstrFrame(cfg, g, me, cfg.primary, x);
    DoHandled(cfg, g, me, x);
    if me.place.Boot? {
      BootAlarm(cfg, g, me, x, next);
      BootStack(cfg, g, me, x, next);
      BootDoSafe(cfg, g, me, x, next);
    } else {
      AlarmDo(cfg, g, me, ch, x, next);
      StackDo(cfg, g, me, ch, x, next);
      ShellDoBooted(cfg, g, me, ch, x, next);
    }
  }

  lemma HandlerDevices(cfg: Config, g: Globals, me: Core, ch: Choice)
    requires DeviceInv(cfg, g, me) && PrimaryInv(cfg, g, me) && g.panic.None? && !me.handler.Quiet? && InRange(me)
    ensures var r := HandlerStep(cfg, g, me, cfg.primary, ch); r.Effect? ==> DeviceInv(cfg, r.g, r.me)
  {
    HandlerFrame(cfg, g, me, cfg.primary, ch);
    if me.handler.Body? {
      BodyDevices(cfg, g, me, ch);
      BodyHandled(cfg, g, me, ch);
    } else if me.handler.Entered? {
      AckDevices(cfg, g, me, ch);
      AckHandled(cfg, g, me, ch);
    } else {
      SeekDevices(cfg, g, me, ch);
      SeekHandled(cfg, g, me, ch);
    }
  }

  lemma AckHandled(cfg: Config, g: Globals, me: Core, ch: Choice)
    requires HandledInv(cfg, g.alarm, me.handler) && cfg.primary < |g.tables.priv| && me.handler.Entered?
    ensures var r := HandlerStep(cfg, g, me, cfg.primary, ch); r.Effect? ==> HandledInv(cfg, r.g.alarm, r.me.handler)
  {
  }

  lemma SeekHandled(cfg: Config, g: Globals, me: Core, ch: Choice)
    requires HandledInv(cfg, g.alarm, me.handler) && PrimaryHandler(cfg, g, me) && PrimaryTables(cfg, g.tables, me)
             && PrimaryGic(cfg, me)
    requires !me.handler.Body? && !me.handler.Entered? && g.panic.None?
    ensures var r := HandlerStep(cfg, g, me, cfg.primary, ch); r.Effect? ==> HandledInv(cfg, g.alarm, r.me.handler)
  {
  }

  lemma BodyHandled(cfg: Config, g: Globals, me: Core, ch: Choice)
    requires HandledInv(cfg, g.alarm, me.handler) && PrimaryHandler(cfg, g, me) && PrimaryGic(cfg, me)
    requires me.handler.Body? && InRange(me) && g.panic.None? && cfg.primary < |g.tables.priv|
    ensures var r := HandlerStep(cfg, g, me, cfg.primary, ch); r.Effect? ==> HandledInv(cfg, r.g.alarm, r.me.handler)
  {
    var x := BodyInstr(cfg.platform, me.handler.h, me.handler.i, me.handler.at);
    BodyGroup(cfg.platform, me.handler.h, me.handler.i, me.handler.at);
    InstrFrame(cfg, g, me, cfg.primary, x);
    if x.Sync? { SyncFrame(g, me, cfg.primary, x.s); }
  }

  lemma SeekDevices(cfg: Config, g: Globals, me: Core, ch: Choice)
    requires cfg.primary < |g.tables.priv| && !me.handler.Body? && !me.handler.Entered?
    ensures var r := HandlerStep(cfg, g, me, cfg.primary, ch);
            r.Effect? ==> r.g.alarm == g.alarm && r.g.console == g.console && r.me.active == me.active
  {
  }

  lemma AckDevices(cfg: Config, g: Globals, me: Core, ch: Choice)
    requires AlarmInv(cfg, g.alarm, me) && ConsoleInv(g.console) && PrimaryInv(cfg, g, me) && me.handler.Entered?
    ensures var r := HandlerStep(cfg, g, me, cfg.primary, ch);
            r.Effect? ==> AlarmInv(cfg, r.g.alarm, r.me) && ConsoleInv(r.g.console)
  {
    var r := HandlerStep(cfg, g, me, cfg.primary, ch);
    if r.Effect? && ch.Pick? {
      assert ch.i in me.enabled && ch.i !in me.active;
      assert r.me.active == me.active + [ch.i];
      assert RtcIrq(cfg.platform) in r.me.active <==> RtcIrq(cfg.platform) in me.active || ch.i == RtcIrq(cfg.platform);
    }
  }

  lemma BodyAlarm(cfg: Config, g: Globals, me: Core, x: Instr)
    requires AlarmInv(cfg, g.alarm, me) && ConsoleInv(g.console) && PrimaryInv(cfg, g, me) && me.handler.Body?
             && InRange(me)
    requires x == BodyInstr(cfg.platform, me.handler.h, me.handler.i, me.handler.at)
    ensures var r := ExecInstr(cfg, g, me, cfg.primary, x);
            r.Effect? ==> AlarmInv(cfg, r.g.alarm, r.me) && ConsoleInv(r.g.console)
  {
    BodyGroup(cfg.platform, me.handler.h, me.handler.i, me.handler.at);
    if x.Irq? { EndConsole(cfg, g, me); }
    else if x.Rtc? { assert !g.alarm.fired; }
    else { InstrFrame(cfg, g, me, cfg.primary, x); }
  }

  /** Ending the console interrupt leaves the alarm where it was. */
  lemma EndConsole(cfg: Config, g: Globals, me: Core)
    requires AlarmInv(cfg, g.alarm, me) && PrimaryActive(cfg, g.alarm, me) && PrimaryHandler(cfg, g, me)
    requires me.handler.Body? && me.handler.h.ConsoleHandler? && me.handler.at <= 3
    ensures var r := ExecGic(cfg, g, me, cfg.primary, End(me.handler.i)); AlarmInv(cfg, r.g.alarm, r.me)
  {
    assert me.handler.i != RtcIrq(cfg.platform);
    assert me.active[..|me.active| - 1] == Base(cfg, g.alarm, me);
  }

  lemma BodyDevices(cfg: Config, g: Globals, me: Core, ch: Choice)
    requires AlarmInv(cfg, g.alarm, me) && ConsoleInv(g.console) && PrimaryInv(cfg, g, me) && g.panic.None?
             && me.handler.Body? && InRange(me)
    ensures var r := HandlerStep(cfg, g, me, cfg.primary, ch);
            r.Effect? ==> AlarmInv(cfg, r.g.alarm, r.me) && ConsoleInv(r.g.console)
  {
    var x := BodyInstr(cfg.platform, me.handler.h, me.handler.i, me.handler.at);
    BodyAlarm(cfg, g, me, x);
    InstrFrame(cfg, g, me, cfg.primary, x);
  }

  // ---------------------------------------------------------------- every step

  lemma SecondaryDevices(cfg: Config, g: Globals, g': Globals, me: Core, c: nat)
    requires DeviceInv(cfg, g, me) && SecondaryScope(g, g', c) && c != cfg.primary && c < cfg.count
    ensures DeviceInv(cfg, g', me)
  {
  }

  lemma PrimaryDevices(cfg: Config, g: Globals, me: Core, ch: Choice)
    requires DeviceInv(cfg, g, me) && PrimaryInv(cfg, g, me) && g.panic.None? && g.cpus.power[cfg.primary].On?
             && InRange(me)
    ensures var r := Exec(cfg, g, me, cfg.primary, ch); r.Effect? ==> DeviceInv(cfg, r.g, r.me)
  {
    if me.handler.Quiet? { ThreadDevices(cfg, g, me, ch); } else { HandlerDevices(cfg, g, me, ch); }
  }

  lemma RunDevices(cfg: Config, s: State, c: nat, ch: Choice)
    requires KernelInv(cfg, s) && DeviceInv(cfg, s.g, s.cores[cfg.primary]) && Step(cfg, s, Run(c, ch)).Some?
    ensures var s' := Step(cfg, s, Run(c, ch)).value;
            |s'.cores| == cfg.count && DeviceInv(cfg, s'.g, s'.cores[cfg.primary])
  {
    assert LockInv(s.g.tables.owner, s.cores[c], c);
    if c == cfg.primary {
      PrimaryDevices(cfg, s.g, s.cores[c], ch);
    } else {
      SecondaryStepKeeps(cfg, s.g, s.cores[c], c, ch);
      SecondaryDevices(cfg, s.g, Step(cfg, s, Run(c, ch)).value.g, s.cores[cfg.primary], c);
    }
  }

  lemma EventDevices(cfg: Config, s: State, e: Event)
    requires Shaped(cfg, s) && DeviceInv(cfg, s.g, s.cores[cfg.primary]) && Step(cfg, s, e).Some?
    requires e.ByteIn? || e.Match? || e.Line? || e.Interrupt?
    ensures var s' := Step(cfg, s, e).value; |s'.cores| == cfg.count && DeviceInv(cfg, s'.g, s'.cores[cfg.primary])
  {
    var s' := Step(cfg, s, e).value;
    if e.ByteIn? { assert s'.g.console.received == s'.g.console.delivered + s'.g.console.fifo; }
  }

  lemma DeviceStep(cfg: Config, s: State, e: Event)
    requires KernelInv(cfg, s) && DeviceInv(cfg, s.g, s.cores[cfg.primary]) && Step(cfg, s, e).Some?
    ensures var s' := Step(cfg, s, e).value;
            Shaped(cfg, s') && DeviceInv(cfg, s'.g, s'.cores[cfg.primary])
  {
    StepShaped(cfg, s, e);
    match e
    case Run(c, ch) => RunDevices(cfg, s, c, ch);
    case PowerUp(c) => PowerUpDevices(cfg, s, c);
    case _ => EventDevices(cfg, s, e);
  }

  lemma PowerUpDevices(cfg: Config, s: State, c: nat)
    requires KernelInv(cfg, s) && DeviceInv(cfg, s.g, s.cores[cfg.primary]) && Step(cfg, s, PowerUp(c)).Some?
    ensures var s' := Step(cfg, s, PowerUp(c)).value;
            |s'.cores| == cfg.count && DeviceInv(cfg, s'.g, s'.cores[cfg.primary])
  {
    SecondaryDevices(cfg, s.g, Step(cfg, s, PowerUp(c)).value.g, s.cores[cfg.primary], c);
  }

  lemma {:induction false} DevicesAlways(cfg: Config, s: State, es: seq<Event>)
    requires KernelInit(cfg, s) && After(cfg, s, es).Some?
    ensures DeviceInv(cfg, After(cfg, s, es).value.g, After(cfg, s, es).value.cores[cfg.primary])
    decreases |es|
  {
    if es != [] {
      DevicesAlways(cfg, s, es[..|es| - 1]);
      KernelAlways(cfg, s, es[..|es| - 1]);
      DeviceStep(cfg, After(cfg, s, es[..|es| - 1]).value, es[|es| - 1]);
    }
  }

  // ---------------------------------------------------------------- the alarm

  predicate StoringAlarm(cfg: Config, me: Core) {
    me.handler.Body? && BodyInstr(cfg.platform, me.handler.h, me.handler.i, me.handler.at) == Rtc(StoreAlarm)
  }

  /** The RTC handler never finds the flag set; handler runs minus finished alarms are the flag; and
      a match gives at most one handler run: what is not acknowledged was merged into a match whose
      level was still on the line, or is waiting. */
  lemma AlarmAccounting(cfg: Config, s: State, es: seq<Event>)
    requires KernelInit(cfg, s) && After(cfg, s, es).Some?
    ensures var t := After(cfg, s, es).value;
            var a := t.g.alarm;
            && (StoringAlarm(cfg, t.cores[cfg.primary]) ==> !a.fired)
            && a.stores - a.swaps == Bit(a.fired)
            && a.stores <= a.acks <= a.stores + 1
            && a.acks + a.merged + Bit(a.raw && !a.served) == a.matches
  {
    DevicesAlways(cfg, s, es);
    KernelAlways(cfg, s, es);
    var t := After(cfg, s, es).value;
    assert LockInv(t.g.tables.owner, t.cores[cfg.primary], cfg.primary);
    if StoringAlarm(cfg, t.cores[cfg.primary]) { StoringUnset(cfg, t.g, t.cores[cfg.primary]); }
  }

  lemma StoringUnset(cfg: Config, g: Globals, me: Core)
    requires PrimaryInv(cfg, g, me) && InRange(me) && StoringAlarm(cfg, me)
    ensures !g.alarm.fired
  {
    BodyGroup(cfg.platform, me.handler.h, me.handler.i, me.handler.at);
  }

  /** Clearing the line before ending is what prevents a second run: when the interrupt ends, the
      level it was acknowledged for is gone. */
  lemma ClearedBeforeEnd(cfg: Config, s: State, es: seq<Event>)
    requires KernelInit(cfg, s) && After(cfg, s, es).Some?
    ensures var t := After(cfg, s, es).value;
            RtcIrq(cfg.platform) !in t.cores[cfg.primary].active
              || Ending(cfg, t.cores[cfg.primary]) == Some(RtcIrq(cfg.platform))
            ==> !t.g.alarm.served
  {
    DevicesAlways(cfg, s, es);
    KernelAlways(cfg, s, es);
    var t := After(cfg, s, es).value;
    var me := t.cores[cfg.primary];
    if me.handler.Body? { BodyGroup(cfg.platform, me.handler.h, me.handler.i, me.handler.at); }
  }

  /** `set_match` with an alarm that has not been finished. */
  lemma ArmStep(cfg: Config, s: State)
    requires Shaped(cfg, s) && !Halted(s) && s.g.cpus.power[cfg.primary].On?
    requires var me := s.cores[cfg.primary]; me.place == Shell(Arm(true)) && me.call.Idle? && me.handler.Quiet?
    ensures var r := Step(cfg, s, Run(cfg.primary, Go));
            && r.Some? && Shaped(cfg, r.value) && !Halted(r.value)
            && r.value.g.alarm == s.g.alarm.(armed := true)
  {
  }

  // ---------------------------------------------------------------- the console

  /** Reads deliver what was received, in order and without gaps; and after `read_ready` has said yes
      there is something to read, whatever happened since. */
  lemma ReadsArePrefix(cfg: Config, s: State, es: seq<Event>)
    requires KernelInit(cfg, s) && After(cfg, s, es).Some?
    ensures var u := After(cfg, s, es).value.g.console;
            u.delivered <= u.received && (u.ready ==> u.fifo != [])
  {
    DevicesAlways(cfg, s, es);
  }

  /** The primary core's thread is inside `read` or `read_ready`, at the UART. */
  predicate AtUart(me: Core) {
    me.handler.Quiet? && me.call.Busy? && (me.call.kind.Read? || me.call.kind.Poll?) && me.call.at == 2
  }

  /** The receive queue keeps its bytes, and nothing changes what was read or what `read` and `read_ready`
      said. */
  predicate Unread(u: Console, v: Console) {
    u.fifo <= v.fifo && v.delivered == u.delivered && v.ready == u.ready && v.got == u.got
  }

  lemma ComUnread(g: Globals, me: Core)
    ensures Unread(g.console, ExecConsole(g, me, ClearRx).g.console)
  {
  }

  lemma BodyUnread(cfg: Config, g: Globals, me: Core, c: nat, h: Handler, i: IntId, at: nat)
    requires c < |g.tables.priv|
    ensures var r := ExecInstr(cfg, g, me, c, BodyInstr(cfg.platform, h, i, at));
            r.Effect? ==> Unread(g.console, r.g.console)
  {
    var x := BodyInstr(cfg.platform, h, i, at);
    BodyGroup(cfg.platform, h, i, at);
    if x.Com? {
      assert x.u == ClearRx;
      ComUnread(g, me);
    } else {
      InstrFrame(cfg, g, me, c, x);
    }
  }

  lemma SeekUnread(cfg: Config, g: Globals, me: Core, c: nat, ch: Choice)
    requires c < |g.tables.priv| && !me.handler.Quiet? && !me.handler.Body?
    ensures var r := HandlerStep(cfg, g, me, c, ch); r.Effect? ==> Unread(g.console, r.g.console)
  {
    match me.handler
    case Acked(_) => SyncFrame(g, me, c, Mask);
    case SeekTable(_) => SyncFrame(g, me, c, Acquire(Table));
    case DropTable => SyncFrame(g, me, c, Release(Table));
    case Leaving => SyncFrame(g, me, c, Restore);
    case _ =>
  }

  lemma HandlerUnread(cfg: Config, g: Globals, me: Core, c: nat, ch: Choice)
    requires c < |g.tables.priv| && !me.handler.Quiet?
    ensures var r := HandlerStep(cfg, g, me, c, ch); r.Effect? ==> Unread(g.console, r.g.console)
  {
    if me.handler.Body? {
      BodyUnread(cfg, g, me, c, me.handler.h, me.handler.i, me.handler.at);
    } else {
      SeekUnread(cfg, g, me, c, ch);
    }
  }

  lemma ThreadUnread(cfg: Config, g: Globals, me: Core, c: nat, ch: Choice)
    requires c < |g.tables.priv| && me.handler.Quiet? && !AtUart(me)
    ensures var r := ThreadStep(cfg, g, me, c, ch); r.Effect? ==> Unread(g.console, r.g.console)
  {
    if me.call.Busy? {
      var x := CallInstr(me.call.kind, me.call.at);
      CallGroup(me.call.kind, me.call.at);
      assert !x.Com?;
      InstrFrame(cfg, g, me, c, x);
    } else {
      PlanGroup(cfg, g, me.place, ch);
      var plan := PlanOf(cfg, g, me.place, ch);
      if plan.Do? { InstrFrame(cfg, g, me, c, plan.x); }
    }
  }

  /** Only the owner's own calls take bytes out: no step of any other core, no step of any handler on any
      core, no interrupt and no device does, in any state at all. */
  lemma OnlyOwnerReads(cfg: Config, s: State, es: seq<Event>, e: Event)
    requires KernelInit(cfg, s) && After(cfg, s, es).Some? && Step(cfg, After(cfg, s, es).value, e).Some?
    requires e.Run? && e.c == cfg.primary ==> !AtUart(After(cfg, s, es).value.cores[cfg.primary])
    ensures Unread(After(cfg, s, es).value.g.console, Step(cfg, After(cfg, s, es).value, e).value.g.console)
  {
    var t := After(cfg, s, es).value;
    if e.Run? {
      var me := t.cores[e.c];
      if e.c != cfg.primary {
        KernelAlways(cfg, s, es);
        SecondaryNotAtUart(cfg, t.g, me, e.c);
      }
      if me.handler.Quiet? { ThreadUnread(cfg, t.g, me, e.c, e.ch); } else { HandlerUnread(cfg, t.g, me, e.c, e.ch); }
    }
  }

  lemma SecondaryNotAtUart(cfg: Config, g: Globals, me: Core, c: nat)
    requires SecondaryInv(cfg, g, me, c)
    ensures !AtUart(me)
  {
  }

  lemma ReadStep(cfg: Config, g: Globals, me: Core, n: nat)
    requires cfg.primary < |g.tables.priv| && g.panic.None? && me.handler.Quiet? && me.call == Busy(Read(n), 2)
    ensures ThreadStep(cfg, g, me, cfg.primary, Go) ==
            Effect(ExecConsole(g, me, TryRead(n)).g, me.(call := Busy(Read(n), 3)))
  {
    ConsoleFrame(g, me, TryRead(n));
  }

  /** Hence the read that follows `read_ready` returns data at once. */
  lemma ReadyReadDoesNotWait(cfg: Config, s: State, es: seq<Event>, n: nat)
    requires KernelInit(cfg, s) && After(cfg, s, es).Some? && !Halted(After(cfg, s, es).value)
    requires var t := After(cfg, s, es).value;
             t.g.console.ready && n >= 1 && t.cores[cfg.primary].handler.Quiet?
               && t.cores[cfg.primary].call == Busy(Read(n), 2)
    ensures var t := After(cfg, s, es).value;
            var r := Step(cfg, t, Run(cfg.primary, Go));
            && r.Some? && r.value.g.console.got
            && t.g.console.delivered < r.value.g.console.delivered <= r.value.g.console.received
  {
    DevicesAlways(cfg, s, es);
    KernelAlways(cfg, s, es);
    var t := After(cfg, s, es).value;
    ReadStep(cfg, t.g, t.cores[cfg.primary], n);
    ReadTakes(t.g, t.cores[cfg.primary], n);
  }

  lemma ReadTakes(g: Globals, me: Core, n: nat)
    requires ConsoleInv(g.console) && g.console.ready && n >= 1
    ensures var u := ExecConsole(g, me, TryRead(n)).g.console;
            u.got && g.console.delivered < u.delivered <= u.received
  {
    ConsoleKeeps(g, me, TryRead(n));
  }

  // ---------------------------------------------------------------- secondary stacks

  /** No two running cores share a stack, and the stack being prepared for a start is in use by no
      core: its core is off. */
  lemma StacksSeparate(cfg: Config, s: State, es: seq<Event>)
    requires KernelInit(cfg, s) && After(cfg, s, es).Some?
    ensures var t := After(cfg, s, es).value;
            var b := t.g.cpus;
            && (forall c: nat :: c < cfg.count && c != cfg.primary && !b.power[c].Off? ==>
                  c in b.inUse && c in b.stacks && b.inUse[c] == b.stacks[c])
            && (forall c, d :: c in b.inUse && d in b.inUse && c != d ==> b.inUse[c] != b.inUse[d])
            && (Target(t.cores[cfg.primary].place).Some? ==>
                  var u := Target(t.cores[cfg.primary].place).value;
                  && u < cfg.count && b.power[u].Off?
                  && forall d :: d in b.inUse && u in b.stacks ==> b.inUse[d] != b.stacks[u])
  {
    DevicesAlways(cfg, s, es);
  }

  lemma CpuStacks(g: Globals, me: Core, c: nat, x: CpuOp)
    ensures var r := ExecCpu(g, me, c, x);
            r.Effect? ==>
              forall t :: t in g.cpus.stacks ==> t in r.g.cpus.stacks && r.g.cpus.stacks[t] == g.cpus.stacks[t]
  {
  }

  /** A stack once allocated is never freed or replaced. */
  lemma StacksStay(cfg: Config, s: State, e: Event)
    requires Shaped(cfg, s) && Step(cfg, s, e).Some?
    ensures var b, b' := s.g.cpus, Step(cfg, s, e).value.g.cpus;
            forall t :: t in b.stacks ==> t in b'.stacks && b'.stacks[t] == b.stacks[t]
  {
    if e.Run? {
      var g, me, c := s.g, s.cores[e.c], e.c;
      if !me.handler.Quiet? { HandlerFrame(cfg, g, me, c, e.ch); }
      else if me.call.Busy? { CallFrame(cfg, g, me, c, e.ch); }
      else {
        var plan := PlanOf(cfg, g, me.place, e.ch);
        if plan.Do? && plan.x.Cpu? { CpuStacks(g, me, c, plan.x.p); }
        else if plan.Do? { InstrFrame(cfg, g, me, c, plan.x); }
      }
    }
  }

  /** A core that comes up finds the page table stored and active, and the GIC initialised. */
  lemma SecondaryFindsBootDone(cfg: Config, s: State, es: seq<Event>, c: nat)
    requires KernelInit(cfg, s) && After(cfg, s, es).Some? && c < cfg.count && c != cfg.primary
    requires !After(cfg, s, es).value.g.cpus.power[c].Off?
    ensures var b := After(cfg, s, es).value.g.cpus; b.stored && b.active && b.gicReady
  {
    KernelAlways(cfg, s, es);
    assert SecondaryInv(cfg, After(cfg, s, es).value.g, After(cfg, s, es).value.cores[c], c);
  }
}
