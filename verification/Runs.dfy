/** Every state of every run of the kernel, and what it implies: ended interrupts, alarms, unexpected
    interrupts. */
module Runs {
  import opened Wrappers
  import opened Machine
  import opened Frames
  import opened Locks
  import opened Dispatch
  import opened Kernel
  import opened Secondaries

  /** The two ways to panic, each for its own core and interrupt: an alarm on the primary core after
      its handler has been removed, an SGI on a secondary core after `wfi` returned early. */
  ghost predicate Explained(cfg: Config, s: State)
    requires Shaped(cfg, s) && s.g.panic.Some?
  {
    var why := s.g.panic.value;
    && why.UnexpectedIrq? && why.c < cfg.count
    && if why.c == cfg.primary then RemovedAlarm(cfg, s.cores[why.c], why) else Early(s.cores[why.c], why.c, why)
  }

  ghost predicate KernelInv(cfg: Config, s: State) {
    && AllLocks(cfg, s) && s.g.cpus.power[cfg.primary].On?
    && PrimaryInv(cfg, s.g, s.cores[cfg.primary])
    && (forall c :: 0 <= c < cfg.count && c != cfg.primary ==> SecondaryInv(cfg, s.g, s.cores[c], c))
    && (s.g.panic.Some? ==> Explained(cfg, s))
  }

  // ---------------------------------------------------------------- what cores leave alone

  /** What a step of secondary core `c` leaves alone. */
  ghost predicate SecondaryScope(g: Globals, g': Globals, c: nat) {
    && SameSize(g, g') && g'.alarm == g.alarm && g'.console == g.console && g'.tables.shared == g.tables.shared
    && g'.off == g.off
    && (forall d :: 0 <= d < |g.tables.priv| && d != c ==> g'.tables.priv[d] == g.tables.priv[d])
    && (forall d :: 0 <= d < |g.pend| && d != c ==> g'.pend[d] == g.pend[d])
    && (forall d :: 0 <= d < |g.cpus.power| && d != c ==> g'.cpus.power[d] == g.cpus.power[d])
    && g'.cpus == g.cpus.(power := g'.cpus.power, inUse := g'.cpus.inUse)
    && (|| (g'.cpus.power == g.cpus.power && g'.cpus.inUse == g.cpus.inUse)
        || (c < |g.cpus.power| && g'.cpus.power == g.cpus.power[c := Off] && g'.cpus.inUse == g.cpus.inUse - {c})
        || (c < |g.cpus.power| && g.cpus.power[c].OnPending? && g'.cpus.power == g.cpus.power[c := On]
            && g'.cpus.inUse == g.cpus.inUse))
  }

  /** What a step of a call leaves alone; a secondary core calls nothing that changes the shared table. */
  lemma SecondaryAccessScope(cfg: Config, g: Globals, me: Core, c: nat, ch: Choice)
    requires PlaceInv(cfg, me, c) && c != cfg.primary && c < |g.tables.priv| && g.panic.None? && me.handler.Quiet?
    requires me.call.Busy? && NextAccess(me).Some?
    ensures var r := ThreadStep(cfg, g, me, c, ch); r.Effect? ==> SecondaryScope(g, r.g, c)
  {
    AccessStep(cfg, g, me, c, ch);
    var x := NextAccess(me).value;
    assert !x.InsertShared? && !x.RemoveShared?;
    TableFrame(g, me, c, x);
  }

  lemma SecondaryCallScope(cfg: Config, g: Globals, me: Core, c: nat, ch: Choice)
    requires PlaceInv(cfg, me, c) && c != cfg.primary && c < |g.tables.priv| && g.panic.None? && me.handler.Quiet?
    requires me.call.Busy? && InRange(me)
    ensures var r := ThreadStep(cfg, g, me, c, ch); r.Effect? ==> SecondaryScope(g, r.g, c)
  {
    if NextAccess(me).Some? {
      SecondaryAccessScope(cfg, g, me, c, ch);
    } else {
      var x := CallInstr(me.call.kind, me.call.at);
      CallGroup(me.call.kind, me.call.at);
      InstrFrame(cfg, g, me, c, x);
      assert x.Sync?;
    }
  }

  lemma SecondaryThreadScope(cfg: Config, g: Globals, me: Core, c: nat, ch: Choice)
    requires SecondaryInv(cfg, g, me, c) && g.panic.None? && me.handler.Quiet? && InRange(me)
    ensures var r := ThreadStep(cfg, g, me, c, ch); r.Effect? ==> SecondaryScope(g, r.g, c)
  {
    if me.call.Busy? {
      SecondaryCallScope(cfg, g, me, c, ch);
    } else if me.place.Secondary? {
      var plan := SecondaryPlan(me.place.sec);
      if plan.Do? { SecondaryDoScope(cfg, g, me, c, plan.x, plan.next); }
    }
  }

  lemma SecondaryDoScope(cfg: Config, g: Globals, me: Core, c: nat, x: Instr, next: Place)
    requires me.place.Secondary? && SecondaryPlan(me.place.sec) == Do(x, next) && c < |g.tables.priv|
    ensures var r := ExecInstr(cfg, g, me, c, x); r.Effect? ==> SecondaryScope(g, r.g, c)
  {
    InstrFrame(cfg, g, me, c, x);
    InstrSize(cfg, g, me, c, x);
    assert !x.Tab? && !x.Rtc? && !x.Com? && (x.Cpu? ==> x.p.ActivateSecondary? || x.p.PowerOff?)
           && (x.Irq? ==> !x.q.SendSgi?);
    if x.Irq? { GicFrame(cfg, g, me, c, x.q); }
  }

  lemma SecondaryHandlerScope(cfg: Config, g: Globals, me: Core, c: nat, ch: Choice)
    requires SecondaryInv(cfg, g, me, c) && g.panic.None? && !me.handler.Quiet? && InRange(me)
    ensures var r := HandlerStep(cfg, g, me, c, ch); r.Effect? ==> SecondaryScope(g, r.g, c)
  {
    if me.handler.Body? {
      SecondaryBodyScope(cfg, g, me, c, ch);
    } else {
      HandlerSize(cfg, g, me, c, ch);
      HandlerFrame(cfg, g, me, c, ch);
    }
  }

  lemma SecondaryBodyScope(cfg: Config, g: Globals, me: Core, c: nat, ch: Choice)
    requires SecondaryInv(cfg, g, me, c) && g.panic.None? && me.handler.Body? && InRange(me)
    ensures var r := HandlerStep(cfg, g, me, c, ch); r.Effect? ==> SecondaryScope(g, r.g, c)
  {
    var Body(i, h, _, at) := me.handler;
    assert h.SecondaryHandler?;
    var x := BodyInstr(cfg.platform, h, i, at);
    CallGroup(Log, at);
    assert x.Sync?;
    SyncFrame(g, me, c, x.s);
  }

  /** What a step of the primary core leaves alone on core `d`. */
  ghost predicate PrimaryScope(cfg: Config, g: Globals, g': Globals, d: nat) {
    && SameSize(g, g') && d < |g.tables.priv| && d < |g.pend| && d < |g.cpus.power|
    && g'.tables.priv[d] == g.tables.priv[d] && g.pend[d] <= g'.pend[d]
    && (g.cpus.active ==> g'.cpus.active) && (g.cpus.stored ==> g'.cpus.stored)
    && (g.cpus.gicReady ==> g'.cpus.gicReady)
    && (g'.cpus.power[d] == g.cpus.power[d]
        || (g.cpus.power[d].Off? && g'.cpus.power[d].OnPending? && g'.cpus.active && g'.cpus.stored
            && g'.cpus.gicReady))
  }

  lemma PrimaryCpuScope(cfg: Config, g: Globals, me: Core, x: CpuOp, d: nat)
    requires d != cfg.primary && d < |g.tables.priv| && d < |g.pend| && d < |g.cpus.power| && !x.PowerOff?
    requires x.PowerOn? ==> g.cpus.active && g.cpus.stored && g.cpus.gicReady
    ensures var r := ExecCpu(g, me, cfg.primary, x); r.Effect? ==> PrimaryScope(cfg, g, r.g, d)
  {
  }

  lemma PrimaryDoScope(cfg: Config, g: Globals, me: Core, ch: Choice, x: Instr, next: Place, d: nat)
    requires PrimaryPlace(me.place) && Booted(g, me) && cfg.primary < |g.tables.priv|
    requires PlanOf(cfg, g, me.place, ch) == Do(x, next)
    requires d != cfg.primary && d < |g.tables.priv| && d < |g.pend| && d < |g.cpus.power|
    ensures var r := ExecInstr(cfg, g, me, cfg.primary, x); r.Effect? ==> PrimaryScope(cfg, g, r.g, d)
  {
    if x.Cpu? {
      assert (x.p.PowerOn? ==> me.place.Shell?) && !x.p.PowerOff?;
      PrimaryCpuScope(cfg, g, me, x.p, d);
    } else {
      PlanGroup(cfg, g, me.place, ch);
      InstrFrame(cfg, g, me, cfg.primary, x);
      InstrSize(cfg, g, me, cfg.primary, x);
    }
  }

  lemma PrimaryThreadScope(cfg: Config, g: Globals, me: Core, ch: Choice, d: nat)
    requires PrimaryInv(cfg, g, me) && g.panic.None? && me.handler.Quiet? && InRange(me)
    requires d != cfg.primary && d < |g.tables.priv| && d < |g.pend| && d < |g.cpus.power|
    ensures var r := ThreadStep(cfg, g, me, cfg.primary, ch); r.Effect? ==> PrimaryScope(cfg, g, r.g, d)
  {
    ThreadSize(cfg, g, me, cfg.primary, ch);
    if me.call.Busy? {
      CallFrame(cfg, g, me, cfg.primary, ch);
      if NextAccess(me).Some? {
        AccessStep(cfg, g, me, cfg.primary, ch);
        TableFrame(g, me, cfg.primary, NextAccess(me).value);
      } else {
        NoAccessStep(cfg, g, me, cfg.primary, ch);
      }
    } else {
      var plan := PlanOf(cfg, g, me.place, ch);
      if plan.Do? { PrimaryDoScope(cfg, g, me, ch, plan.x, plan.next, d); }
    }
  }

  lemma PrimaryHandlerScope(cfg: Config, g: Globals, me: Core, ch: Choice, d: nat)
    requires PrimaryInv(cfg, g, me) && g.panic.None? && !me.handler.Quiet?
    requires d != cfg.primary && d < |g.tables.priv| && d < |g.pend| && d < |g.cpus.power|
    ensures var r := HandlerStep(cfg, g, me, cfg.primary, ch); r.Effect? ==> PrimaryScope(cfg, g, r.g, d)
  {
    HandlerSize(cfg, g, me, cfg.primary, ch);
    HandlerFrame(cfg, g, me, cfg.primary, ch);
    if me.handler.Body? {
      var x := BodyInstr(cfg.platform, me.handler.h, me.handler.i, me.handler.at);
      BodyGroup(cfg.platform, me.handler.h, me.handler.i, me.handler.at);
      InstrFrame(cfg, g, me, cfg.primary, x);
      if x.Irq? { GicFrame(cfg, g, me, cfg.primary, x.q); }
    }
  }

  // ---------------------------------------------------------------- other cores' invariants

  lemma PrimaryUnmoved(cfg: Config, g: Globals, g': Globals, me: Core, c: nat)
    requires PrimaryInv(cfg, g, me) && SecondaryScope(g, g', c) && c != cfg.primary
    ensures PrimaryInv(cfg, g', me)
  {
    if me.handler.Entered? {
      var i :| Deliverable(cfg, g, me, cfg.primary, i);
      assert Deliverable(cfg, g', me, cfg.primary, i);
    }
  }

  lemma SecondaryUnmoved(cfg: Config, g: Globals, g': Globals, me: Core, c: nat, d: nat)
    requires SecondaryInv(cfg, g, me, d) && SecondaryScope(g, g', c) && c != d && d < |g.pend|
    ensures SecondaryInv(cfg, g', me, d)
  {
    if me.handler.Entered? {
      var i :| Deliverable(cfg, g, me, d, i);
      assert Deliverable(cfg, g', me, d, i);
    }
  }

  lemma SecondaryUnmovedByPrimary(cfg: Config, g: Globals, g': Globals, me: Core, d: nat)
    requires SecondaryInv(cfg, g, me, d) && PrimaryScope(cfg, g, g', d)
    ensures SecondaryInv(cfg, g', me, d)
  {
    if me.handler.Entered? {
      var i :| Deliverable(cfg, g, me, d, i);
      assert Deliverable(cfg, g', me, d, i);
    }
  }

  // ---------------------------------------------------------------- every step

  lemma PrimaryRunKeeps(cfg: Config, s: State, ch: Choice)
    requires KernelInv(cfg, s) && Step(cfg, s, Run(cfg.primary, ch)).Some?
    ensures KernelInv(cfg, Step(cfg, s, Run(cfg.primary, ch)).value)
  {
    var p, me := cfg.primary, s.cores[cfg.primary];
    var s' := Step(cfg, s, Run(p, ch)).value;
    StepKeepsLocks(cfg, s, Run(p, ch));
    PrimaryStepKeeps(cfg, s.g, me, ch);
    forall d | 0 <= d < cfg.count && d != p ensures SecondaryInv(cfg, s'.g, s'.cores[d], d) {
      if me.handler.Quiet? {
        PrimaryThreadScope(cfg, s.g, me, ch, d);
      } else {
        PrimaryHandlerScope(cfg, s.g, me, ch, d);
      }
      SecondaryUnmovedByPrimary(cfg, s.g, s'.g, s.cores[d], d);
    }
  }

  /** The primary core's step: its invariant, its power state, and the only panic there is. */
  lemma PrimaryStepKeeps(cfg: Config, g: Globals, me: Core, ch: Choice)
    requires PrimaryInv(cfg, g, me) && g.panic.None? && InRange(me) && cfg.primary < |g.cpus.power|
             && g.cpus.power[cfg.primary].On?
    ensures var r := Exec(cfg, g, me, cfg.primary, ch);
            r.Effect? ==>
              && PrimaryInv(cfg, r.g, r.me) && (r.g.panic.Some? ==> RemovedAlarm(cfg, r.me, r.g.panic.value))
              && cfg.primary < |r.g.cpus.power| && r.g.cpus.power[cfg.primary].On?
  {
    if me.handler.Quiet? {
      PrimaryThread(cfg, g, me, ch);
      PrimaryPower(cfg, g, me, ch);
    } else {
      PrimaryHandles(cfg, g, me, ch);
      HandlerFrame(cfg, g, me, cfg.primary, ch);
    }
  }

  lemma PrimaryPower(cfg: Config, g: Globals, me: Core, ch: Choice)
    requires PlaceInv(cfg, me, cfg.primary) && g.panic.None? && me.handler.Quiet?
    requires cfg.primary < |g.tables.priv| && cfg.primary < |g.cpus.power| && g.cpus.power[cfg.primary].On?
    ensures var r := ThreadStep(cfg, g, me, cfg.primary, ch);
            r.Effect? ==> cfg.primary < |r.g.cpus.power| && r.g.cpus.power[cfg.primary].On?
  {
    if me.call.Busy? { CallFrame(cfg, g, me, cfg.primary, ch); }
    else {
      var plan := PlanOf(cfg, g, me.place, ch);
      if plan.Do? {
        InstrFrame(cfg, g, me, cfg.primary, plan.x);
        if plan.x.Cpu? {
          assert !plan.x.p.PowerOff?;
          CpuPower(g, me, cfg.primary, plan.x.p, cfg.primary);
        }
      }
    }
  }

  lemma SecondaryStepKeeps(cfg: Config, g: Globals, me: Core, c: nat, ch: Choice)
    requires SecondaryInv(cfg, g, me, c) && g.panic.None? && InRange(me) && g.cpus.power[c].On?
    requires forall i :: i in g.tables.shared ==> i.Spi?
    ensures var r := Exec(cfg, g, me, c, ch);
            r.Effect? ==> SecondaryInv(cfg, r.g, r.me, c) && SecondaryScope(g, r.g, c)
                          && (r.g.panic.Some? ==> Early(r.me, c, r.g.panic.value))
  {
    if me.handler.Quiet? {
      SecondaryThread(cfg, g, me, c, ch);
      SecondaryThreadScope(cfg, g, me, c, ch);
    } else {
      SecondaryHandles(cfg, g, me, c, ch);
      SecondaryHandlerScope(cfg, g, me, c, ch);
    }
  }

  lemma SecondaryRunKeeps(cfg: Config, s: State, c: nat, ch: Choice)
    requires KernelInv(cfg, s) && Step(cfg, s, Run(c, ch)).Some? && c != cfg.primary
    ensures KernelInv(cfg, Step(cfg, s, Run(c, ch)).value)
  {
    var s' := Step(cfg, s, Run(c, ch)).value;
    StepKeepsLocks(cfg, s, Run(c, ch));
    SecondaryStepKeeps(cfg, s.g, s.cores[c], c, ch);
    PrimaryUnmoved(cfg, s.g, s'.g, s.cores[cfg.primary], c);
    OthersUnmoved(cfg, s, s', c);
    if s'.g.panic.Some? { assert Early(s'.cores[c], c, s'.g.panic.value); }
  }

  lemma OthersUnmoved(cfg: Config, s: State, s': State, c: nat)
    requires KernelInv(cfg, s) && Shaped(cfg, s') && SecondaryScope(s.g, s'.g, c)
    requires forall d :: 0 <= d < cfg.count && d != c ==> s'.cores[d] == s.cores[d]
    ensures forall d :: 0 <= d < cfg.count && d != cfg.primary && d != c ==> SecondaryInv(cfg, s'.g, s'.cores[d], d)
  {
    forall d | 0 <= d < cfg.count && d != cfg.primary && d != c ensures SecondaryInv(cfg, s'.g, s'.cores[d], d) {
      SecondaryUnmoved(cfg, s.g, s'.g, s.cores[d], c, d);
    }
  }

  lemma InterruptPrimary(cfg: Config, g: Globals, me: Core)
    requires PrimaryInv(cfg, g, me) && !me.masked && me.handler.Quiet? && Signalled(cfg, g, me, cfg.primary)
    ensures PrimaryInv(cfg, g, me.(handler := Entered, masked := true))
  {
    var to := me.(handler := Entered, masked := true);
    var i :| Deliverable(cfg, g, me, cfg.primary, i);
    SameRunning(me, to, me.active);
    assert Deliverable(cfg, g, to, cfg.primary, i);
    SameGic(cfg, me, to);
  }

  lemma InterruptSecondary(cfg: Config, g: Globals, me: Core, c: nat)
    requires SecondaryInv(cfg, g, me, c) && !me.masked && me.handler.Quiet? && Signalled(cfg, g, me, c)
             && g.cpus.power[c].On?
    ensures SecondaryInv(cfg, g, me.(handler := Entered, masked := true), c)
  {
    var to := me.(handler := Entered, masked := true);
    var i :| Deliverable(cfg, g, me, c, i);
    SameRunning(me, to, me.active);
    assert Deliverable(cfg, g, to, c, i);
    if me.active != [] { ActiveBlocks(cfg, g, me, c, i); }
    assert forall n :: Registered(me, n) == Registered(to, n);
    SameSecondaryGic(me, to);
  }

  lemma InterruptKeeps(cfg: Config, s: State, c: nat)
    requires KernelInv(cfg, s) && Step(cfg, s, Interrupt(c)).Some?
    ensures KernelInv(cfg, Step(cfg, s, Interrupt(c)).value)
  {
    StepKeepsLocks(cfg, s, Interrupt(c));
    if c == cfg.primary {
      InterruptPrimary(cfg, s.g, s.cores[c]);
    } else {
      InterruptSecondary(cfg, s.g, s.cores[c], c);
    }
  }

  lemma {:induction false} SameRunning(me: Core, to: Core, a: seq<IntId>)
    requires to.prio == me.prio
    ensures Running(to, a) == Running(me, a)
  {
    if a != [] { SameRunning(me, to, a[..|a| - 1]); }
  }

  lemma DeviceKeeps(cfg: Config, s: State, e: Event)
    requires KernelInv(cfg, s) && Step(cfg, s, e).Some? && (e.ByteIn? || e.Match? || e.Line?)
    ensures KernelInv(cfg, Step(cfg, s, e).value)
  {
    StepKeepsLocks(cfg, s, e);
    var g, g', me := s.g, Step(cfg, s, e).value.g, s.cores[cfg.primary];
    if me.handler.Entered? {
      var i :| Deliverable(cfg, g, me, cfg.primary, i);
      assert Deliverable(cfg, g', me, cfg.primary, i);
    }
    assert PrimaryInv(cfg, g', me);
    forall d | 0 <= d < cfg.count && d != cfg.primary ensures SecondaryInv(cfg, g', s.cores[d], d) {
      SecondaryUnmovedByPrimary(cfg, g, g', s.cores[d], d);
    }
  }

  /** A core that comes out of reset. */
  lemma ResetKeeps(cfg: Config, g: Globals, g': Globals, me: Core, c: nat)
    requires SecondaryInv(cfg, g, me, c) && me.place.Halt? && g.cpus.power[c].OnPending?
    requires g' == g.(cpus := g.cpus.(power := g.cpus.power[c := On]))
    ensures SecondaryInv(cfg, g', Reset(me), c)
  {
    assert forall j :: Prio(Reset(me), j) == Prio(me, j);
  }

  lemma PowerUpKeeps(cfg: Config, s: State, c: nat)
    requires KernelInv(cfg, s) && Step(cfg, s, PowerUp(c)).Some?
    ensures KernelInv(cfg, Step(cfg, s, PowerUp(c)).value)
  {
    StepKeepsLocks(cfg, s, PowerUp(c));
    var g, g' := s.g, Step(cfg, s, PowerUp(c)).value.g;
    assert c != cfg.primary;
    PrimaryUnmoved(cfg, g, g', s.cores[cfg.primary], c);
    ResetKeeps(cfg, g, g', s.cores[c], c);
    OthersUnmoved(cfg, s, Step(cfg, s, PowerUp(c)).value, c);
  }

  lemma KernelStep(cfg: Config, s: State, e: Event)
    requires KernelInv(cfg, s) && Step(cfg, s, e).Some?
    ensures KernelInv(cfg, Step(cfg, s, e).value)
  {
    match e
    case Run(c, ch) => if c == cfg.primary { PrimaryRunKeeps(cfg, s, ch); } else { SecondaryRunKeeps(cfg, s, c, ch); }
    case Interrupt(c) => InterruptKeeps(cfg, s, c);
    case ByteIn(b) => DeviceKeeps(cfg, s, e);
    case Match => DeviceKeeps(cfg, s, e);
    case Line(c, n) => DeviceKeeps(cfg, s, e);
    case PowerUp(c) => PowerUpKeeps(cfg, s, c);
  }

  lemma KernelStarts(cfg: Config, s: State)
    requires KernelInit(cfg, s)
    ensures KernelInv(cfg, s)
  {
    LocksAlways(cfg, s, []);
  }

  lemma {:induction false} KernelAlways(cfg: Config, s: State, es: seq<Event>)
    requires KernelInit(cfg, s) && After(cfg, s, es).Some?
    ensures KernelInv(cfg, After(cfg, s, es).value)
    decreases |es|
  {
    if es == [] {
      KernelStarts(cfg, s);
    } else {
      KernelAlways(cfg, s, es[..|es| - 1]);
      KernelStep(cfg, After(cfg, s, es[..|es| - 1]).value, es[|es| - 1]);
    }
  }

  // ---------------------------------------------------------------- acknowledge and end

  /** The interrupt that core `me` is about to end, if any. */
  function Ending(cfg: Config, me: Core): Option<IntId> {
    if me.handler.Body? then
      var x := BodyInstr(cfg.platform, me.handler.h, me.handler.i, me.handler.at);
      if x.Irq? && x.q.End? then Some(x.q.i) else None
    else if me.handler.Quiet? && me.call.Idle? && me.place.Shell? && me.place.at.Finish? then Some(RtcIrq(cfg.platform))
    else None
  }

  lemma EndsLatest(cfg: Config, g: Globals, me: Core)
    requires PrimaryActive(cfg, g.alarm, me) && Ending(cfg, me).Some?
    ensures me.active != [] && me.active[|me.active| - 1] == Ending(cfg, me).value
  {
    if me.handler.Body? { BodyGroup(cfg.platform, me.handler.h, me.handler.i, me.handler.at); }
  }

  lemma UnmaskedActive(cfg: Config, g: Globals, me: Core)
    requires PrimaryInv(cfg, g, me) && me.handler.Quiet?
    ensures me.active == [] || me.active == [RtcIrq(cfg.platform)]
    ensures !me.place.Boot? && g.console.pending ==> Deliverable(cfg, g, me, cfg.primary, ConsoleIrq(cfg.platform))
  {
    assert Running(me, []) == IDLE_PRIORITY;
    assert [RtcIrq(cfg.platform)][..0] == [];
    if !me.place.Boot? && me.active != [] { assert Running(me, me.active) == ALARM_PRIORITY; }
  }

  lemma SecondaryNeverEnds(cfg: Config, g: Globals, me: Core, c: nat)
    requires SecondaryInv(cfg, g, me, c)
    ensures Ending(cfg, me).None?
  {
    if me.handler.Body? { BodyGroup(cfg.platform, me.handler.h, me.handler.i, me.handler.at); }
  }

  /** On the primary core every end names the interrupt acknowledged last and not ended yet; while
      interrupts are unmasked nothing but the alarm is active; and a pending console interrupt is
      then always signalled, even above an unfinished alarm.  No secondary core ever ends one. */
  lemma AckEndDiscipline(cfg: Config, s: State, es: seq<Event>)
    requires KernelInit(cfg, s) && After(cfg, s, es).Some?
    ensures var t := After(cfg, s, es).value;
            var me := t.cores[cfg.primary];
            && (Ending(cfg, me).Some? ==> me.active != [] && me.active[|me.active| - 1] == Ending(cfg, me).value)
            && (!me.masked ==> me.active == [] || me.active == [RtcIrq(cfg.platform)])
            && (!me.masked && t.g.console.pending ==> Deliverable(cfg, t.g, me, cfg.primary, ConsoleIrq(cfg.platform)))
            && (forall c :: 0 <= c < cfg.count && c != cfg.primary ==> Ending(cfg, t.cores[c]).None?)
  {
    KernelAlways(cfg, s, es);
    var t := After(cfg, s, es).value;
    var me := t.cores[cfg.primary];
    assert LockInv(t.g.tables.owner, me, cfg.primary);
    if Ending(cfg, me).Some? { EndsLatest(cfg, t.g, me); }
    if !me.masked { UnmaskedActive(cfg, t.g, me); }
    forall c | 0 <= c < cfg.count && c != cfg.primary ensures Ending(cfg, t.cores[c]).None? {
      SecondaryNeverEnds(cfg, t.g, t.cores[c], c);
    }
  }

  // ---------------------------------------------------------------- unexpected interrupts

  /** A panic, anywhere in a run, comes after `irq_remove`, or is that of a secondary core whose `wfi`
      returned before it had taken an SGI. */
  lemma PanicExplained(cfg: Config, s: State, es: seq<Event>)
    requires KernelInit(cfg, s) && After(cfg, s, es).Some? && After(cfg, s, es).value.g.panic.Some?
    ensures Explained(cfg, After(cfg, s, es).value)
  {
    KernelAlways(cfg, s, es);
  }

  lemma NotEarly(cfg: Config, g: Globals, me: Core, c: nat, why: Panic)
    requires SecondaryInv(cfg, g, me, c) && !cfg.earlyWfi
    ensures !Early(me, c, why)
  {
  }

  /** On the primary core no interrupt lacks a handler until `irq_remove` has removed the alarm's, and
      then only the alarm does; whatever `wfi` does on the other cores. */
  lemma PrimaryFindsHandler(cfg: Config, s: State, es: seq<Event>, i: IntId)
    requires KernelInit(cfg, s) && After(cfg, s, es).Some?
    requires After(cfg, s, es).value.g.panic == Some(UnexpectedIrq(cfg.primary, i))
    ensures Removed(After(cfg, s, es).value.cores[cfg.primary]) && i == RtcIrq(cfg.platform)
  {
    KernelAlways(cfg, s, es);
  }

  /** On a secondary core no interrupt ever lacks a handler if `wfi` does not return early; whatever the
      primary core has removed. */
  lemma SecondaryFindsHandler(cfg: Config, s: State, es: seq<Event>, c: nat, i: IntId)
    requires KernelInit(cfg, s) && After(cfg, s, es).Some? && !cfg.earlyWfi && c != cfg.primary
    ensures After(cfg, s, es).value.g.panic != Some(UnexpectedIrq(c, i))
  {
    KernelAlways(cfg, s, es);
    var t := After(cfg, s, es).value;
    if c < cfg.count {
      assert SecondaryInv(cfg, t.g, t.cores[c], c);
      NotEarly(cfg, t.g, t.cores[c], c, UnexpectedIrq(c, i));
    }
  }

  /** Together: if `wfi` does not return early then until `irq_remove` no core panics at all. No
      acknowledge comes back empty, no interrupt lacks a handler, no registration finds the other table
      occupied, and no core misses the page table or the GIC. */
  lemma NoUnexpectedIrq(cfg: Config, s: State, es: seq<Event>)
    requires KernelInit(cfg, s) && !cfg.earlyWfi && After(cfg, s, es).Some?
    ensures var t := After(cfg, s, es).value;
            t.g.panic.Some? ==> RemovedAlarm(cfg, t.cores[cfg.primary], t.g.panic.value)
  {
    KernelAlways(cfg, s, es);
    var t := After(cfg, s, es).value;
    if t.g.panic.Some? {
      var why := t.g.panic.value;
      if why.c != cfg.primary { SecondaryFindsHandler(cfg, s, es, why.c, why.i); }
    }
  }

  /** This kernel keeps SGIs private and SPIs shared, so no interrupt is ever in two tables. */
  lemma KernelNeverOverlaps(cfg: Config, s: State, es: seq<Event>, c: nat, i: IntId)
    requires KernelInit(cfg, s) && After(cfg, s, es).Some? && c < cfg.count
    ensures var t := After(cfg, s, es).value.g.tables;
            && (i in t.shared ==> i.Spi?) && (i in t.priv[c] ==> i.Sgi? && c != cfg.primary)
            && !(i in t.shared && i in t.priv[c])
  {
    KernelAlways(cfg, s, es);
    var t := After(cfg, s, es).value;
    if c != cfg.primary {
      assert SecondaryInv(cfg, t.g, t.cores[c], c);
    }
  }
}
