/** This kernel's own programs: what is registered, enabled, active and masked at every point of
    every run of the primary core and of any number of secondary cores. */
module Kernel {
  import opened Wrappers
  import opened Machine
  import opened Frames
  import opened Locks
  import opened Dispatch

  // ---------------------------------------------------------------- where the programs can be

  predicate PrimaryPlace(place: Place) { (place.Boot? && place.n <= 14) || place.Shell? || place.Halt? }

  predicate SecondaryPlace(place: Place) {
    || place.Halt?
    || (place.Secondary? &&
        match place.sec
        case Init(n) => n <= 6
        case Configure(n, enabled) => n <= SGI_COUNT && (n == SGI_COUNT ==> !enabled)
        case Register(n) => n <= SGI_COUNT
        case Await(n) => n <= 2
        case Unregister(n) => n <= SGI_COUNT)
  }

  /** The call that a thread on its way to `place` is in, if it is in one. */
  predicate CallTo(p: Platform, place: Place, kind: CallKind) {
    match place
    case Boot(n) =>
      if n == 6 then kind == SetShared(ConsoleIrq(p), ConsoleHandler)
      else if n == 11 then kind == SetShared(RtcIrq(p), AlarmHandler)
      else kind.Log?
    case Shell(at) =>
      if at.Exited? then kind == DropShared(RtcIrq(p))
      else if at.Reading? then kind == Read(at.n)
      else if at.Polled? then kind.Poll?
      else kind.Log?
    case Secondary(sec) =>
      if sec.Register? then sec.n >= 1 && kind == SetPrivate(Sgi(sec.n - 1), SecondaryHandler)
      else if sec.Unregister? && sec.n >= 1 then kind == DropPrivate(Sgi(sec.n - 1))
      else kind.Log?
    case _ => false
  }

  ghost predicate PlaceInv(cfg: Config, me: Core, c: nat) {
    && (if c == cfg.primary then PrimaryPlace(me.place) else SecondaryPlace(me.place))
    && (me.call.Busy? ==> CallTo(cfg.platform, me.place, me.call.kind))
  }

  /** A plan keeps to the places of its program, and starts the calls that belong there. */
  predicate Keeps(p: Platform, plan: Plan, primary: bool) {
    match plan
    case Do(x, next) => if primary then PrimaryPlace(next) else SecondaryPlace(next)
    case Begin(kind, next) => (if primary then PrimaryPlace(next) else SecondaryPlace(next)) && CallTo(p, next, kind)
    case Jump(next) => if primary then PrimaryPlace(next) else SecondaryPlace(next)
    case Wait => true
  }

  lemma BootStays(p: Platform, n: nat)
    requires n <= 14
    ensures Keeps(p, BootPlan(p, n), true)
  {
  }

  lemma ShellStays(cfg: Config, g: Globals, at: ShellAt, ch: Choice)
    ensures Keeps(cfg.platform, ShellPlan(cfg, g, at, ch), true)
  {
  }

  lemma SecondaryStays(p: Platform, place: Place)
    requires place.Secondary? && SecondaryPlace(place)
    ensures Keeps(p, SecondaryPlan(place.sec), false)
  {
  }

  lemma PlanStays(cfg: Config, g: Globals, me: Core, c: nat, ch: Choice)
    requires PlaceInv(cfg, me, c) && me.call.Idle?
    ensures Keeps(cfg.platform, PlanOf(cfg, g, me.place, ch), c == cfg.primary)
  {
    match me.place
    case Boot(n) => BootStays(cfg.platform, n);
    case Shell(at) => ShellStays(cfg, g, at, ch);
    case Secondary(_) => SecondaryStays(cfg.platform, me.place);
    case _ =>
  }

  lemma ThreadStays(cfg: Config, g: Globals, me: Core, c: nat, ch: Choice)
    requires c < |g.tables.priv| && g.panic.None? && PlaceInv(cfg, me, c) && me.handler.Quiet?
    ensures var r := ThreadStep(cfg, g, me, c, ch);
            r.Effect? ==> PlaceInv(cfg, r.me, c) && r.me.handler.Quiet?
  {
    if me.call.Busy? {
      InstrFrame(cfg, g, me, c, CallInstr(me.call.kind, me.call.at));
    } else {
      PlanStays(cfg, g, me, c, ch);
      var plan := PlanOf(cfg, g, me.place, ch);
      if plan.Do? { InstrFrame(cfg, g, me, c, plan.x); }
    }
  }

  // ---------------------------------------------------------------- the primary core

  /** The primary core has got to position `n` of its boot sequence. */
  predicate Past(place: Place, n: nat) { (place.Boot? && place.n >= n) || place.Shell? || place.Halt? }

  /** The call that ends at the current place has made its change already. */
  predicate Made(call: Call, at: nat) { call.Idle? || call.at >= at }

  predicate HasConsole(me: Core) { Past(me.place, 7) || (me.place == Boot(6) && Made(me.call, 4)) }

  predicate HasAlarm(me: Core) {
    || (me.place == Boot(11) && Made(me.call, 4)) || (me.place.Boot? && me.place.n >= 12)
    || (me.place.Shell? && (me.place.at.Exited? ==> !Made(me.call, 3)))
  }

  /** `irq_remove` has removed the alarm handler. */
  predicate Removed(me: Core) { me.place.Halt? || (me.place == Shell(Exited) && Made(me.call, 3)) }

  /** The one panic the primary core can meet: an alarm after `irq_remove`. */
  predicate RemovedAlarm(cfg: Config, me: Core, why: Panic) {
    Removed(me) && why == UnexpectedIrq(cfg.primary, RtcIrq(cfg.platform))
  }

  /** The shared table holds exactly what the primary core has registered and not removed. */
  ghost predicate PrimaryTables(cfg: Config, t: Tables, me: Core) {
    var console, rtc := ConsoleIrq(cfg.platform), RtcIrq(cfg.platform);
    && cfg.primary < |t.priv| && t.priv[cfg.primary] == map[]
    && (forall i :: i in t.shared <==> (i == console && HasConsole(me)) || (i == rtc && HasAlarm(me)))
    && (console in t.shared ==> t.shared[console] == ConsoleHandler)
    && (rtc in t.shared ==> t.shared[rtc] == AlarmHandler)
  }

  /** What the primary core has configured in the GIC, and that it boots with interrupts masked. */
  ghost predicate PrimaryGic(cfg: Config, me: Core) {
    var console, rtc := ConsoleIrq(cfg.platform), RtcIrq(cfg.platform);
    && (forall i :: i in me.enabled <==> (i == console && Past(me.place, 5)) || (i == rtc && Past(me.place, 13)))
    && (Past(me.place, 4) ==> Prio(me, console) == CONSOLE_PRIORITY)
    && (Past(me.place, 12) ==> Prio(me, rtc) == ALARM_PRIORITY)
    && (Past(me.place, 9) ==> me.pmr == 0xff)
    && (me.place.Boot? ==> me.masked && me.handler.Quiet? && forall j :: 0 <= j < |me.saved| ==> me.saved[j])
  }

  /** The alarm that has fired and has not been finished is active beneath everything else. */
  function Base(cfg: Config, a: Alarm, me: Core): seq<IntId> {
    if a.fired || (me.place.Shell? && (me.place.at.Clear? || me.place.at.Finish?)) then [RtcIrq(cfg.platform)] else []
  }

  /** The interrupt that the handler has acknowledged, until it is ended or left to the shell. */
  function Extra(h: Handling): seq<IntId> {
    match h
    case Acked(i) => [i]
    case SeekPrivate(i) => [i]
    case SeekTable(i) => [i]
    case SeekShared(i) => [i]
    case Body(i, h, _, at) => if h.ConsoleHandler? && at >= 4 then [] else [i]
    case _ => []
  }

  ghost predicate PrimaryActive(cfg: Config, a: Alarm, me: Core) {
    && me.active == Base(cfg, a, me) + Extra(me.handler)
    && (Base(cfg, a, me) != [] ==> Extra(me.handler) != Base(cfg, a, me))
    && (me.place.Shell? && (me.place.at.Clear? || me.place.at.Finish?) ==> !a.fired)
  }

  ghost predicate PrimaryHandler(cfg: Config, g: Globals, me: Core) {
    match me.handler
    case Entered => Signalled(cfg, g, me, cfg.primary)
    case Acked(i) => i in me.enabled
    case SeekPrivate(i) => i in me.enabled
    case SeekTable(i) => i in me.enabled
    case SeekShared(i) => i in me.enabled
    case Body(i, h, shared, _) =>
      shared && i in me.enabled && h == (if i == ConsoleIrq(cfg.platform) then ConsoleHandler else AlarmHandler)
    case _ => true
  }

  ghost predicate Booted(g: Globals, me: Core) {
    && (Past(me.place, 2) ==> g.cpus.active)
    && (Past(me.place, 3) ==> g.cpus.stored)
    && (Past(me.place, 7) ==> g.cpus.gicReady)
  }

  ghost predicate PrimaryInv(cfg: Config, g: Globals, me: Core) {
    && PlaceInv(cfg, me, cfg.primary) && PrimaryTables(cfg, g.tables, me) && PrimaryGic(cfg, me)
    && PrimaryActive(cfg, g.alarm, me) && PrimaryHandler(cfg, g, me) && Booted(g, me)
  }

  // Steps of its thread.

  /** Only the accesses of its calls change what the primary core has registered. */
  predicate SameHas(me: Core, to: Core) { HasConsole(to) == HasConsole(me) && HasAlarm(to) == HasAlarm(me) }

  lemma BootHas(p: Platform, me: Core)
    requires me.place.Boot? && me.place.n <= 14 && me.call.Idle?
    ensures match BootPlan(p, me.place.n)
            case Do(x, next) => SameHas(me, me.(place := next))
            case Begin(kind, next) => SameHas(me, me.(place := next, call := Busy(kind, 0)))
            case Jump(next) => SameHas(me, me.(place := next))
            case Wait => true
  {
  }

  lemma ShellHas(cfg: Config, g: Globals, me: Core, ch: Choice)
    requires me.place.Shell? && me.call.Idle?
    ensures match ShellPlan(cfg, g, me.place.at, ch)
            case Do(x, next) => SameHas(me, me.(place := next))
            case Begin(kind, next) => SameHas(me, me.(place := next, call := Busy(kind, 0)))
            case Jump(next) => SameHas(me, me.(place := next))
            case Wait => true
  {
  }

  lemma DoHas(cfg: Config, g: Globals, me: Core, x: Instr, next: Place)
    requires SameHas(me, me.(place := next)) && me.call.Idle? && cfg.primary < |g.tables.priv| && g.panic.None?
    ensures var r := Moved(ExecInstr(cfg, g, me, cfg.primary, x), next, Idle, me.handler);
            r.Effect? ==> SameHas(me, r.me)
  {
    InstrFrame(cfg, g, me, cfg.primary, x);
  }

  lemma PlanHas(cfg: Config, g: Globals, me: Core, ch: Choice)
    requires PrimaryPlace(me.place) && me.handler.Quiet? && me.call.Idle? && cfg.primary < |g.tables.priv|
             && g.panic.None?
    ensures var r := ThreadStep(cfg, g, me, cfg.primary, ch); r.Effect? ==> SameHas(me, r.me)
  {
    if me.place.Boot? { BootHas(cfg.platform, me); } else if me.place.Shell? { ShellHas(cfg, g, me, ch); }
    var plan := PlanOf(cfg, g, me.place, ch);
    if plan.Do? { DoHas(cfg, g, me, plan.x, plan.next); }
  }

  lemma CallHasSame(cfg: Config, g: Globals, me: Core, ch: Choice)
    requires PlaceInv(cfg, me, cfg.primary) && me.handler.Quiet? && me.call.Busy? && InRange(me)
    requires cfg.primary < |g.tables.priv| && g.panic.None? && NextAccess(me).None?
    ensures var r := ThreadStep(cfg, g, me, cfg.primary, ch); r.Effect? ==> SameHas(me, r.me)
  {
    InstrFrame(cfg, g, me, cfg.primary, CallInstr(me.call.kind, me.call.at));
  }

  lemma AccessTables(cfg: Config, g: Globals, me: Core, x: TableOp)
    requires PlaceInv(cfg, me, cfg.primary) && PrimaryTables(cfg, g.tables, me) && g.panic.None?
    requires me.handler.Quiet? && me.call.Busy? && InRange(me) && NextAccess(me) == Some(x)
    ensures var r := ExecTable(g, me, cfg.primary, x);
            r.g.panic.None? && PrimaryTables(cfg, r.g.tables, me.(call := Busy(me.call.kind, me.call.at + 1)))
  {
  }

  lemma PrimaryThreadTables(cfg: Config, g: Globals, me: Core, ch: Choice)
    requires PlaceInv(cfg, me, cfg.primary) && PrimaryTables(cfg, g.tables, me) && g.panic.None?
    requires me.handler.Quiet? && InRange(me)
    ensures var r := ThreadStep(cfg, g, me, cfg.primary, ch);
            r.Effect? ==> PrimaryTables(cfg, r.g.tables, r.me)
  {
    if NextAccess(me).Some? {
      AccessStep(cfg, g, me, cfg.primary, ch);
      AccessTables(cfg, g, me, NextAccess(me).value);
    } else {
      NoAccessStep(cfg, g, me, cfg.primary, ch);
      if me.call.Busy? { CallHasSame(cfg, g, me, ch); } else { PlanHas(cfg, g, me, ch); }
    }
  }

  /** Same GIC view, same place: nothing to show but the masking during boot. */
  lemma SameGic(cfg: Config, me: Core, to: Core)
    requires PrimaryGic(cfg, me) && to.enabled == me.enabled && to.prio == me.prio && to.pmr == me.pmr
    requires forall n :: n in {4, 5, 9, 12, 13} ==> Past(to.place, n) == Past(me.place, n)
    requires to.place.Boot? ==> to.masked && to.handler.Quiet? && forall j :: 0 <= j < |to.saved| ==> to.saved[j]
    ensures PrimaryGic(cfg, to)
  {
    assert forall i :: Prio(to, i) == Prio(me, i);
    assert Past(to.place, 4) == Past(me.place, 4) && Past(to.place, 5) == Past(me.place, 5)
        && Past(to.place, 9) == Past(me.place, 9) && Past(to.place, 12) == Past(me.place, 12)
        && Past(to.place, 13) == Past(me.place, 13);
  }

  /** A step of a call leaves the GIC alone, and during boot interrupts stay masked. */
  lemma CallInstrGic(cfg: Config, g: Globals, me: Core, call: Call)
    requires PrimaryGic(cfg, me) && me.handler.Quiet? && me.call.Busy? && cfg.primary < |g.tables.priv|
    ensures var r := ExecInstr(cfg, g, me, cfg.primary, CallInstr(me.call.kind, me.call.at));
            r.Effect? ==> PrimaryGic(cfg, r.me.(call := call))
  {
    var x := CallInstr(me.call.kind, me.call.at);
    var r := ExecInstr(cfg, g, me, cfg.primary, x);
    CallGroup(me.call.kind, me.call.at);
    InstrFrame(cfg, g, me, cfg.primary, x);
    if r.Effect? { SameGic(cfg, me, r.me.(call := call)); }
  }

  lemma CallGic(cfg: Config, g: Globals, me: Core, ch: Choice)
    requires PrimaryGic(cfg, me) && me.handler.Quiet? && me.call.Busy? && cfg.primary < |g.tables.priv| && g.panic.None?
    ensures var r := ThreadStep(cfg, g, me, cfg.primary, ch); r.Effect? ==> PrimaryGic(cfg, r.me)
  {
    var Busy(kind, at) := me.call;
    CallInstrGic(cfg, g, me, me.call);
    CallInstrGic(cfg, g, me, if at + 1 < Length(kind) then Busy(kind, at + 1) else Idle);
    InstrFrame(cfg, g, me, cfg.primary, CallInstr(kind, at));
  }

  lemma BootIrqGic(cfg: Config, g: Globals, me: Core, q: GicOp, next: Place)
    requires PrimaryGic(cfg, me) && me.place.Boot? && BootPlan(cfg.platform, me.place.n) == Do(Irq(q), next)
    ensures var r := ExecGic(cfg, g, me, cfg.primary, q); r.Effect? ==> PrimaryGic(cfg, r.me.(place := next))
  {
  }

  lemma BootDoGic(cfg: Config, g: Globals, me: Core, x: Instr, next: Place)
    requires PrimaryGic(cfg, me) && me.handler.Quiet? && cfg.primary < |g.tables.priv|
    requires me.place.Boot? && BootPlan(cfg.platform, me.place.n) == Do(x, next)
    ensures var r := ExecInstr(cfg, g, me, cfg.primary, x); r.Effect? ==> PrimaryGic(cfg, r.me.(place := next))
  {
    if x.Irq? {
      BootIrqGic(cfg, g, me, x.q, next);
    } else {
      var r := ExecInstr(cfg, g, me, cfg.primary, x);
      InstrFrame(cfg, g, me, cfg.primary, x);
      assert (next == Boot(me.place.n + 1) && me.place.n !in {3, 4, 8, 11, 12}) || next.Shell?;
      assert next.Boot? && x.Sync? ==> x.s.Acquire? || x.s.Release?;
      if r.Effect? { SameGic(cfg, me, r.me.(place := next)); }
    }
  }

  lemma ShellDoGic(cfg: Config, g: Globals, me: Core, ch: Choice, x: Instr, next: Place)
    requires PrimaryGic(cfg, me) && cfg.primary < |g.tables.priv|
    requires me.place.Shell? && ShellPlan(cfg, g, me.place.at, ch) == Do(x, next)
    ensures var r := ExecInstr(cfg, g, me, cfg.primary, x); r.Effect? ==> PrimaryGic(cfg, r.me.(place := next))
  {
    var r := ExecInstr(cfg, g, me, cfg.primary, x);
    assert (x.Irq? ==> x.q.End? || x.q.SendSgi?) && !next.Boot?;
    InstrFrame(cfg, g, me, cfg.primary, x);
    if x.Irq? { GicFrame(cfg, g, me, cfg.primary, x.q); }
    if r.Effect? { SameGic(cfg, me, r.me.(place := next)); }
  }

  /** So do the starts of calls and the jumps. */
  lemma MoveGic(cfg: Config, g: Globals, me: Core, ch: Choice, next: Place, call: Call)
    requires PrimaryGic(cfg, me) && PrimaryPlace(me.place)
    requires PlanOf(cfg, g, me.place, ch) == Jump(next)
             || (call.Busy? && PlanOf(cfg, g, me.place, ch) == Begin(call.kind, next))
    ensures PrimaryGic(cfg, me.(place := next, call := call))
  {
    assert me.place.Boot? ==> next == Boot(me.place.n + 1) && me.place.n !in {3, 4, 8, 11, 12};
    SameGic(cfg, me, me.(place := next, call := call));
  }

  // The active stack.

  /** The three steps of `irq_finish` that matter: the flag, the device, the GIC. */
  lemma FinishActive(cfg: Config, g: Globals, me: Core, x: Instr, next: Place)
    requires PrimaryActive(cfg, g.alarm, me) && me.handler.Quiet? && cfg.primary < |g.tables.priv|
    requires me.place.Shell? && (me.place.at.Swap? || me.place.at.Clear? || me.place.at.Finish?)
    requires ShellPlan(cfg, g, me.place.at, Go) == Do(x, next)
    ensures var r := ExecInstr(cfg, g, me, cfg.primary, x);
            r.Effect? ==> PrimaryActive(cfg, r.g.alarm, r.me.(place := next))
  {
  }

  lemma OtherActive(cfg: Config, g: Globals, me: Core, x: Instr, next: Place)
    requires PrimaryActive(cfg, g.alarm, me) && me.handler.Quiet? && cfg.primary < |g.tables.priv|
    requires (x.Irq? ==> x.q.SendSgi?) && (x.Rtc? ==> x.a.SetMatch? || x.a.EnableRtc?)
    requires me.place.Shell? && !me.place.at.Clear? && !me.place.at.Finish?
    requires next.Shell? ==> !next.at.Clear? && !next.at.Finish?
    ensures var r := ExecInstr(cfg, g, me, cfg.primary, x);
            r.Effect? ==> PrimaryActive(cfg, r.g.alarm, r.me.(place := next))
  {
    InstrFrame(cfg, g, me, cfg.primary, x);
  }

  lemma DoActive(cfg: Config, g: Globals, me: Core, ch: Choice, x: Instr, next: Place)
    requires PrimaryActive(cfg, g.alarm, me) && me.handler.Quiet? && cfg.primary < |g.tables.priv|
    requires me.place.Shell? && ShellPlan(cfg, g, me.place.at, ch) == Do(x, next)
    ensures var r := ExecInstr(cfg, g, me, cfg.primary, x);
            r.Effect? ==> PrimaryActive(cfg, r.g.alarm, r.me.(place := next))
  {
    if me.place.at.Swap? || me.place.at.Clear? || me.place.at.Finish? {
      FinishActive(cfg, g, me, x, next);
    } else {
      OtherActive(cfg, g, me, x, next);
    }
  }

  lemma BootDoActive(cfg: Config, g: Globals, me: Core, x: Instr, next: Place)
    requires PrimaryActive(cfg, g.alarm, me) && Booted(g, me) && me.handler.Quiet? && cfg.primary < |g.tables.priv|
    requires me.place.Boot? && BootPlan(cfg.platform, me.place.n) == Do(x, next)
    ensures var r := ExecInstr(cfg, g, me, cfg.primary, x);
            r.Effect? && r.g.panic.None? ==>
              PrimaryActive(cfg, r.g.alarm, r.me.(place := next)) && Booted(r.g, r.me.(place := next))
  {
    var r := ExecInstr(cfg, g, me, cfg.primary, x);
    InstrFrame(cfg, g, me, cfg.primary, x);
    if x.Irq? { assert !x.q.End?; }
  }

  // Putting the thread together.

  /** A thread step of the primary core cannot panic and keeps everything. */
  lemma PrimaryCall(cfg: Config, g: Globals, me: Core, ch: Choice)
    requires PrimaryInv(cfg, g, me) && g.panic.None? && InRange(me) && me.handler.Quiet? && me.call.Busy?
    ensures var r := ThreadStep(cfg, g, me, cfg.primary, ch);
            r.Effect? ==> r.g.panic.None? && PrimaryInv(cfg, r.g, r.me)
  {
    var r := ThreadStep(cfg, g, me, cfg.primary, ch);
    CallFrame(cfg, g, me, cfg.primary, ch);
    CallGic(cfg, g, me, ch);
    PrimaryThreadTables(cfg, g, me, ch);
    CallSafe(cfg, g, me, ch);
  }

  lemma CallSafe(cfg: Config, g: Globals, me: Core, ch: Choice)
    requires PlaceInv(cfg, me, cfg.primary) && PrimaryTables(cfg, g.tables, me) && g.panic.None?
    requires InRange(me) && me.handler.Quiet? && me.call.Busy?
    ensures var r := ThreadStep(cfg, g, me, cfg.primary, ch); r.Effect? ==> r.g.panic.None?
  {
    if NextAccess(me).Some? {
      AccessStep(cfg, g, me, cfg.primary, ch);
      AccessTables(cfg, g, me, NextAccess(me).value);
    } else {
      var x := CallInstr(me.call.kind, me.call.at);
      CallGroup(me.call.kind, me.call.at);
      if x.Sync? { SyncFrame(g, me, cfg.primary, x.s); } else { ConsoleFrame(g, me, x.u); }
    }
  }

  lemma ShellDoBooted(cfg: Config, g: Globals, me: Core, ch: Choice, x: Instr, next: Place)
    requires Booted(g, me) && g.panic.None? && cfg.primary < |g.tables.priv|
    requires me.place.Shell? && ShellPlan(cfg, g, me.place.at, ch) == Do(x, next)
    ensures var r := ExecInstr(cfg, g, me, cfg.primary, x);
            r.Effect? ==> r.g.panic.None? && Booted(r.g, r.me.(place := next))
  {
    InstrFrame(cfg, g, me, cfg.primary, x);
    assert x.Cpu? ==> !x.p.ActivateSecondary?;
    assert x.Sync? ==> x.s == Acquire(Stacks) || x.s == Release(Stacks);
  }

  lemma BootDoSafe(cfg: Config, g: Globals, me: Core, x: Instr, next: Place)
    requires Booted(g, me) && g.panic.None? && cfg.primary < |g.tables.priv|
    requires me.place.Boot? && BootPlan(cfg.platform, me.place.n) == Do(x, next)
    ensures var r := ExecInstr(cfg, g, me, cfg.primary, x); r.Effect? ==> r.g.panic.None?
  {
    if x.Sync? { SyncFrame(g, me, cfg.primary, x.s); }
    assert !x.Tab?;
  }

  lemma PrimaryDo(cfg: Config, g: Globals, me: Core, ch: Choice, x: Instr, next: Place)
    requires PrimaryInv(cfg, g, me) && g.panic.None? && InRange(me) && me.handler.Quiet? && me.call.Idle?
    requires PlanOf(cfg, g, me.place, ch) == Do(x, next)
    ensures var r := ThreadStep(cfg, g, me, cfg.primary, ch);
            r.Effect? ==> r.g.panic.None? && PrimaryInv(cfg, r.g, r.me)
  {
    ThreadStays(cfg, g, me, cfg.primary, ch);
    PrimaryThreadTables(cfg, g, me, ch);
    InstrFrame(cfg, g, me, cfg.primary, x);
    if me.place.Boot? {
      BootDoGic(cfg, g, me, x, next);
      BootDoSafe(cfg, g, me, x, next);
      BootDoActive(cfg, g, me, x, next);
    } else {
      ShellDoGic(cfg, g, me, ch, x, next);
      DoActive(cfg, g, me, ch, x, next);
      ShellDoBooted(cfg, g, me, ch, x, next);
    }
  }

  lemma MoveActive(cfg: Config, g: Globals, me: Core, ch: Choice, next: Place, call: Call)
    requires PrimaryActive(cfg, g.alarm, me) && Booted(g, me) && PrimaryPlace(me.place)
    requires PlanOf(cfg, g, me.place, ch) == Jump(next)
             || (call.Busy? && PlanOf(cfg, g, me.place, ch) == Begin(call.kind, next))
    ensures PrimaryActive(cfg, g.alarm, me.(place := next, call := call)) && Booted(g, me.(place := next, call := call))
  {
  }

  lemma PrimaryMove(cfg: Config, g: Globals, me: Core, ch: Choice)
    requires PrimaryInv(cfg, g, me) && g.panic.None? && InRange(me) && me.handler.Quiet? && me.call.Idle?
    requires !PlanOf(cfg, g, me.place, ch).Do?
    ensures var r := ThreadStep(cfg, g, me, cfg.primary, ch);
            r.Effect? ==> r.g.panic.None? && PrimaryInv(cfg, r.g, r.me)
  {
    ThreadStays(cfg, g, me, cfg.primary, ch);
    PrimaryThreadTables(cfg, g, me, ch);
    match PlanOf(cfg, g, me.place, ch)
    case Begin(kind, next) =>
      MoveGic(cfg, g, me, ch, next, Busy(kind, 0));
      MoveActive(cfg, g, me, ch, next, Busy(kind, 0));
    case Jump(next) =>
      MoveGic(cfg, g, me, ch, next, Idle);
      MoveActive(cfg, g, me, ch, next, Idle);
    case Wait =>
  }

  lemma PrimaryThread(cfg: Config, g: Globals, me: Core, ch: Choice)
    requires PrimaryInv(cfg, g, me) && g.panic.None? && InRange(me) && me.handler.Quiet?
    ensures var r := ThreadStep(cfg, g, me, cfg.primary, ch);
            r.Effect? ==> r.g.panic.None? && PrimaryInv(cfg, r.g, r.me)
  {
    if me.call.Busy? { PrimaryCall(cfg, g, me, ch); }
    else if PlanOf(cfg, g, me.place, ch).Do? {
      var Do(x, next) := PlanOf(cfg, g, me.place, ch);
      PrimaryDo(cfg, g, me, ch, x, next);
    } else {
      PrimaryMove(cfg, g, me, ch);
    }
  }

  // Steps of its handler.

  /** Nothing but the handler position and the active stack changes; what the alarm flag and the
      stack say together still fits. */
  lemma PrimaryFrame(cfg: Config, g: Globals, me: Core, g': Globals, to: Core)
    requires PrimaryInv(cfg, g, me) && !me.handler.Quiet?
    requires to.place == me.place && to.call == me.call && to.enabled == me.enabled && to.prio == me.prio
             && to.pmr == me.pmr
    requires g'.cpus == g.cpus && g'.tables == g.tables.(owner := g'.tables.owner)
    requires PrimaryActive(cfg, g'.alarm, to) && PrimaryHandler(cfg, g', to)
    ensures PrimaryInv(cfg, g', to)
  {
    SameGic(cfg, me, to);
  }

  lemma PrimaryAck(cfg: Config, g: Globals, me: Core, ch: Choice)
    requires PrimaryInv(cfg, g, me) && g.panic.None? && me.handler.Entered?
    ensures var r := HandlerStep(cfg, g, me, cfg.primary, ch);
            r.Effect? ==> r.g.panic.None? && PrimaryInv(cfg, r.g, r.me)
  {
    var r := HandlerStep(cfg, g, me, cfg.primary, ch);
    if r.Effect? {
      assert ch.Pick?;
      assert r.g.alarm.fired == g.alarm.fired;
      PrimaryFrame(cfg, g, me, r.g, r.me);
    }
  }

  /** Looking a handler up finds one, unless the alarm handler was removed by `irq_remove`. */
  lemma PrimarySeek(cfg: Config, g: Globals, me: Core, ch: Choice)
    requires PrimaryInv(cfg, g, me) && g.panic.None? && (me.handler.SeekPrivate? || me.handler.SeekShared?)
    ensures var r := HandlerStep(cfg, g, me, cfg.primary, ch);
            r.Effect? ==> PrimaryInv(cfg, r.g, r.me) && (r.g.panic.Some? ==> RemovedAlarm(cfg, me, r.g.panic.value))
  {
    var r := HandlerStep(cfg, g, me, cfg.primary, ch);
    PrimaryFrame(cfg, g, me, r.g, r.me);
  }

  /** Same alarm, same place, same stack, and the handler owes the same. */
  lemma SameActive(cfg: Config, a: Alarm, me: Core, to: Core)
    requires PrimaryActive(cfg, a, me) && to.active == me.active && to.place == me.place
    requires Extra(to.handler) == Extra(me.handler)
    ensures PrimaryActive(cfg, a, to)
  {
  }

  /** Taking and dropping the table lock and masking keep everything. */
  lemma SyncKeepsPrimary(cfg: Config, g: Globals, me: Core, x: SyncOp, handler: Handling)
    requires PrimaryInv(cfg, g, me) && g.panic.None? && !me.handler.Quiet? && x != Acquire(Gic)
    requires Extra(handler) == Extra(me.handler) && PrimaryHandler(cfg, g, me.(handler := handler)) && !handler.Entered?
    ensures var r := ExecSync(g, me, cfg.primary, x);
            r.Effect? ==> r.g.panic.None? && PrimaryInv(cfg, r.g, r.me.(handler := handler))
  {
    var r := ExecSync(g, me, cfg.primary, x);
    SyncFrame(g, me, cfg.primary, x);
    if r.Effect? {
      SameActive(cfg, g.alarm, me, r.me.(handler := handler));
      PrimaryFrame(cfg, g, me, r.g, r.me.(handler := handler));
    }
  }

  lemma PrimaryEnters(cfg: Config, g: Globals, me: Core, ch: Choice)
    requires PrimaryInv(cfg, g, me) && g.panic.None? && (me.handler.Acked? || me.handler.SeekTable?)
    ensures var r := HandlerStep(cfg, g, me, cfg.primary, ch);
            r.Effect? ==> r.g.panic.None? && PrimaryInv(cfg, r.g, r.me)
  {
    if me.handler.Acked? {
      SyncKeepsPrimary(cfg, g, me, Mask, SeekPrivate(me.handler.i));
    } else {
      SyncKeepsPrimary(cfg, g, me, Acquire(Table), SeekShared(me.handler.i));
    }
  }

  lemma PrimaryDrops(cfg: Config, g: Globals, me: Core, ch: Choice)
    requires PrimaryInv(cfg, g, me) && g.panic.None? && me.handler.DropTable?
    ensures var r := HandlerStep(cfg, g, me, cfg.primary, ch);
            r.Effect? ==> r.g.panic.None? && PrimaryInv(cfg, r.g, r.me)
  {
    SyncKeepsPrimary(cfg, g, me, Release(Table), Leaving);
  }

  lemma PrimaryLeaves(cfg: Config, g: Globals, me: Core, ch: Choice)
    requires PrimaryInv(cfg, g, me) && g.panic.None? && me.handler.Leaving?
    ensures var r := HandlerStep(cfg, g, me, cfg.primary, ch);
            r.Effect? ==> r.g.panic.None? && PrimaryInv(cfg, r.g, r.me)
  {
    SyncKeepsPrimary(cfg, g, me, Restore, Exiting);
  }

  lemma PrimaryExits(cfg: Config, g: Globals, me: Core)
    requires PrimaryInv(cfg, g, me) && me.handler.Exiting?
    ensures PrimaryInv(cfg, g, me.(handler := Quiet, masked := false))
  {
    var to := me.(handler := Quiet, masked := false);
    SameActive(cfg, g.alarm, me, to);
    PrimaryFrame(cfg, g, me, g, to);
  }

  /** Where `handle_irq` is after the current step of the handler it found. */
  function AfterBody(h: Handling): Handling
    requires h.Body?
  {
    if h.at + 1 < BodyLength(h.h) then h.(at := h.at + 1) else if h.shared then DropTable else Leaving
  }

  lemma ConsoleEnds(cfg: Config, g: Globals, me: Core, i: IntId, shared: bool)
    requires PrimaryActive(cfg, g.alarm, me) && me.handler == Body(i, ConsoleHandler, shared, 3)
    ensures PrimaryActive(cfg, g.alarm, ExecGic(cfg, g, me, cfg.primary, End(i)).me.(handler := AfterBody(me.handler)))
  {
    var base := Base(cfg, g.alarm, me);
    assert me.active == base + [i];
    assert (base + [i])[..|base|] == base;
  }

  lemma AlarmStored(cfg: Config, g: Globals, me: Core, shared: bool)
    requires PrimaryActive(cfg, g.alarm, me) && me.handler == Body(RtcIrq(cfg.platform), AlarmHandler, shared, 4)
    ensures PrimaryActive(cfg, ExecAlarm(g, me, StoreAlarm).g.alarm, me.(handler := AfterBody(me.handler)))
  {
    assert Base(cfg, g.alarm, me) == [];
  }

  lemma QuietActive(cfg: Config, g: Globals, me: Core, x: Instr, handler: Handling)
    requires PrimaryActive(cfg, g.alarm, me) && cfg.primary < |g.tables.priv| && !x.Irq? && !x.Rtc?
    requires Extra(handler) == Extra(me.handler)
    ensures var r := ExecInstr(cfg, g, me, cfg.primary, x);
            r.Effect? ==> PrimaryActive(cfg, r.g.alarm, r.me.(handler := handler))
  {
    var r := ExecInstr(cfg, g, me, cfg.primary, x);
    InstrFrame(cfg, g, me, cfg.primary, x);
    if r.Effect? { SameActive(cfg, g.alarm, me, r.me.(handler := handler)); }
  }

  /** All steps of the two handlers but the one that ends the interrupt or sets the flag. */
  lemma QuietBody(p: Platform, h: Handling)
    requires h.Body? && h.at < BodyLength(h.h)
             && ((h.h == ConsoleHandler && h.at != 3) || (h.h == AlarmHandler && h.at != 4))
    ensures var x := BodyInstr(p, h.h, h.i, h.at); !x.Irq? && !x.Rtc? && Extra(AfterBody(h)) == Extra(h)
  {
    CallGroup(Log, h.at);
  }

  lemma BodyActive(cfg: Config, g: Globals, me: Core)
    requires PrimaryActive(cfg, g.alarm, me) && me.handler.Body? && me.handler.at < BodyLength(me.handler.h)
    requires cfg.primary < |g.tables.priv|
    requires me.handler.h == ConsoleHandler || (me.handler.h == AlarmHandler && me.handler.i == RtcIrq(cfg.platform))
    ensures var r := ExecInstr(cfg, g, me, cfg.primary,
                               BodyInstr(cfg.platform, me.handler.h, me.handler.i, me.handler.at));
            r.Effect? ==> PrimaryActive(cfg, r.g.alarm, r.me.(handler := AfterBody(me.handler)))
  {
    var Body(i, h, shared, at) := me.handler;
    var x := BodyInstr(cfg.platform, h, i, at);
    var to := AfterBody(me.handler);
    if h == ConsoleHandler && at == 3 {
      assert x == Irq(End(i));
      ConsoleEnds(cfg, g, me, i, shared);
    } else if h == AlarmHandler && at == 4 {
      assert x == Rtc(StoreAlarm);
      AlarmStored(cfg, g, me, shared);
    } else {
      QuietBody(cfg.platform, me.handler);
      QuietActive(cfg, g, me, x, to);
    }
  }

  lemma BodySafe(cfg: Config, g: Globals, me: Core)
    requires g.panic.None? && me.handler.Body? && cfg.primary < |g.tables.priv|
    ensures var r := ExecInstr(cfg, g, me, cfg.primary,
                               BodyInstr(cfg.platform, me.handler.h, me.handler.i, me.handler.at));
            r.Effect? ==> r.g.panic.None?
  {
    var x := BodyInstr(cfg.platform, me.handler.h, me.handler.i, me.handler.at);
    BodyGroup(cfg.platform, me.handler.h, me.handler.i, me.handler.at);
    if x.Sync? { SyncFrame(g, me, cfg.primary, x.s); }
  }

  lemma BodyKeepsPrimary(cfg: Config, g: Globals, me: Core)
    requires PrimaryInv(cfg, g, me) && g.panic.None? && me.handler.Body? && InRange(me)
    ensures var r := ExecInstr(cfg, g, me, cfg.primary,
                               BodyInstr(cfg.platform, me.handler.h, me.handler.i, me.handler.at));
            r.Effect? ==> r.g.panic.None? && PrimaryInv(cfg, r.g, r.me.(handler := AfterBody(me.handler)))
  {
    var x := BodyInstr(cfg.platform, me.handler.h, me.handler.i, me.handler.at);
    var r := ExecInstr(cfg, g, me, cfg.primary, x);
    BodyGroup(cfg.platform, me.handler.h, me.handler.i, me.handler.at);
    InstrFrame(cfg, g, me, cfg.primary, x);
    if x.Irq? { GicFrame(cfg, g, me, cfg.primary, x.q); }
    BodySafe(cfg, g, me);
    BodyActive(cfg, g, me);
    if r.Effect? { PrimaryFrame(cfg, g, me, r.g, r.me.(handler := AfterBody(me.handler))); }
  }

  lemma BodyMoves(cfg: Config, g: Globals, me: Core, ch: Choice, e: Effect)
    requires me.handler.Body? && cfg.primary < |g.tables.priv|
    requires e == ExecInstr(cfg, g, me, cfg.primary, BodyInstr(cfg.platform, me.handler.h, me.handler.i, me.handler.at))
    ensures HandlerStep(cfg, g, me, cfg.primary, ch) == Moved(e, me.place, me.call, AfterBody(me.handler))
    ensures e.Effect? ==> e.me.place == me.place && e.me.call == me.call
  {
    InstrFrame(cfg, g, me, cfg.primary, BodyInstr(cfg.platform, me.handler.h, me.handler.i, me.handler.at));
  }

  lemma MovedOn(e: Effect, me: Core, handler: Handling)
    requires e.Effect? && e.g.panic.None? && e.me.place == me.place && e.me.call == me.call
    ensures Moved(e, me.place, me.call, handler) == Effect(e.g, e.me.(handler := handler))
  {
  }

  lemma PrimaryBody(cfg: Config, g: Globals, me: Core, ch: Choice)
    requires PrimaryInv(cfg, g, me) && g.panic.None? && me.handler.Body? && InRange(me)
    ensures var r := HandlerStep(cfg, g, me, cfg.primary, ch);
            r.Effect? ==> r.g.panic.None? && PrimaryInv(cfg, r.g, r.me)
  {
    var e := ExecInstr(cfg, g, me, cfg.primary, BodyInstr(cfg.platform, me.handler.h, me.handler.i, me.handler.at));
    BodyKeepsPrimary(cfg, g, me);
    BodyMoves(cfg, g, me, ch, e);
    if e.Effect? { MovedOn(e, me, AfterBody(me.handler)); }
  }

  lemma PrimaryHandles(cfg: Config, g: Globals, me: Core, ch: Choice)
    requires PrimaryInv(cfg, g, me) && g.panic.None? && !me.handler.Quiet? && InRange(me)
    ensures var r := HandlerStep(cfg, g, me, cfg.primary, ch);
            r.Effect? ==> PrimaryInv(cfg, r.g, r.me) && (r.g.panic.Some? ==> RemovedAlarm(cfg, me, r.g.panic.value))
  {
    if me.handler.Entered? { PrimaryAck(cfg, g, me, ch); }
    else if me.handler.Body? { PrimaryBody(cfg, g, me, ch); }
    else if me.handler.SeekPrivate? || me.handler.SeekShared? { PrimarySeek(cfg, g, me, ch); }
    else if me.handler.Acked? || me.handler.SeekTable? { PrimaryEnters(cfg, g, me, ch); }
    else if me.handler.Exiting? { PrimaryExits(cfg, g, me); }
    else if me.handler.DropTable? { PrimaryDrops(cfg, g, me, ch); }
    else { PrimaryLeaves(cfg, g, me, ch); }
  }
}
