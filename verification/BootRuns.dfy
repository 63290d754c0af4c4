/** Runs of this kernel from its first instruction to the states in which it fails: an alarm after
    `irq_remove`, an SGI after an early `wfi`, a second match that is lost. */
module BootRuns {
  import opened Wrappers
  import opened Machine
  import opened Kernel
  import opened Secondaries
  import opened Runs
  import opened Devices
  import opened Paths
  import opened Interrupts
  import opened Witnesses

  lemma LeadsInv(cfg: Config, s: State, t: State)
    requires KernelInit(cfg, s) && Leads(cfg, s, t)
    ensures KernelInv(cfg, t) && DeviceInv(cfg, t.g, t.cores[cfg.primary])
  {
    var es :| After(cfg, s, es) == Some(t);
    KernelAlways(cfg, s, es);
    DevicesAlways(cfg, s, es);
  }

  // ---------------------------------------------------------------- boot

  /** The primary core between calls, with no lock taken and nothing changed since `g0` but the shared
      table and what boot has got done. */
  ghost predicate Calm(cfg: Config, g0: Globals, g: Globals, me: Core, place: Place) {
    && Idling(g, me, cfg.primary) && me.place == place && me.active == [] && g.tables.owner == map[]
    && g.tables.priv == g0.tables.priv && g == g0.(tables := g.tables, cpus := g.cpus)
    && g.cpus == g0.cpus.(active := g.cpus.active, stored := g.cpus.stored, gicReady := g.cpus.gicReady)
  }

  lemma BootToGic(cfg: Config, s: State) returns (g: Globals, me: Core)
    requires KernelInit(cfg, s)
    ensures Gets(cfg, cfg.primary, Effect(s.g, s.cores[cfg.primary]), Effect(g, me))
    ensures Calm(cfg, s.g, g, me, Boot(5)) && g.cpus.active && g.cpus.stored && me.masked
  {
    var p, m := cfg.primary, s.cores[cfg.primary];
    var a, con := Effect(s.g, m), ConsoleIrq(cfg.platform);
    BeginLogGets(cfg, s.g, m, p, Go, Boot(1));
    var g1 := s.g.(cpus := s.g.cpus.(active := true));
    DoGets(cfg, s.g, m.(place := Boot(1)), p, Go, Cpu(ActivatePt), Boot(2), g1, m.(place := Boot(1)));
    GetsThen(cfg, p, a, Effect(s.g, m.(place := Boot(1))), Effect(g1, m.(place := Boot(2))));
    g := g1.(cpus := g1.cpus.(stored := true));
    DoGets(cfg, g1, m.(place := Boot(2)), p, Go, Cpu(StorePt), Boot(3), g, m.(place := Boot(2)));
    GetsThen(cfg, p, a, Effect(g1, m.(place := Boot(2))), Effect(g, m.(place := Boot(3))));
    var m4 := m.(place := Boot(4), prio := m.prio[con := CONSOLE_PRIORITY]);
    DoGets(cfg, g, m.(place := Boot(3)), p, Go, Irq(SetPriority(con, CONSOLE_PRIORITY)), Boot(4), g,
           m4.(place := Boot(3)));
    GetsThen(cfg, p, a, Effect(g, m.(place := Boot(3))), Effect(g, m4));
    me := m4.(place := Boot(5), enabled := m.enabled + {con});
    DoGets(cfg, g, m4, p, Go, Irq(Enable(con)), Boot(5), g, me.(place := Boot(4)));
    GetsThen(cfg, p, a, Effect(g, m4), Effect(g, me));
  }

  /** A registration during boot. */
  lemma BootRegisters(cfg: Config, g: Globals, me: Core, n: nat, i: IntId, h: Handler)
    requires Idling(g, me, cfg.primary) && me.place == Boot(n)
             && BootPlan(cfg.platform, n) == Begin(SetShared(i, h), Boot(n + 1))
    requires Table !in g.tables.owner && i !in g.tables.priv[cfg.primary]
    ensures Gets(cfg, cfg.primary, Effect(g, me),
                 Effect(g.(tables := Applied(g.tables, cfg.primary, SetShared(i, h)).value), me.(place := Boot(n + 1))))
  {
    var p, m := cfg.primary, me.(place := Boot(n + 1), call := Busy(SetShared(i, h), 0));
    BeginGets(cfg, g, me, p, Go, SetShared(i, h), Boot(n + 1));
    SetSharedAlone(cfg, g, m, p, i, h);
    assert m.(call := Idle) == me.(place := Boot(n + 1));
    GetsThen(cfg, p, Effect(g, me), Effect(g, m),
             Effect(g.(tables := Applied(g.tables, p, SetShared(i, h)).value), me.(place := Boot(n + 1))));
  }

  /** `init_gic`. */
  lemma BootGic(cfg: Config, g: Globals, me: Core)
    requires Idling(g, me, cfg.primary) && me.place == Boot(5) && g.tables.owner == map[]
             && g.tables.priv[cfg.primary] == map[]
    ensures var t := Applied(g.tables, cfg.primary, SetShared(ConsoleIrq(cfg.platform), ConsoleHandler)).value;
            Gets(cfg, cfg.primary, Effect(g, me),
                 Effect(g.(tables := t, cpus := g.cpus.(gicReady := true)), me.(place := Boot(7))))
  {
    var p, k := cfg.primary, SetShared(ConsoleIrq(cfg.platform), ConsoleHandler);
    var g6 := g.(tables := Applied(g.tables, p, k).value);
    var g7 := g6.(cpus := g6.cpus.(gicReady := true));
    BootRegisters(cfg, g, me, 5, ConsoleIrq(cfg.platform), ConsoleHandler);
    DoGets(cfg, g6, me.(place := Boot(6)), p, Go, Cpu(InitGic), Boot(7), g7, me.(place := Boot(6)));
    GetsThen(cfg, p, Effect(g, me), Effect(g6, me.(place := Boot(6))), Effect(g7, me.(place := Boot(7))));
  }

  lemma BootToShell(cfg: Config, g0: Globals, g: Globals, me: Core) returns (g': Globals, me': Core)
    requires Calm(cfg, g0, g, me, Boot(5)) && g.cpus.active && g.cpus.stored && g0.tables.priv[cfg.primary] == map[]
    ensures Gets(cfg, cfg.primary, Effect(g, me), Effect(g', me'))
    ensures Calm(cfg, g0, g', me', Boot(9)) && g'.cpus.active && g'.cpus.stored && g'.cpus.gicReady
            && me'.masked == me.masked
  {
    var p, a := cfg.primary, Effect(g, me);
    var t := Applied(g.tables, p, SetShared(ConsoleIrq(cfg.platform), ConsoleHandler)).value;
    BootGic(cfg, g, me);
    g' := g.(tables := t, cpus := g.cpus.(gicReady := true));
    BeginLogGets(cfg, g', me.(place := Boot(7)), p, Go, Boot(8));
    GetsThen(cfg, p, a, Effect(g', me.(place := Boot(7))), Effect(g', me.(place := Boot(8))));
    me' := me.(place := Boot(9), pmr := 0xff);
    DoGets(cfg, g', me.(place := Boot(8)), p, Go, Irq(SetPmr), Boot(9), g', me.(place := Boot(8), pmr := 0xff));
    GetsThen(cfg, p, a, Effect(g', me.(place := Boot(8))), Effect(g', me'));
  }

  lemma AlarmRegisters(cfg: Config, g: Globals, me: Core)
    requires Idling(g, me, cfg.primary) && me.place == Boot(9) && g.tables.owner == map[] && g.cpus.gicReady
    requires g.tables.priv[cfg.primary] == map[]
    ensures var g' := g.(tables := Applied(g.tables, cfg.primary, SetShared(RtcIrq(cfg.platform), AlarmHandler)).value);
            Gets(cfg, cfg.primary, Effect(g, me), Effect(Locked(g', cfg.primary, Gic), me.(place := Boot(11))))
  {
    var p, rtc := cfg.primary, RtcIrq(cfg.platform);
    var l, k := Locked(g, p, Gic), SetShared(rtc, AlarmHandler);
    var g' := g.(tables := Applied(g.tables, p, k).value);
    DoGets(cfg, g, me, p, Go, Sync(Acquire(Gic)), Boot(10), l, me);
    BootRegisters(cfg, l, me.(place := Boot(10)), 10, rtc, AlarmHandler);
    assert l.(tables := Applied(l.tables, p, k).value) == Locked(g', p, Gic);
    GetsThen(cfg, p, Effect(g, me), Effect(l, me.(place := Boot(10))),
             Effect(Locked(g', p, Gic), me.(place := Boot(11))));
  }

  lemma AlarmConfigures(cfg: Config, g: Globals, me: Core) returns (me': Core)
    requires Idling(g, me, cfg.primary) && me.place == Boot(11)
    ensures Gets(cfg, cfg.primary, Effect(g, me), Effect(g, me'))
    ensures me' == me.(place := Boot(13), prio := me'.prio, enabled := me'.enabled)
  {
    var p, rtc := cfg.primary, RtcIrq(cfg.platform);
    var m12 := me.(place := Boot(12), prio := me.prio[rtc := ALARM_PRIORITY]);
    DoGets(cfg, g, me, p, Go, Irq(SetPriority(rtc, ALARM_PRIORITY)), Boot(12), g, m12.(place := Boot(11)));
    me' := m12.(place := Boot(13), enabled := me.enabled + {rtc});
    DoGets(cfg, g, m12, p, Go, Irq(Enable(rtc)), Boot(13), g, me'.(place := Boot(12)));
    GetsThen(cfg, p, Effect(g, me), Effect(g, m12), Effect(g, me'));
  }

  /** `irq_setup` and `irq_enable`. */
  lemma ShellStarts(cfg: Config, g0: Globals, g: Globals, me: Core) returns (g': Globals, me': Core)
    requires Calm(cfg, g0, g, me, Boot(9)) && g.cpus.gicReady && g0.tables.priv[cfg.primary] == map[]
    ensures Gets(cfg, cfg.primary, Effect(g, me), Effect(g', me'))
    ensures Calm(cfg, g0, g', me', Shell(Top)) && g'.cpus == g.cpus && !me'.masked
  {
    var p, a := cfg.primary, Effect(g, me);
    g' := g.(tables := Applied(g.tables, p, SetShared(RtcIrq(cfg.platform), AlarmHandler)).value);
    var l := Locked(g', p, Gic);
    AlarmRegisters(cfg, g, me);
    var m := AlarmConfigures(cfg, l, me.(place := Boot(11)));
    GetsThen(cfg, p, a, Effect(l, me.(place := Boot(11))), Effect(l, m));
    me' := ShellUnmasks(cfg, g', m);
    GetsThen(cfg, p, a, Effect(l, m), Effect(g', me'));
  }

  lemma ShellUnmasks(cfg: Config, g: Globals, me: Core) returns (me': Core)
    requires Idling(g, me, cfg.primary) && me.place == Boot(13) && Gic !in g.tables.owner
    ensures Gets(cfg, cfg.primary, Effect(Locked(g, cfg.primary, Gic), me), Effect(g, me'))
    ensures me' == me.(place := Shell(Top), masked := false)
  {
    var p := cfg.primary;
    me' := me.(place := Shell(Top), masked := false);
    Unlocked(g, p, Gic);
    DoGets(cfg, Locked(g, p, Gic), me, p, Go, Sync(Release(Gic)), Boot(14), g, me);
    DoGets(cfg, g, me.(place := Boot(14)), p, Go, Sync(Unmask), Shell(Top), g, me.(place := Boot(14), masked := false));
    GetsThen(cfg, p, Effect(Locked(g, p, Gic), me), Effect(g, me.(place := Boot(14))), Effect(g, me'));
  }

  /** The kernel comes up: the shell waits for a command, interrupts are unmasked, no core has been
      started and nothing has happened to the devices. */
  lemma Boots(cfg: Config, s: State) returns (g: Globals, me: Core)
    requires KernelInit(cfg, s)
    ensures Gets(cfg, cfg.primary, Effect(s.g, s.cores[cfg.primary]), Effect(g, me))
    ensures Calm(cfg, s.g, g, me, Shell(Top)) && g.cpus.active && g.cpus.stored && g.cpus.gicReady && !me.masked
  {
    var p, a := cfg.primary, Effect(s.g, s.cores[cfg.primary]);
    var g1, m1 := BootToGic(cfg, s);
    var g2, m2 := BootToShell(cfg, s.g, g1, m1);
    GetsThen(cfg, p, a, Effect(g1, m1), Effect(g2, m2));
    g, me := ShellStarts(cfg, s.g, g2, m2);
    GetsThen(cfg, p, a, Effect(g2, m2), Effect(g, me));
  }

  // ---------------------------------------------------------------- commands

  /** The shell waits for a command. */
  predicate Prompt(cfg: Config, g: Globals, me: Core) {
    Idling(g, me, cfg.primary) && me.place == Shell(Top) && g.tables.owner == map[]
  }

  /** `alarm` with nothing to finish, up to the point where it arms the RTC. */
  lemma AlarmToArm(cfg: Config, g: Globals, me: Core)
    requires Prompt(cfg, g, me) && !g.alarm.fired
    ensures Gets(cfg, cfg.primary, Effect(g, me), Effect(g, me.(place := Shell(Arm(true)))))
  {
    var p := cfg.primary;
    JumpGets(cfg, g, me, p, Type(SetAlarm(true)), Shell(Swap(true)));
    JumpGets(cfg, g, me.(place := Shell(Swap(true))), p, Go, Shell(Arm(true)));
    GetsThen(cfg, p, Effect(g, me), Effect(g, me.(place := Shell(Swap(true)))),
             Effect(g, me.(place := Shell(Arm(true)))));
  }

  lemma ArmGets(cfg: Config, g: Globals, me: Core)
    requires Prompt(cfg, g, me)
    ensures Gets(cfg, cfg.primary, Effect(g, me.(place := Shell(Arm(true)))),
                 Effect(g.(alarm := g.alarm.(armed := true, enabled := true)), me.(place := Shell(Report))))
  {
    var p, m := cfg.primary, me.(place := Shell(Arm(true)));
    var g1, g2 := g.(alarm := g.alarm.(armed := true)), g.(alarm := g.alarm.(armed := true, enabled := true));
    DoGets(cfg, g, m, p, Go, Rtc(SetMatch), Shell(Armed), g1, m);
    DoGets(cfg, g1, me.(place := Shell(Armed)), p, Go, Rtc(EnableRtc), Shell(Report), g2, me.(place := Shell(Armed)));
    GetsThen(cfg, p, Effect(g, m), Effect(g1, me.(place := Shell(Armed))), Effect(g2, me.(place := Shell(Report))));
  }

  lemma AlarmGets(cfg: Config, g: Globals, me: Core)
    requires Prompt(cfg, g, me) && !g.alarm.fired
    ensures Gets(cfg, cfg.primary, Effect(g, me), Effect(g.(alarm := g.alarm.(armed := true, enabled := true)), me))
  {
    var p, a := cfg.primary, Effect(g, me);
    var g' := g.(alarm := g.alarm.(armed := true, enabled := true));
    AlarmToArm(cfg, g, me);
    ArmGets(cfg, g, me);
    GetsThen(cfg, p, a, Effect(g, me.(place := Shell(Arm(true)))), Effect(g', me.(place := Shell(Report))));
    BeginLogGets(cfg, g', me.(place := Shell(Report)), p, Go, Shell(Top));
    GetsThen(cfg, p, a, Effect(g', me.(place := Shell(Report))), Effect(g', me));
  }

  lemma ExitGets(cfg: Config, g: Globals, me: Core)
    requires Prompt(cfg, g, me)
    ensures Gets(cfg, cfg.primary, Effect(g, me),
                 Effect(g.(tables := Applied(g.tables, cfg.primary, DropShared(RtcIrq(cfg.platform))).value),
                        me.(place := Shell(Exited))))
  {
    var p, k := cfg.primary, DropShared(RtcIrq(cfg.platform));
    var m := me.(place := Shell(Exited), call := Busy(k, 0));
    BeginGets(cfg, g, me, p, Type(Exit), k, Shell(Exited));
    DropSharedAlone(cfg, g, m, p, RtcIrq(cfg.platform));
    assert m.(call := Idle) == me.(place := Shell(Exited));
    GetsThen(cfg, p, Effect(g, me), Effect(g, m),
             Effect(g.(tables := Applied(g.tables, p, k).value), me.(place := Shell(Exited))));
  }

  lemma SgiGets(cfg: Config, g: Globals, me: Core, n: nat)
    requires Prompt(cfg, g, me) && n < SGI_COUNT
    ensures Gets(cfg, cfg.primary, Effect(g, me), Effect(Raised(g, cfg.primary, n), me))
  {
    var p := cfg.primary;
    BeginLogGets(cfg, g, me, p, Type(Broadcast(n)), Shell(Sending(n)));
    DoGets(cfg, g, me.(place := Shell(Sending(n))), p, Go, Irq(SendSgi(n)), Shell(Top), Raised(g, p, n),
           me.(place := Shell(Sending(n))));
    GetsThen(cfg, p, Effect(g, me), Effect(g, me.(place := Shell(Sending(n)))), Effect(Raised(g, p, n), me));
  }

  // ---------------------------------------------------------------- an alarm after irq_remove

  /** The state to be in: the alarm handler is gone and the RTC raises its line. */
  lemma RemovedAlarmPanics(cfg: Config, s: State) returns (t: State)
    requires KernelInv(cfg, s) && Live(s.g, cfg.primary)
    requires var me := s.cores[cfg.primary];
             me.place == Shell(Exited) && me.call.Idle? && me.handler.Quiet? && !me.masked && me.active == []
    requires s.g.alarm.raw && s.g.alarm.enabled && Table !in s.g.tables.owner
    ensures Leads(cfg, s, t) && t.g.panic == Some(UnexpectedIrq(cfg.primary, RtcIrq(cfg.platform)))
  {
    var me, rtc := s.cores[cfg.primary], RtcIrq(cfg.platform);
    assert Running(me, []) == IDLE_PRIORITY;
    assert Deliverable(cfg, s.g, me, cfg.primary, rtc);
    t := UnhandledPanics(cfg, s, cfg.primary, rtc);
  }

  /** Every system can get there from boot: set an alarm, leave the shell, let the alarm fire. */
  lemma RemovedAlarmRun(cfg: Config, s: State) returns (t: State)
    requires KernelInit(cfg, s)
    ensures Leads(cfg, s, t) && t.g.panic == Some(UnexpectedIrq(cfg.primary, RtcIrq(cfg.platform)))
  {
    var u := ExitedRun(cfg, s);
    LeadsStep(cfg, s, u, Match);
    var v := Step(cfg, u, Match).value;
    LeadsInv(cfg, s, v);
    t := RemovedAlarmPanics(cfg, v);
    LeadsThen(cfg, s, v, t);
  }

  lemma ExitedRun(cfg: Config, s: State) returns (t: State)
    requires KernelInit(cfg, s)
    ensures Shaped(cfg, t) && Leads(cfg, s, t) && Live(t.g, cfg.primary)
    ensures var me := t.cores[cfg.primary];
            me.place == Shell(Exited) && me.call.Idle? && me.handler.Quiet? && !me.masked && me.active == []
    ensures t.g.alarm.armed && t.g.alarm.enabled && !t.g.alarm.raw && t.g.tables.owner == map[]
  {
    var p, a := cfg.primary, Effect(s.g, s.cores[cfg.primary]);
    var g, me := Boots(cfg, s);
    var g1 := g.(alarm := g.alarm.(armed := true, enabled := true));
    AlarmGets(cfg, g, me);
    GetsThen(cfg, p, a, Effect(g, me), Effect(g1, me));
    ExitGets(cfg, g1, me);
    var e := Effect(g1.(tables := Applied(g1.tables, p, DropShared(RtcIrq(cfg.platform))).value),
                    me.(place := Shell(Exited)));
    GetsThen(cfg, p, a, Effect(g1, me), e);
    LeadsSelf(cfg, s);
    GetsLeads(cfg, s, s, p, e);
    t := With(s, p, e);
  }

  // ---------------------------------------------------------------- a lost alarm

  /** Position `at` of the alarm handler on core `me`, which was stopped by the RTC interrupt. */
  function AlarmBody(cfg: Config, me: Core, at: nat): Core {
    Handles(Interrupted(me), RtcIrq(cfg.platform), Body(RtcIrq(cfg.platform), AlarmHandler, true, at))
  }

  /** Its message. */
  lemma AlarmLogs(cfg: Config, g: Globals, me: Core, c: nat)
    requires Live(g, c) && Uart !in g.tables.owner
    ensures Gets(cfg, c, Effect(g, AlarmBody(cfg, me, 0)), Effect(g, AlarmBody(cfg, me, 4)))
  {
    var a, l := Effect(g, AlarmBody(cfg, me, 0)), Locked(g, c, Uart);
    var b, d := Nested(AlarmBody(cfg, me, 1)), Nested(AlarmBody(cfg, me, 2));
    GetsStep(cfg, c, a, Go, Effect(g, b));
    GetsStep(cfg, c, Effect(g, b), Go, Effect(l, d));
    GetsThen(cfg, c, a, Effect(g, b), Effect(l, d));
    AlarmLogged(cfg, g, me, c);
    GetsThen(cfg, c, a, Effect(l, d), Effect(g, AlarmBody(cfg, me, 4)));
  }

  lemma AlarmLogged(cfg: Config, g: Globals, me: Core, c: nat)
    requires Live(g, c) && Uart !in g.tables.owner
    ensures Gets(cfg, c, Effect(Locked(g, c, Uart), Nested(AlarmBody(cfg, me, 2))), Effect(g, AlarmBody(cfg, me, 4)))
  {
    var a, m := Effect(Locked(g, c, Uart), Nested(AlarmBody(cfg, me, 2))), Nested(AlarmBody(cfg, me, 3));
    Unlocked(g, c, Uart);
    GetsStep(cfg, c, a, Go, Effect(g, m));
    assert m.saved[..|m.saved| - 1] == AlarmBody(cfg, me, 3).saved;
    GetsStep(cfg, c, Effect(g, m), Go, Effect(g, AlarmBody(cfg, me, 4)));
    GetsThen(cfg, c, a, Effect(g, m), Effect(g, AlarmBody(cfg, me, 4)));
  }

  /** Inside one more `exception_free`. */
  function Nested(me: Core): Core { me.(saved := me.saved + [true]) }

  function Fired(g: Globals): Globals { g.(alarm := g.alarm.(fired := true, stores := g.alarm.stores + 1)) }

  /** The flag and the table lock. */
  lemma AlarmStores(cfg: Config, g: Globals, me: Core, c: nat)
    requires Live(g, c) && Table !in g.tables.owner
    ensures Gets(cfg, c, Effect(Locked(g, c, Table), AlarmBody(cfg, me, 4)),
                 Effect(Fired(g), AlarmBody(cfg, me, 4).(handler := Leaving)))
  {
    var a, f, m := Effect(Locked(g, c, Table), AlarmBody(cfg, me, 4)), Fired(g), AlarmBody(cfg, me, 4);
    GetsStep(cfg, c, a, Go, Effect(Locked(f, c, Table), m.(handler := DropTable)));
    Unlocked(f, c, Table);
    GetsStep(cfg, c, Effect(Locked(f, c, Table), m.(handler := DropTable)), Go, Effect(f, m.(handler := Leaving)));
    GetsThen(cfg, c, a, Effect(Locked(f, c, Table), m.(handler := DropTable)), Effect(f, m.(handler := Leaving)));
  }

  /** The way out. */
  lemma AlarmLeaves(cfg: Config, g: Globals, me: Core, c: nat)
    requires Live(g, c) && !me.masked && me.handler.Quiet?
    ensures Gets(cfg, c, Effect(g, AlarmBody(cfg, me, 4).(handler := Leaving)),
                 Effect(g, me.(active := me.active + [RtcIrq(cfg.platform)])))
  {
    var m := AlarmBody(cfg, me, 4).(handler := Leaving);
    var x := Interrupted(me).(active := me.active + [RtcIrq(cfg.platform)], handler := Exiting);
    assert m.saved[..|m.saved| - 1] == me.saved;
    GetsStep(cfg, c, Effect(g, m), Go, Effect(g, x));
    GetsStep(cfg, c, Effect(g, x), Go, Effect(g, me.(active := me.active + [RtcIrq(cfg.platform)])));
    GetsThen(cfg, c, Effect(g, m), Effect(g, x), Effect(g, me.(active := me.active + [RtcIrq(cfg.platform)])));
  }

  /** An alarm is handled: it stays active and the flag is set. */
  lemma AlarmHandled(cfg: Config, g: Globals, me: Core)
    requires Live(g, cfg.primary) && !me.masked && me.handler.Quiet? && g.tables.owner == map[]
    requires var rtc := RtcIrq(cfg.platform);
             && Deliverable(cfg, g, Interrupted(me), cfg.primary, rtc)
             && rtc !in g.tables.priv[cfg.primary] && rtc in g.tables.shared && g.tables.shared[rtc] == AlarmHandler
    ensures var rtc := RtcIrq(cfg.platform);
            Gets(cfg, cfg.primary, Effect(g, Interrupted(me)),
                 Effect(Fired(Acknowledged(cfg, g, cfg.primary, rtc)), me.(active := me.active + [rtc])))
  {
    var p, rtc := cfg.primary, RtcIrq(cfg.platform);
    var a, g' := Effect(g, Interrupted(me)), Acknowledged(cfg, g, p, rtc);
    var l := Locked(g', p, Table);
    BodyGets(cfg, g, Interrupted(me), p, rtc);
    AlarmLogs(cfg, l, me, p);
    GetsThen(cfg, p, a, Effect(l, AlarmBody(cfg, me, 0)), Effect(l, AlarmBody(cfg, me, 4)));
    AlarmStores(cfg, g', me, p);
    GetsThen(cfg, p, a, Effect(l, AlarmBody(cfg, me, 4)),
             Effect(Fired(g'), AlarmBody(cfg, me, 4).(handler := Leaving)));
    AlarmLeaves(cfg, Fired(g'), me, p);
    GetsThen(cfg, p, a, Effect(Fired(g'), AlarmBody(cfg, me, 4).(handler := Leaving)),
             Effect(Fired(g'), me.(active := me.active + [rtc])));
  }

  /** `alarm` has looked at the flag and is about to arm the RTC when the previous alarm fires. */
  lemma FiringRun(cfg: Config, s: State) returns (t: State)
    requires KernelInit(cfg, s)
    ensures Shaped(cfg, t) && Leads(cfg, s, t) && Live(t.g, cfg.primary) && t.g.tables.owner == map[]
    ensures var me := t.cores[cfg.primary];
            me.place == Shell(Arm(true)) && me.call.Idle? && me.handler.Quiet? && !me.masked && me.active == []
    ensures var a := t.g.alarm;
            a.raw && a.enabled && !a.fired && a.matches == 1 && a.acks == a.merged == 0
  {
    var p, a := cfg.primary, Effect(s.g, s.cores[cfg.primary]);
    var g, me := Boots(cfg, s);
    var g1 := g.(alarm := g.alarm.(armed := true, enabled := true));
    AlarmGets(cfg, g, me);
    GetsThen(cfg, p, a, Effect(g, me), Effect(g1, me));
    AlarmToArm(cfg, g1, me);
    var e := Effect(g1, me.(place := Shell(Arm(true))));
    GetsThen(cfg, p, a, Effect(g1, me), e);
    LeadsSelf(cfg, s);
    GetsLeads(cfg, s, s, p, e);
    LeadsStep(cfg, s, With(s, p, e), Match);
    t := Step(cfg, With(s, p, e), Match).value;
  }

  lemma AlarmDeliverable(cfg: Config, g: Globals, me: Core)
    requires PrimaryInv(cfg, g, me) && g.alarm.raw && g.alarm.enabled
    requires me.place.Shell? && !me.place.at.Exited? && me.active == []
    ensures var rtc := RtcIrq(cfg.platform);
            && Deliverable(cfg, g, me, cfg.primary, rtc) && Deliverable(cfg, g, Interrupted(me), cfg.primary, rtc)
            && rtc !in g.tables.priv[cfg.primary] && rtc in g.tables.shared && g.tables.shared[rtc] == AlarmHandler
  {
    assert Running(me, []) == IDLE_PRIORITY;
    SameRunning(me, Interrupted(me), me.active);
  }

  lemma FiredRun(cfg: Config, s: State) returns (t: State)
    requires KernelInit(cfg, s)
    ensures Shaped(cfg, t) && Leads(cfg, s, t) && Live(t.g, cfg.primary)
    ensures var me := t.cores[cfg.primary]; me.place == Shell(Arm(true)) && me.call.Idle? && me.handler.Quiet?
    ensures var a := t.g.alarm; a.fired && a.matches == a.acks == 1 && a.merged == 0
  {
    var u := FiringRun(cfg, s);
    var p, me, rtc := cfg.primary, u.cores[cfg.primary], RtcIrq(cfg.platform);
    LeadsInv(cfg, s, u);
    AlarmDeliverable(cfg, u.g, me);
    LeadsStep(cfg, s, u, Interrupt(p));
    var v := Step(cfg, u, Interrupt(p)).value;
    AlarmHandled(cfg, u.g, me);
    var e := Effect(Fired(Acknowledged(cfg, u.g, p, rtc)), me.(active := me.active + [rtc]));
    GetsLeads(cfg, s, v, p, e);
    t := With(v, p, e);
  }

  /** An alarm can be lost: one that fires between `irq_finish` and `set_match` stays unfinished, and
      the next match then finds the line still raised. */
  lemma SecondAlarmLost(cfg: Config, s: State) returns (t: State)
    requires KernelInv(cfg, s) && DeviceInv(cfg, s.g, s.cores[cfg.primary]) && Live(s.g, cfg.primary)
    requires var me := s.cores[cfg.primary]; me.place == Shell(Arm(true)) && me.call.Idle? && me.handler.Quiet?
    requires s.g.alarm.fired
    ensures Leads(cfg, s, t)
    ensures var a, b := s.g.alarm, t.g.alarm; b.merged == a.merged + 1 && b.acks == a.acks && b.matches == a.matches + 1
  {
    assert s.g.alarm.raw;
    LeadsSelf(cfg, s);
    ArmStep(cfg, s);
    LeadsStep(cfg, s, s, Run(cfg.primary, Go));
    var v := Step(cfg, s, Run(cfg.primary, Go)).value;
    LeadsStep(cfg, s, v, Match);
    t := Step(cfg, v, Match).value;
  }

  /** Every system can get there from boot: two matches, one handler run, and the other match merged. */
  lemma SecondAlarmRun(cfg: Config, s: State) returns (t: State)
    requires KernelInit(cfg, s)
    ensures Leads(cfg, s, t) && t.g.alarm.matches == 2 && t.g.alarm.acks == 1 && t.g.alarm.merged == 1
  {
    var u := FiredRun(cfg, s);
    LeadsInv(cfg, s, u);
    t := SecondAlarmLost(cfg, u);
    LeadsThen(cfg, s, u, t);
  }

  // ---------------------------------------------------------------- an SGI after an early wfi

  /** `start_cpu` on a core that is off. */
  function Started(g: Globals, t: nat): Globals
    requires t < |g.cpus.power|
  {
    var b := g.cpus;
    g.(cpus := b.(stacks := b.stacks[t := b.nextStack], nextStack := b.nextStack + 1,
                  power := b.power[t := OnPending], inUse := b.inUse[t := b.nextStack]))
  }

  function At(me: Core, at: ShellAt): Core { me.(place := Shell(at)) }

  /** `cpus` with a stack for core `t`. */
  function Stacked(g: Globals, t: nat): Globals {
    g.(cpus := g.cpus.(stacks := g.cpus.stacks[t := g.cpus.nextStack], nextStack := g.cpus.nextStack + 1))
  }

  lemma QueryGets(cfg: Config, g: Globals, me: Core, t: nat)
    requires Prompt(cfg, g, me) && t < cfg.count == |g.cpus.power| && g.cpus.power[t].Off?
    ensures Gets(cfg, cfg.primary, Effect(g, me), Effect(g, At(me, LockStacks(t))))
  {
    var p := cfg.primary;
    BeginLogGets(cfg, g, me, p, Type(StartCpu(t)), Shell(Query(t)));
    JumpGets(cfg, g, At(me, Query(t)), p, Go, Shell(LockStacks(t)));
    GetsThen(cfg, p, Effect(g, me), Effect(g, At(me, Query(t))), Effect(g, At(me, LockStacks(t))));
  }

  /** `get_secondary_stack` for a core that has none yet. */
  lemma TakeGets(cfg: Config, g: Globals, me: Core, t: nat)
    requires Prompt(cfg, g, me) && t !in g.cpus.stacks
    ensures Gets(cfg, cfg.primary, Effect(g, At(me, LockStacks(t))),
                 Effect(Locked(Stacked(g, t), cfg.primary, Stacks), At(me, FreeStacks(t))))
  {
    var p, a := cfg.primary, Effect(g, At(me, LockStacks(t)));
    var l, l' := Locked(g, p, Stacks), Locked(Stacked(g, t), p, Stacks);
    DoGets(cfg, g, At(me, LockStacks(t)), p, Go, Sync(Acquire(Stacks)), Shell(Take(t)), l, At(me, LockStacks(t)));
    DoGets(cfg, l, At(me, Take(t)), p, Go, Cpu(TakeStack(t)), Shell(FreeStacks(t)), l', At(me, Take(t)));
    GetsThen(cfg, p, a, Effect(l, At(me, Take(t))), Effect(l', At(me, FreeStacks(t))));
  }

  lemma PushGets(cfg: Config, g: Globals, me: Core, t: nat)
    requires Prompt(cfg, g, me)
    ensures Gets(cfg, cfg.primary, Effect(Locked(g, cfg.primary, Stacks), At(me, FreeStacks(t))),
                 Effect(g, At(me, Start(t))))
  {
    var p := cfg.primary;
    var l := Locked(g, p, Stacks);
    Unlocked(g, p, Stacks);
    DoGets(cfg, l, At(me, FreeStacks(t)), p, Go, Sync(Release(Stacks)), Shell(Push(t)), g, At(me, FreeStacks(t)));
    JumpGets(cfg, g, At(me, Push(t)), p, Go, Shell(Start(t)));
    GetsThen(cfg, p, Effect(l, At(me, FreeStacks(t))), Effect(g, At(me, Push(t))), Effect(g, At(me, Start(t))));
  }

  lemma PowerGets(cfg: Config, g: Globals, me: Core, t: nat)
    requires Prompt(cfg, g, me) && t < |g.cpus.power| && g.cpus.power[t].Off?
    ensures Gets(cfg, cfg.primary, Effect(Stacked(g, t), At(me, Start(t))), Effect(Started(g, t), At(me, Report)))
  {
    DoGets(cfg, Stacked(g, t), At(me, Start(t)), cfg.primary, Go, Cpu(PowerOn(t)), Shell(Report), Started(g, t),
           At(me, Start(t)));
  }

  lemma StartGets(cfg: Config, g: Globals, me: Core, t: nat)
    requires Prompt(cfg, g, me) && t < cfg.count == |g.cpus.power| && g.cpus.power[t].Off? && t !in g.cpus.stacks
             && t != cfg.primary
    ensures Gets(cfg, cfg.primary, Effect(g, me), Effect(Started(g, t), me))
  {
    var p, a := cfg.primary, Effect(g, me);
    var l := Locked(Stacked(g, t), p, Stacks);
    QueryGets(cfg, g, me, t);
    TakeGets(cfg, g, me, t);
    GetsThen(cfg, p, a, Effect(g, At(me, LockStacks(t))), Effect(l, At(me, FreeStacks(t))));
    PushGets(cfg, Stacked(g, t), me, t);
    GetsThen(cfg, p, a, Effect(l, At(me, FreeStacks(t))), Effect(Stacked(g, t), At(me, Start(t))));
    PowerGets(cfg, g, me, t);
    GetsThen(cfg, p, a, Effect(Stacked(g, t), At(me, Start(t))), Effect(Started(g, t), At(me, Report)));
    BeginLogGets(cfg, Started(g, t), At(me, Report), p, Go, Shell(Top));
    GetsThen(cfg, p, a, Effect(Started(g, t), At(me, Report)), Effect(Started(g, t), me));
  }

  /** A secondary core between calls, with no lock taken and boot done. */
  predicate Coming(g: Globals, me: Core, c: nat) {
    && Idling(g, me, c) && me.place.Secondary? && g.tables.owner == map[]
    && g.cpus.active && g.cpus.stored && g.cpus.gicReady
  }

  function Sec(me: Core, at: SecondaryAt): Core { me.(place := Secondary(at)) }

  /** `secondary_init`: the page table, then the GIC. */
  lemma InitGets(cfg: Config, g: Globals, me: Core, c: nat)
    requires Coming(g, me, c) && me.place == Secondary(Init(0))
    ensures Gets(cfg, c, Effect(g, me), Effect(g, Sec(me, Init(5)).(pmr := 0xff)))
  {
    var a := Effect(g, me);
    DoGets(cfg, g, me, c, Go, Cpu(ActivateSecondary), Secondary(Init(1)), g, me);
    BeginLogGets(cfg, g, Sec(me, Init(1)), c, Go, Secondary(Init(2)));
    GetsThen(cfg, c, a, Effect(g, Sec(me, Init(1))), Effect(g, Sec(me, Init(2))));
    InitGicGets(cfg, g, Sec(me, Init(2)), c);
    GetsThen(cfg, c, a, Effect(g, Sec(me, Init(2))), Effect(g, Sec(me, Init(5)).(pmr := 0xff)));
  }

  lemma InitGicGets(cfg: Config, g: Globals, me: Core, c: nat)
    requires Coming(g, me, c) && me.place == Secondary(Init(2))
    ensures Gets(cfg, c, Effect(g, me), Effect(g, Sec(me, Init(5)).(pmr := 0xff)))
  {
    var a, l := Effect(g, me), Locked(g, c, Gic);
    DoGets(cfg, g, me, c, Go, Sync(Acquire(Gic)), Secondary(Init(3)), l, me);
    Unlocked(g, c, Gic);
    DoGets(cfg, l, Sec(me, Init(3)), c, Go, Sync(Release(Gic)), Secondary(Init(4)), g, Sec(me, Init(3)));
    GetsThen(cfg, c, a, Effect(l, Sec(me, Init(3))), Effect(g, Sec(me, Init(4))));
    DoGets(cfg, g, Sec(me, Init(4)), c, Go, Irq(SetPmr), Secondary(Init(5)), g, Sec(me, Init(4)).(pmr := 0xff));
    GetsThen(cfg, c, a, Effect(g, Sec(me, Init(4))), Effect(g, Sec(me, Init(5)).(pmr := 0xff)));
  }

  /** The start of `secondary_entry`. */
  lemma EntryGets(cfg: Config, g: Globals, me: Core, c: nat)
    requires Coming(g, me, c) && me.place == Secondary(Init(5))
    ensures Gets(cfg, c, Effect(g, me), Effect(Locked(g, c, Gic), Sec(me, Configure(0, false))))
  {
    var l := Locked(g, c, Gic);
    BeginLogGets(cfg, g, me, c, Go, Secondary(Init(6)));
    DoGets(cfg, g, Sec(me, Init(6)), c, Go, Sync(Acquire(Gic)), Secondary(Configure(0, false)), l, Sec(me, Init(6)));
    GetsThen(cfg, c, Effect(g, me), Effect(g, Sec(me, Init(6))), Effect(l, Sec(me, Configure(0, false))));
  }

  /** The first loop: SGIs from `n` on are enabled. */
  lemma {:induction false} ConfigureGets(cfg: Config, g: Globals, me: Core, c: nat, n: nat) returns (me': Core)
    requires Idling(g, me, c) && me.place == Secondary(Configure(n, false)) && n <= SGI_COUNT
    ensures Gets(cfg, c, Effect(g, me), Effect(g, me'))
    ensures me' == Sec(me, Configure(SGI_COUNT, false)).(enabled := me'.enabled, prio := me'.prio)
    ensures me.enabled <= me'.enabled && (n < SGI_COUNT ==> Sgi(n) in me'.enabled)
    decreases SGI_COUNT - n
  {
    if n == SGI_COUNT {
      me' := me;
      GetsSelf(cfg, c, Effect(g, me));
    } else {
      var m1 := Sec(me, Configure(n, true)).(enabled := me.enabled + {Sgi(n)});
      var m2 := m1.(place := Secondary(Configure(n + 1, false)), prio := me.prio[Sgi(n) := SGI_PRIORITY]);
      DoGets(cfg, g, me, c, Go, Irq(Enable(Sgi(n))), Secondary(Configure(n, true)), g,
             me.(enabled := me.enabled + {Sgi(n)}));
      DoGets(cfg, g, m1, c, Go, Irq(SetPriority(Sgi(n), SGI_PRIORITY)), Secondary(Configure(n + 1, false)), g,
             m1.(prio := me.prio[Sgi(n) := SGI_PRIORITY]));
      GetsThen(cfg, c, Effect(g, me), Effect(g, m1), Effect(g, m2));
      me' := ConfigureGets(cfg, g, m2, c, n + 1);
      GetsThen(cfg, c, Effect(g, me), Effect(g, m2), Effect(g, me'));
    }
  }

  /** A private call of the second or third loop. */
  lemma RegisterOne(cfg: Config, g: Globals, me: Core, c: nat, n: nat) returns (g': Globals)
    requires Coming(g, me, c) && me.place == Secondary(Register(n)) && n < SGI_COUNT && Sgi(n) !in g.tables.shared
    ensures Gets(cfg, c, Effect(g, me), Effect(g', Sec(me, Register(n + 1)))) && Coming(g', me, c)
    ensures g' == g.(tables := g'.tables) && g'.tables.shared == g.tables.shared && |g'.tables.priv| == |g.tables.priv|
  {
    var k := SetPrivate(Sgi(n), SecondaryHandler);
    var m := Sec(me, Register(n + 1)).(call := Busy(k, 0));
    g' := g.(tables := Applied(g.tables, c, k).value);
    BeginGets(cfg, g, me, c, Go, k, Secondary(Register(n + 1)));
    SetPrivateAlone(cfg, g, m, c, Sgi(n), SecondaryHandler);
    assert m.(call := Idle) == Sec(me, Register(n + 1));
    GetsThen(cfg, c, Effect(g, me), Effect(g, m), Effect(g', Sec(me, Register(n + 1))));
  }

  lemma {:induction false} RegisterGets(cfg: Config, g: Globals, me: Core, c: nat, n: nat) returns (g': Globals)
    requires Coming(g, me, c) && me.place == Secondary(Register(n)) && n <= SGI_COUNT
    requires forall k :: Sgi(k) !in g.tables.shared
    ensures Gets(cfg, c, Effect(g, me), Effect(g', Sec(me, Register(SGI_COUNT)))) && Coming(g', me, c)
    ensures g' == g.(tables := g'.tables) && g'.tables.shared == g.tables.shared && |g'.tables.priv| == |g.tables.priv|
    decreases SGI_COUNT - n
  {
    if n == SGI_COUNT {
      g' := g;
      GetsSelf(cfg, c, Effect(g, me));
    } else {
      var g1 := RegisterOne(cfg, g, me, c, n);
      g' := RegisterGets(cfg, g1, Sec(me, Register(n + 1)), c, n + 1);
      GetsThen(cfg, c, Effect(g, me), Effect(g1, Sec(me, Register(n + 1))), Effect(g', Sec(me, Register(SGI_COUNT))));
    }
  }

  /** Unmasking, a `wfi` that returns at once, and the first removal. */
  lemma WakeGets(cfg: Config, g: Globals, me: Core, c: nat) returns (g': Globals)
    requires Coming(g, me, c) && me.place == Secondary(Register(SGI_COUNT)) && cfg.earlyWfi
    ensures Gets(cfg, c, Effect(g, me), Effect(g', Sec(me, Unregister(1)).(masked := false))) && Coming(g', me, c)
    ensures g' == g.(tables := g'.tables) && g'.tables.shared == g.tables.shared && |g'.tables.priv| == |g.tables.priv|
  {
    var a, m, k := Effect(g, me), me.(masked := false), DropPrivate(Sgi(0));
    DoGets(cfg, g, me, c, Go, Sync(Unmask), Secondary(Await(0)), g, m);
    BeginLogGets(cfg, g, Sec(m, Await(0)), c, Go, Secondary(Await(1)));
    GetsThen(cfg, c, a, Effect(g, Sec(m, Await(0))), Effect(g, Sec(m, Await(1))));
    DoGets(cfg, g, Sec(m, Await(1)), c, Go, Irq(AwaitTaken), Secondary(Await(2)), g, Sec(m, Await(1)));
    GetsThen(cfg, c, a, Effect(g, Sec(m, Await(1))), Effect(g, Sec(m, Await(2))));
    BeginLogGets(cfg, g, Sec(m, Await(2)), c, Go, Secondary(Unregister(0)));
    GetsThen(cfg, c, a, Effect(g, Sec(m, Await(2))), Effect(g, Sec(m, Unregister(0))));
    g' := UnregisterOne(cfg, g, Sec(m, Unregister(0)), c);
    GetsThen(cfg, c, a, Effect(g, Sec(m, Unregister(0))), Effect(g', Sec(m, Unregister(1))));
  }

  lemma UnregisterOne(cfg: Config, g: Globals, me: Core, c: nat) returns (g': Globals)
    requires Coming(g, me, c) && me.place == Secondary(Unregister(0))
    ensures Gets(cfg, c, Effect(g, me), Effect(g', Sec(me, Unregister(1)))) && Coming(g', me, c)
    ensures g' == g.(tables := g'.tables) && g'.tables.shared == g.tables.shared && |g'.tables.priv| == |g.tables.priv|
  {
    var k := DropPrivate(Sgi(0));
    var m := Sec(me, Unregister(1)).(call := Busy(k, 0));
    g' := g.(tables := Applied(g.tables, c, k).value);
    BeginGets(cfg, g, me, c, Go, k, Secondary(Unregister(1)));
    DropPrivateAlone(cfg, g, m, c, Sgi(0));
    assert m.(call := Idle) == Sec(me, Unregister(1));
    GetsThen(cfg, c, Effect(g, me), Effect(g, m), Effect(g', Sec(me, Unregister(1))));
  }

  /** From reset to the first removal. */
  lemma SecondaryGets(cfg: Config, g: Globals, me: Core, c: nat) returns (g': Globals, me': Core)
    requires Coming(g, me, c) && me.place == Secondary(Init(0)) && cfg.earlyWfi && me.active == []
    requires forall k :: Sgi(k) !in g.tables.shared
    ensures Gets(cfg, c, Effect(g, me), Effect(g', me')) && Coming(g', me', c)
    ensures g' == g.(tables := g'.tables) && g'.tables.shared == g.tables.shared && |g'.tables.priv| == |g.tables.priv|
    ensures me'.place == Secondary(Unregister(1)) && !me'.masked && me'.active == [] && me'.pmr == 0xff
            && Sgi(0) in me'.enabled
  {
    var a, l := Effect(g, me), Locked(g, c, Gic);
    InitGets(cfg, g, me, c);
    EntryGets(cfg, g, Sec(me, Init(5)).(pmr := 0xff), c);
    GetsThen(cfg, c, a, Effect(g, Sec(me, Init(5)).(pmr := 0xff)),
             Effect(l, Sec(me, Configure(0, false)).(pmr := 0xff)));
    var m := ConfigureGets(cfg, l, Sec(me, Configure(0, false)).(pmr := 0xff), c, 0);
    GetsThen(cfg, c, a, Effect(l, Sec(me, Configure(0, false)).(pmr := 0xff)), Effect(l, m));
    Unlocked(g, c, Gic);
    DoGets(cfg, l, m, c, Go, Sync(Release(Gic)), Secondary(Register(0)), g, m);
    GetsThen(cfg, c, a, Effect(l, m), Effect(g, Sec(m, Register(0))));
    var g1 := RegisterGets(cfg, g, Sec(m, Register(0)), c, 0);
    GetsThen(cfg, c, a, Effect(g, Sec(m, Register(0))), Effect(g1, Sec(m, Register(SGI_COUNT))));
    g' := WakeGets(cfg, g1, Sec(m, Register(SGI_COUNT)), c);
    me' := Sec(m, Unregister(1)).(masked := false);
    GetsThen(cfg, c, a, Effect(g1, Sec(m, Register(SGI_COUNT))), Effect(g', me'));
  }

  /** The primary core has started core `c`, which comes out of reset. */
  lemma PoweredRun(cfg: Config, s: State, c: nat) returns (g: Globals, x: Core, y: Core)
    requires KernelInit(cfg, s) && c < cfg.count && c != cfg.primary
    ensures Reaches(cfg, s, cfg.primary, c, g, x, y) && Prompt(cfg, g, x)
    ensures Coming(g, y, c) && y.place == Secondary(Init(0)) && y.active == []
  {
    var p := cfg.primary;
    var g1, m := StartedRun(cfg, s, c);
    LeadsStep(cfg, s, Two(s, p, c, g1, m, s.cores[c]), PowerUp(c));
    g, x, y := g1.(cpus := g1.cpus.(power := g1.cpus.power[c := On])), m, Reset(s.cores[c]);
    assert s.cores[p := m][c := s.cores[c]][c := y] == s.cores[p := m][c := y];
  }

  lemma StartedRun(cfg: Config, s: State, c: nat) returns (g: Globals, x: Core)
    requires KernelInit(cfg, s) && c < cfg.count && c != cfg.primary
    ensures Reaches(cfg, s, cfg.primary, c, g, x, s.cores[c]) && Prompt(cfg, g, x)
    ensures g.cpus.active && g.cpus.stored && g.cpus.gicReady && c < |g.cpus.power| && g.cpus.power[c].OnPending?
  {
    var p := cfg.primary;
    ReachesStart(cfg, s, p, c);
    var g1, m := Boots(cfg, s);
    FirstGets(cfg, s, p, c, s.g, s.cores[p], s.cores[c], g1, m);
    StartGets(cfg, g1, m, c);
    g, x := Started(g1, c), m;
    FirstGets(cfg, s, p, c, g1, m, s.cores[c], g, m);
  }

  /** The state to be in: `wfi` is over, the handler of SGI `n` is gone and nothing is active to mask
      it. */
  lemma EarlyWakePanics(cfg: Config, s: State, c: nat, n: nat) returns (t: State)
    requires KernelInv(cfg, s) && c < cfg.count && c != cfg.primary && Live(s.g, c)
    requires var me := s.cores[c];
             && me.place.Secondary? && me.place.sec.Unregister? && me.call.Idle? && n < me.place.sec.n
             && me.handler.Quiet? && !me.masked && me.active == [] && me.pmr == 0xff && Sgi(n) in me.enabled
    requires Sgi(n) in s.g.pend[c] && Table !in s.g.tables.owner
    ensures Leads(cfg, s, t) && t.g.panic == Some(UnexpectedIrq(c, Sgi(n)))
  {
    var me := s.cores[c];
    assert SecondaryInv(cfg, s.g, me, c);
    assert Running(me, []) == IDLE_PRIORITY;
    assert Deliverable(cfg, s.g, me, c, Sgi(n));
    assert !Registered(me, n);
    t := UnhandledPanics(cfg, s, c, Sgi(n));
  }

  /** If `wfi` can return early, every secondary core can get there from boot: it is started, wakes up,
      removes its first handler, and then the shell sends that SGI. */
  lemma EarlyWakeRun(cfg: Config, s: State, c: nat) returns (t: State)
    requires KernelInit(cfg, s) && c < cfg.count && c != cfg.primary && cfg.earlyWfi
    ensures Leads(cfg, s, t) && t.g.panic == Some(UnexpectedIrq(c, Sgi(0)))
  {
    var g, x, y := AwakeRun(cfg, s, c);
    var p, g' := cfg.primary, Raised(g, cfg.primary, 0);
    SgiGets(cfg, g, x, 0);
    FirstGets(cfg, s, p, c, g, x, y, g', x);
    var u := Two(s, p, c, g', x, y);
    LeadsInv(cfg, s, u);
    t := EarlyWakePanics(cfg, u, c, 0);
    LeadsThen(cfg, s, u, t);
  }

  lemma AwakeRun(cfg: Config, s: State, c: nat) returns (g: Globals, x: Core, y: Core)
    requires KernelInit(cfg, s) && c < cfg.count && c != cfg.primary && cfg.earlyWfi
    ensures Reaches(cfg, s, cfg.primary, c, g, x, y) && Prompt(cfg, g, x) && Coming(g, y, c)
    ensures y.place == Secondary(Unregister(1)) && !y.masked && y.active == [] && y.pmr == 0xff && Sgi(0) in y.enabled
  {
    var p := cfg.primary;
    var g0, x0, y0 := PoweredRun(cfg, s, c);
    NoSharedSgi(cfg, s, Two(s, p, c, g0, x0, y0));
    g, y := SecondaryGets(cfg, g0, y0, c);
    SecondGets(cfg, s, p, c, g0, x0, y0, g, y);
    x := x0;
  }

  lemma NoSharedSgi(cfg: Config, s: State, t: State)
    requires KernelInit(cfg, s) && Leads(cfg, s, t)
    ensures forall k :: Sgi(k) !in t.g.tables.shared
  {
    LeadsInv(cfg, s, t);
  }
}
