/** Runs of two cores that show what the results about all runs are up against: a shared handler on any
    core while another core waits for the table, and interrupts that end up in both tables. */
module Witnesses {
  import opened Wrappers
  import opened Machine
  import opened Locks
  import opened Paths
  import opened Interrupts
  import opened Runs

  // ---------------------------------------------------------------- two cores

  /** The system with cores `c` and `d` and the globals replaced. */
  function Two(s: State, c: nat, d: nat, g: Globals, x: Core, y: Core): State
    requires c < |s.cores| && d < |s.cores|
  {
    State(g, s.cores[c := x][d := y])
  }

  /** A run from `s` to the system with cores `c` and `d` and the globals replaced. */
  ghost predicate Reaches(cfg: Config, s: State, c: nat, d: nat, g: Globals, x: Core, y: Core) {
    && Shaped(cfg, s) && c < cfg.count && d < cfg.count && c != d
    && Shaped(cfg, Two(s, c, d, g, x, y)) && Leads(cfg, s, Two(s, c, d, g, x, y))
  }

  lemma ReachesStart(cfg: Config, s: State, c: nat, d: nat)
    requires Shaped(cfg, s) && c < cfg.count && d < cfg.count && c != d
    ensures Reaches(cfg, s, c, d, s.g, s.cores[c], s.cores[d])
  {
    LeadsSelf(cfg, s);
    assert Two(s, c, d, s.g, s.cores[c], s.cores[d]) == s;
  }

  lemma FirstGets(cfg: Config, s: State, c: nat, d: nat, g: Globals, x: Core, y: Core, g': Globals, x': Core)
    requires Reaches(cfg, s, c, d, g, x, y) && Gets(cfg, c, Effect(g, x), Effect(g', x'))
    ensures Reaches(cfg, s, c, d, g', x', y)
  {
    GetsLeads(cfg, s, Two(s, c, d, g, x, y), c, Effect(g', x'));
    assert s.cores[c := x][d := y][c := x'] == s.cores[c := x'][d := y];
  }

  lemma SecondGets(cfg: Config, s: State, c: nat, d: nat, g: Globals, x: Core, y: Core, g': Globals, y': Core)
    requires Reaches(cfg, s, c, d, g, x, y) && Gets(cfg, d, Effect(g, y), Effect(g', y'))
    ensures Reaches(cfg, s, c, d, g', x, y')
  {
    GetsLeads(cfg, s, Two(s, c, d, g, x, y), d, Effect(g', y'));
    assert s.cores[c := x][d := y][d := y'] == s.cores[c := x][d := y'];
  }

  /** A core that an interrupt has just stopped. */
  function Interrupted(me: Core): Core { me.(handler := Entered, masked := true) }

  lemma FirstInterrupted(cfg: Config, s: State, c: nat, d: nat, g: Globals, x: Core, y: Core, i: IntId)
    requires Reaches(cfg, s, c, d, g, x, y) && Live(g, c) && !x.masked && x.handler.Quiet?
             && Deliverable(cfg, g, x, c, i)
    ensures Reaches(cfg, s, c, d, g, Interrupted(x), y) && Deliverable(cfg, g, Interrupted(x), c, i)
  {
    LeadsStep(cfg, s, Two(s, c, d, g, x, y), Interrupt(c));
    assert s.cores[c := x][d := y][c := Interrupted(x)] == s.cores[c := Interrupted(x)][d := y];
    SameRunning(x, Interrupted(x), x.active);
  }

  lemma SecondInterrupted(cfg: Config, s: State, c: nat, d: nat, g: Globals, x: Core, y: Core, i: IntId)
    requires Reaches(cfg, s, c, d, g, x, y) && Live(g, d) && !y.masked && y.handler.Quiet?
             && Deliverable(cfg, g, y, d, i)
    ensures Reaches(cfg, s, c, d, g, x, Interrupted(y)) && Deliverable(cfg, g, Interrupted(y), d, i)
  {
    LeadsStep(cfg, s, Two(s, c, d, g, x, y), Interrupt(d));
    assert s.cores[c := x][d := y][d := Interrupted(y)] == s.cores[c := x][d := Interrupted(y)];
    SameRunning(y, Interrupted(y), y.active);
  }

  // ---------------------------------------------------------------- through handle_irq

  /** Core `me`, stopped by interrupt `i`, at position `h` of `handle_irq`, inside `exception_free`. */
  function Handles(me: Core, i: IntId, h: Handling): Core {
    me.(active := me.active + [i], saved := me.saved + [me.masked], masked := true, handler := h)
  }

  lemma AckGets(cfg: Config, g: Globals, me: Core, c: nat, i: IntId)
    requires Live(g, c) && me.handler.Entered? && Deliverable(cfg, g, me, c, i)
    ensures Gets(cfg, c, Effect(g, me), Effect(Acknowledged(cfg, g, c, i), Handles(me, i, SeekPrivate(i))))
  {
    var g' := Acknowledged(cfg, g, c, i);
    var m := me.(active := me.active + [i], handler := Acked(i));
    GetsStep(cfg, c, Effect(g, me), Pick(i), Effect(g', m));
    GetsStep(cfg, c, Effect(g', m), Go, Effect(g', Handles(me, i, SeekPrivate(i))));
    GetsThen(cfg, c, Effect(g, me), Effect(g', m), Effect(g', Handles(me, i, SeekPrivate(i))));
  }

  /** Without a private handler the core asks for the table. */
  lemma SeekGets(cfg: Config, g: Globals, me: Core, c: nat, i: IntId)
    requires Live(g, c) && me.handler.Entered? && Deliverable(cfg, g, me, c, i) && i !in g.tables.priv[c]
    ensures Gets(cfg, c, Effect(g, me), Effect(Acknowledged(cfg, g, c, i), Handles(me, i, SeekTable(i))))
  {
    var g' := Acknowledged(cfg, g, c, i);
    AckGets(cfg, g, me, c, i);
    GetsStep(cfg, c, Effect(g', Handles(me, i, SeekPrivate(i))), Go, Effect(g', Handles(me, i, SeekTable(i))));
    GetsThen(cfg, c, Effect(g, me), Effect(g', Handles(me, i, SeekPrivate(i))),
             Effect(g', Handles(me, i, SeekTable(i))));
  }

  lemma LockGets(cfg: Config, g: Globals, me: Core, c: nat, i: IntId)
    requires Live(g, c) && me.handler.Entered? && Deliverable(cfg, g, me, c, i) && i !in g.tables.priv[c]
    requires Table !in g.tables.owner
    ensures Gets(cfg, c, Effect(g, me),
                 Effect(Locked(Acknowledged(cfg, g, c, i), c, Table), Handles(me, i, SeekShared(i))))
  {
    var g' := Acknowledged(cfg, g, c, i);
    SeekGets(cfg, g, me, c, i);
    GetsStep(cfg, c, Effect(g', Handles(me, i, SeekTable(i))), Go,
             Effect(Locked(g', c, Table), Handles(me, i, SeekShared(i))));
    GetsThen(cfg, c, Effect(g, me), Effect(g', Handles(me, i, SeekTable(i))),
             Effect(Locked(g', c, Table), Handles(me, i, SeekShared(i))));
  }

  /** With a shared handler it runs that, with the table locked. */
  lemma BodyGets(cfg: Config, g: Globals, me: Core, c: nat, i: IntId)
    requires Live(g, c) && me.handler.Entered? && Deliverable(cfg, g, me, c, i) && i !in g.tables.priv[c]
    requires Table !in g.tables.owner && i in g.tables.shared
    ensures Gets(cfg, c, Effect(g, me), Effect(Locked(Acknowledged(cfg, g, c, i), c, Table),
                                               Handles(me, i, Body(i, g.tables.shared[i], true, 0))))
  {
    var l := Locked(Acknowledged(cfg, g, c, i), c, Table);
    LockGets(cfg, g, me, c, i);
    GetsStep(cfg, c, Effect(l, Handles(me, i, SeekShared(i))), Go,
             Effect(l, Handles(me, i, Body(i, g.tables.shared[i], true, 0))));
    GetsThen(cfg, c, Effect(g, me), Effect(l, Handles(me, i, SeekShared(i))),
             Effect(l, Handles(me, i, Body(i, g.tables.shared[i], true, 0))));
  }

  /** With none it panics. */
  lemma PanicGets(cfg: Config, g: Globals, me: Core, c: nat, i: IntId) returns (e: Effect)
    requires Live(g, c) && me.handler.Entered? && Deliverable(cfg, g, me, c, i) && i !in g.tables.priv[c]
    requires Table !in g.tables.owner && i !in g.tables.shared
    ensures Gets(cfg, c, Effect(g, me), e) && e.Effect? && e.g.panic == Some(UnexpectedIrq(c, i))
  {
    var l := Locked(Acknowledged(cfg, g, c, i), c, Table);
    e := Effect(l.(panic := Some(UnexpectedIrq(c, i))), Handles(me, i, SeekShared(i)));
    LockGets(cfg, g, me, c, i);
    GetsStep(cfg, c, Effect(l, Handles(me, i, SeekShared(i))), Go, e);
    GetsThen(cfg, c, Effect(g, me), Effect(l, Handles(me, i, SeekShared(i))), e);
  }

  /** An interrupt with no handler in either table stops the system, as soon as the table lock is
      free. */
  lemma UnhandledPanics(cfg: Config, s: State, c: nat, i: IntId) returns (t: State)
    requires Shaped(cfg, s) && c < cfg.count && Live(s.g, c)
    requires var me := s.cores[c]; me.handler.Quiet? && !me.masked && Deliverable(cfg, s.g, me, c, i)
    requires i !in s.g.tables.priv[c] && i !in s.g.tables.shared && Table !in s.g.tables.owner
    ensures Leads(cfg, s, t) && t.g.panic == Some(UnexpectedIrq(c, i))
  {
    var me := s.cores[c];
    var u := Step(cfg, s, Interrupt(c)).value;
    LeadsSelf(cfg, s);
    LeadsStep(cfg, s, s, Interrupt(c));
    SameRunning(me, Interrupted(me), me.active);
    assert Deliverable(cfg, u.g, u.cores[c], c, i);
    var e := PanicGets(cfg, u.g, u.cores[c], c, i);
    GetsLeads(cfg, s, u, c, e);
    t := With(u, c, e);
  }

  // ---------------------------------------------------------------- programs of their own

  /** A core of a client program between calls, with no lock taken anywhere. */
  predicate Choosing(g: Globals, me: Core, c: nat) {
    Idling(g, me, c) && me.place == Client(Choose) && g.tables.owner == map[] && g.cpus.gicReady
  }

  lemma InvokeGets(cfg: Config, g: Globals, me: Core, c: nat, kind: CallKind)
    requires Choosing(g, me, c) && !kind.Read? && !kind.Poll?
    ensures Gets(cfg, c, Effect(g, me), Effect(g, me.(call := Busy(kind, 0))))
  {
    BeginGets(cfg, g, me, c, Ask(Invoke(kind)), kind, Client(Choose));
    assert me.(place := Client(Choose), call := Busy(kind, 0)) == me.(call := Busy(kind, 0));
  }

  lemma UnmaskGets(cfg: Config, g: Globals, me: Core, c: nat)
    requires Choosing(g, me, c)
    ensures Gets(cfg, c, Effect(g, me), Effect(g, me.(masked := false)))
  {
    DoGets(cfg, g, me, c, Ask(EnableIrqs), Sync(Unmask), Client(Choose), g, me.(masked := false));
  }

  function Raised(g: Globals, c: nat, n: nat): Globals {
    g.(pend := seq(|g.pend|, d requires 0 <= d < |g.pend| => if d == c then g.pend[d] else g.pend[d] + {Sgi(n)}))
  }

  lemma RaiseGets(cfg: Config, g: Globals, me: Core, c: nat, n: nat)
    requires Choosing(g, me, c) && n < SGI_COUNT
    ensures Gets(cfg, c, Effect(g, me), Effect(Raised(g, c, n), me))
  {
    DoGets(cfg, g, me, c, Ask(Raise(n)), Irq(SendSgi(n)), Client(Choose), Raised(g, c, n), me);
  }

  /** Position `n` of a set-up, with the GIC lock taken. */
  function Setting(me: Core, i: IntId, h: Handler, p: nat, n: nat): Core { me.(place := Client(Setup(i, h, p, n))) }

  lemma SetupRegisters(cfg: Config, g: Globals, me: Core, c: nat, i: IntId, h: Handler, p: nat)
    requires Choosing(g, me, c) && i !in g.tables.priv[c]
    ensures var g' := g.(tables := Applied(g.tables, c, SetShared(i, h)).value);
            Gets(cfg, c, Effect(g, me), Effect(Locked(g', c, Gic), Setting(me, i, h, p, 2)))
  {
    var a, k := Effect(g, me), SetShared(i, h);
    var l, g' := Locked(g, c, Gic), g.(tables := Applied(g.tables, c, k).value);
    var call := Setting(me, i, h, p, 2).(call := Busy(k, 0));
    JumpGets(cfg, g, me, c, Ask(InvokeSetup(i, h, p)), Client(Setup(i, h, p, 0)));
    DoGets(cfg, g, Setting(me, i, h, p, 0), c, Go, Sync(Acquire(Gic)), Client(Setup(i, h, p, 1)), l,
           Setting(me, i, h, p, 0));
    GetsThen(cfg, c, a, Effect(g, Setting(me, i, h, p, 0)), Effect(l, Setting(me, i, h, p, 1)));
    BeginGets(cfg, l, Setting(me, i, h, p, 1), c, Go, k, Client(Setup(i, h, p, 2)));
    GetsThen(cfg, c, a, Effect(l, Setting(me, i, h, p, 1)), Effect(l, call));
    SetSharedAlone(cfg, l, call, c, i, h);
    assert l.(tables := Applied(l.tables, c, k).value) == Locked(g', c, Gic);
    assert call.(call := Idle) == Setting(me, i, h, p, 2);
    GetsThen(cfg, c, a, Effect(l, call), Effect(Locked(g', c, Gic), Setting(me, i, h, p, 2)));
  }

  /** A core whose GIC configuration lets interrupt `i` through. */
  function Configured(me: Core, i: IntId, p: nat): Core {
    me.(prio := me.prio[i := p], enabled := me.enabled + {i}, pmr := 0xff)
  }

  lemma SetupConfigures(cfg: Config, g: Globals, me: Core, c: nat, i: IntId, h: Handler, p: nat)
    requires Choosing(g, me, c)
    ensures Gets(cfg, c, Effect(Locked(g, c, Gic), Setting(me, i, h, p, 2)), Effect(g, Configured(me, i, p)))
  {
    var l, a := Locked(g, c, Gic), Effect(Locked(g, c, Gic), Setting(me, i, h, p, 2));
    var m5 := Configured(me, i, p).(place := Client(Setup(i, h, p, 5)));
    SetupEnables(cfg, l, me, c, i, h, p);
    Unlocked(g, c, Gic);
    DoGets(cfg, l, m5, c, Go, Sync(Release(Gic)), Client(Choose), g, m5);
    GetsThen(cfg, c, a, Effect(l, m5), Effect(g, Configured(me, i, p)));
  }

  lemma SetupEnables(cfg: Config, g: Globals, me: Core, c: nat, i: IntId, h: Handler, p: nat)
    requires Idling(g, me, c)
    ensures Gets(cfg, c, Effect(g, Setting(me, i, h, p, 2)),
                 Effect(g, Configured(me, i, p).(place := Client(Setup(i, h, p, 5)))))
  {
    var a, m3 := Effect(g, Setting(me, i, h, p, 2)), Setting(me, i, h, p, 3).(prio := me.prio[i := p]);
    var m4 := m3.(place := Client(Setup(i, h, p, 4)), enabled := me.enabled + {i});
    DoGets(cfg, g, Setting(me, i, h, p, 2), c, Go, Irq(SetPriority(i, p)), Client(Setup(i, h, p, 3)), g,
           m3.(place := Client(Setup(i, h, p, 2))));
    DoGets(cfg, g, m3, c, Go, Irq(Enable(i)), Client(Setup(i, h, p, 4)), g, m3.(enabled := me.enabled + {i}));
    GetsThen(cfg, c, a, Effect(g, m3), Effect(g, m4));
    DoGets(cfg, g, m4, c, Go, Irq(SetPmr), Client(Setup(i, h, p, 5)), g, m4.(pmr := 0xff));
    GetsThen(cfg, c, a, Effect(g, m4), Effect(g, Configured(me, i, p).(place := Client(Setup(i, h, p, 5)))));
  }

  /** `irq_setup` for any interrupt, then unmasking. */
  lemma SetupGets(cfg: Config, g: Globals, me: Core, c: nat, i: IntId, h: Handler, p: nat)
    requires Choosing(g, me, c) && i !in g.tables.priv[c]
    ensures Gets(cfg, c, Effect(g, me), Effect(g.(tables := Applied(g.tables, c, SetShared(i, h)).value),
                                               Configured(me, i, p).(masked := false)))
  {
    var g' := g.(tables := Applied(g.tables, c, SetShared(i, h)).value);
    SetupRegisters(cfg, g, me, c, i, h, p);
    SetupConfigures(cfg, g', me, c, i, h, p);
    GetsThen(cfg, c, Effect(g, me), Effect(Locked(g', c, Gic), Setting(me, i, h, p, 2)),
             Effect(g', Configured(me, i, p)));
    UnmaskGets(cfg, g', Configured(me, i, p), c);
    GetsThen(cfg, c, Effect(g, me), Effect(g', Configured(me, i, p)),
             Effect(g', Configured(me, i, p).(masked := false)));
  }

  // ---------------------------------------------------------------- a shared handler on any core

  /** Both cores have set interrupt `i` up and unmasked. */
  lemma BothSetUp(cfg: Config, s: State, c: nat, d: nat, i: IntId, h: Handler, p: nat)
    returns (g: Globals, x: Core, y: Core)
    requires ClientInit(cfg, s) && c < cfg.count && d < cfg.count && c != d
    ensures Reaches(cfg, s, c, d, g, x, y) && Choosing(g, x, c) && Choosing(g, y, d)
    ensures !x.masked && !y.masked && x.active == y.active == [] && x == Configured(x, i, p) && y == Configured(y, i, p)
    ensures i in g.tables.shared && g.tables.shared[i] == h && i !in g.tables.priv[c] && i !in g.tables.priv[d]
  {
    ReachesStart(cfg, s, c, d);
    x := Configured(s.cores[c], i, p).(masked := false);
    y := Configured(s.cores[d], i, p).(masked := false);
    var g1 := s.g.(tables := Applied(s.g.tables, c, SetShared(i, h)).value);
    SetupGets(cfg, s.g, s.cores[c], c, i, h, p);
    FirstGets(cfg, s, c, d, s.g, s.cores[c], s.cores[d], g1, x);
    g := g1.(tables := Applied(g1.tables, d, SetShared(i, h)).value);
    SetupGets(cfg, g1, s.cores[d], d, i, h, p);
    SecondGets(cfg, s, c, d, g1, x, s.cores[d], g, y);
  }

  /** Both cores have an SGI pending from the other. */
  lemma BothSignalled(cfg: Config, s: State, c: nat, d: nat, n: nat, h: Handler, p: nat)
    returns (g: Globals, x: Core, y: Core)
    requires ClientInit(cfg, s) && c < cfg.count && d < cfg.count && c != d && n < SGI_COUNT && p < IDLE_PRIORITY
    ensures Reaches(cfg, s, c, d, g, x, y) && Choosing(g, x, c) && Choosing(g, y, d) && !x.masked && !y.masked
    ensures var i := Sgi(n);
            && Deliverable(cfg, g, x, c, i) && Deliverable(cfg, g, y, d, i)
            && i in g.tables.shared && g.tables.shared[i] == h && i !in g.tables.priv[c] && i !in g.tables.priv[d]
  {
    g, x, y := BothSetUp(cfg, s, c, d, Sgi(n), h, p);
    var g1 := Raised(g, c, n);
    RaiseGets(cfg, g, x, c, n);
    FirstGets(cfg, s, c, d, g, x, y, g1, x);
    RaiseGets(cfg, g1, y, d, n);
    SecondGets(cfg, s, c, d, g1, x, y, Raised(g1, d, n), y);
    g := Raised(g1, d, n);
    assert Running(x, []) == IDLE_PRIORITY && Running(y, []) == IDLE_PRIORITY;
  }

  /** On any two cores: one runs a shared handler while the other, interrupted by the same SGI, waits
      for the table to look its handler up. */
  lemma SharedHandlerHeldUp(cfg: Config, s: State, c: nat, d: nat, n: nat, h: Handler, p: nat) returns (t: State)
    requires ClientInit(cfg, s) && c < cfg.count && d < cfg.count && c != d && n < SGI_COUNT && p < IDLE_PRIORITY
    ensures Leads(cfg, s, t) && !Halted(t) && |t.cores| == cfg.count
    ensures t.cores[d].handler == Body(Sgi(n), h, true, 0) && t.cores[c].handler == SeekTable(Sgi(n))
    ensures Sgi(n) in t.g.tables.shared && WaitsFor(cfg, t, c, Table, d)
  {
    var i := Sgi(n);
    var g, x, y := BothSignalled(cfg, s, c, d, n, h, p);
    SecondInterrupted(cfg, s, c, d, g, x, y, i);
    BodyGets(cfg, g, Interrupted(y), d, i);
    var g1, y1 := Locked(Acknowledged(cfg, g, d, i), d, Table), Handles(Interrupted(y), i, Body(i, h, true, 0));
    SecondGets(cfg, s, c, d, g, x, Interrupted(y), g1, y1);
    FirstInterrupted(cfg, s, c, d, g1, x, y1, i);
    SeekGets(cfg, g1, Interrupted(x), c, i);
    var g2, x2 := Acknowledged(cfg, g1, c, i), Handles(Interrupted(x), i, SeekTable(i));
    FirstGets(cfg, s, c, d, g1, Interrupted(x), y1, g2, x2);
    t := Two(s, c, d, g2, x2, y1);
  }

  // ---------------------------------------------------------------- one interrupt in two tables

  lemma SharedCallGets(cfg: Config, g: Globals, me: Core, c: nat, i: IntId, h: Handler)
    requires Choosing(g, me, c) && i !in g.tables.priv[c]
    ensures Gets(cfg, c, Effect(g, me), Effect(g.(tables := Applied(g.tables, c, SetShared(i, h)).value), me))
  {
    var m := me.(call := Busy(SetShared(i, h), 0));
    InvokeGets(cfg, g, me, c, SetShared(i, h));
    SetSharedAlone(cfg, g, m, c, i, h);
    assert m.(call := Idle) == me;
    GetsThen(cfg, c, Effect(g, me), Effect(g, m),
             Effect(g.(tables := Applied(g.tables, c, SetShared(i, h)).value), me));
  }

  lemma PrivateCallGets(cfg: Config, g: Globals, me: Core, c: nat, i: IntId, h: Handler)
    requires Choosing(g, me, c) && i !in g.tables.shared
    ensures Gets(cfg, c, Effect(g, me), Effect(g.(tables := Applied(g.tables, c, SetPrivate(i, h)).value), me))
  {
    var m := me.(call := Busy(SetPrivate(i, h), 0));
    InvokeGets(cfg, g, me, c, SetPrivate(i, h));
    SetPrivateAlone(cfg, g, m, c, i, h);
    assert m.(call := Idle) == me;
    GetsThen(cfg, c, Effect(g, me), Effect(g, m),
             Effect(g.(tables := Applied(g.tables, c, SetPrivate(i, h)).value), me));
  }

  lemma PrivateCheckGets(cfg: Config, g: Globals, me: Core, c: nat, i: IntId, h: Handler)
    requires Choosing(g, me, c) && i !in g.tables.shared
    ensures Gets(cfg, c, Effect(g, me), Effect(g.(tables := Checked(g.tables, c, i)), Masking(me, SetPrivate(i, h), 4)))
  {
    var m := me.(call := Busy(SetPrivate(i, h), 0));
    InvokeGets(cfg, g, me, c, SetPrivate(i, h));
    SetPrivateChecks(cfg, g, m, c, i, h);
    assert Masking(m, SetPrivate(i, h), 4) == Masking(me, SetPrivate(i, h), 4);
    GetsThen(cfg, c, Effect(g, me), Effect(g, m),
             Effect(g.(tables := Checked(g.tables, c, i)), Masking(me, SetPrivate(i, h), 4)));
  }

  /** Two calls one after the other are enough: `set_shared_irq_handler` looks at no private table but
      its own core's. */
  lemma OverlapInSequence(cfg: Config, s: State, c: nat, d: nat, i: IntId, h: Handler, h': Handler) returns (t: State)
    requires ClientInit(cfg, s) && c < cfg.count && d < cfg.count && c != d
    ensures Leads(cfg, s, t) && !Halted(t) && |t.g.tables.priv| == cfg.count && t.cores == s.cores
    ensures i in t.g.tables.shared && i in t.g.tables.priv[c]
  {
    var x, y := s.cores[c], s.cores[d];
    var g1 := s.g.(tables := Applied(s.g.tables, c, SetPrivate(i, h)).value);
    var g2 := g1.(tables := Applied(g1.tables, d, SetShared(i, h')).value);
    ReachesStart(cfg, s, c, d);
    PrivateCallGets(cfg, s.g, x, c, i, h);
    FirstGets(cfg, s, c, d, s.g, x, y, g1, x);
    SharedCallGets(cfg, g1, y, d, i, h');
    SecondGets(cfg, s, c, d, g1, x, y, g2, y);
    t := Two(s, c, d, g2, x, y);
    assert s.cores[c := x][d := y] == s.cores;
  }

  /** With the calls the other way round, an interleaving is: the shared handler is registered after
      `set_private_irq_handler` has looked for one and released the table. */
  lemma RegistrationRace(cfg: Config, s: State, c: nat, d: nat, i: IntId, h: Handler, h': Handler) returns (t: State)
    requires ClientInit(cfg, s) && c < cfg.count && d < cfg.count && c != d
    ensures Leads(cfg, s, t) && !Halted(t) && |t.g.tables.priv| == cfg.count
    ensures i in t.g.tables.shared && i in t.g.tables.priv[c]
  {
    var x, y, m := s.cores[c], s.cores[d], Masking(s.cores[c], SetPrivate(i, h), 4);
    var g1 := s.g.(tables := Checked(s.g.tables, c, i));
    var g2 := g1.(tables := Applied(g1.tables, d, SetShared(i, h')).value);
    ReachesStart(cfg, s, c, d);
    PrivateCheckGets(cfg, s.g, x, c, i, h);
    FirstGets(cfg, s, c, d, s.g, x, y, g1, m);
    SharedCallGets(cfg, g1, y, d, i, h');
    SecondGets(cfg, s, c, d, g1, m, y, g2, y);
    var g3 := InsertionGets(cfg, g2, x, c, i, h);
    FirstGets(cfg, s, c, d, g2, m, y, g3, Masking(x, SetPrivate(i, h), 5));
    t := Two(s, c, d, g3, Masking(x, SetPrivate(i, h), 5), y);
  }

  lemma InsertionGets(cfg: Config, g: Globals, me: Core, c: nat, i: IntId, h: Handler) returns (g': Globals)
    requires Live(g, c) && me.handler.Quiet?
    ensures Gets(cfg, c, Effect(g, Masking(me, SetPrivate(i, h), 4)), Effect(g', Masking(me, SetPrivate(i, h), 5)))
    ensures Live(g', c) && |g'.tables.priv| == |g.tables.priv| && i in g'.tables.priv[c]
            && g'.tables.shared == g.tables.shared
  {
    g' := ExecTable(g, me, c, InsertPrivate(i, h)).g;
    AtAccess(cfg, g, me, c, SetPrivate(i, h), 4, InsertPrivate(i, h), g');
  }
}
