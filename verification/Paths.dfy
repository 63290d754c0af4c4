/** Building runs: what one core can do by itself, and what a whole system can get to. */
module Paths {
  import opened Wrappers
  import opened Machine
  import opened Frames
  import opened Dispatch

  // ---------------------------------------------------------------- one core

  /** A step of core `c` takes `a` to `b`. */
  ghost predicate Goes(cfg: Config, c: nat, a: Effect, b: Effect) {
    && a.Effect? && b.Effect? && Live(a.g, c)
    && exists ch :: Exec(cfg, a.g, a.me, c, ch) == b
  }

  /** The system has not stopped and core `c` is on. */
  predicate Live(g: Globals, c: nat) {
    c < |g.tables.priv| && g.panic.None? && !g.off && c < |g.cpus.power| && g.cpus.power[c].On?
  }

  ghost predicate Path(cfg: Config, c: nat, p: seq<Effect>) {
    |p| > 0 && forall k :: 0 <= k < |p| - 1 ==> Goes(cfg, c, p[k], p[k + 1])
  }

  /** Core `c` by itself can get from `a` to `b`. */
  ghost predicate Gets(cfg: Config, c: nat, a: Effect, b: Effect) {
    exists p :: Path(cfg, c, p) && p[0] == a && p[|p| - 1] == b
  }

  lemma GetsStep(cfg: Config, c: nat, a: Effect, ch: Choice, b: Effect)
    requires a.Effect? && b.Effect? && Live(a.g, c) && Exec(cfg, a.g, a.me, c, ch) == b
    ensures Gets(cfg, c, a, b)
  {
    var p := [a, b];
    assert Goes(cfg, c, p[0], p[1]);
    assert Path(cfg, c, p) && p[0] == a && p[|p| - 1] == b;
  }

  lemma GetsSelf(cfg: Config, c: nat, a: Effect)
    ensures Gets(cfg, c, a, a)
  {
    var p := [a];
    assert Path(cfg, c, p) && p[0] == a && p[|p| - 1] == a;
  }

  lemma PathThen(cfg: Config, c: nat, p: seq<Effect>, q: seq<Effect>)
    requires Path(cfg, c, p) && Path(cfg, c, q) && p[|p| - 1] == q[0]
    ensures Path(cfg, c, p + q[1..])
  {
    var r := p + q[1..];
    forall k | 0 <= k < |r| - 1 ensures Goes(cfg, c, r[k], r[k + 1]) {
      if k < |p| - 1 {
        assert r[k] == p[k] && r[k + 1] == p[k + 1];
      } else {
        var j := k - (|p| - 1);
        assert r[k] == q[j] && r[k + 1] == q[j + 1];
      }
    }
  }

  lemma GetsThen(cfg: Config, c: nat, a: Effect, b: Effect, d: Effect)
    requires Gets(cfg, c, a, b) && Gets(cfg, c, b, d)
    ensures Gets(cfg, c, a, d)
  {
    var p :| Path(cfg, c, p) && p[0] == a && p[|p| - 1] == b;
    var q :| Path(cfg, c, q) && q[0] == b && q[|q| - 1] == d;
    PathThen(cfg, c, p, q);
    var r := p + q[1..];
    assert r[0] == a && r[|r| - 1] == d;
  }

  // ---------------------------------------------------------------- the system

  /** Some sequence of events takes `s` to `t`. */
  ghost predicate Leads(cfg: Config, s: State, t: State)
    requires Shaped(cfg, s)
  {
    exists es :: After(cfg, s, es) == Some(t)
  }

  lemma LeadsSelf(cfg: Config, s: State)
    requires Shaped(cfg, s)
    ensures Leads(cfg, s, s)
  {
    assert After(cfg, s, []) == Some(s);
  }

  lemma LeadsThen(cfg: Config, s: State, t: State, u: State)
    requires Shaped(cfg, s) && Leads(cfg, s, t) && Shaped(cfg, t) && Leads(cfg, t, u)
    ensures Leads(cfg, s, u) && Shaped(cfg, u)
  {
    var es :| After(cfg, s, es) == Some(t);
    var fs :| After(cfg, t, fs) == Some(u);
    AfterConcat(cfg, s, es, fs);
    assert After(cfg, s, es + fs) == Some(u);
  }

  lemma LeadsStep(cfg: Config, s: State, t: State, e: Event)
    requires Shaped(cfg, s) && Leads(cfg, s, t) && Shaped(cfg, t) && Step(cfg, t, e).Some?
    ensures Leads(cfg, s, Step(cfg, t, e).value) && Shaped(cfg, Step(cfg, t, e).value)
  {
    var es :| After(cfg, s, es) == Some(t);
    assert (es + [e])[..|es|] == es;
    StepShaped(cfg, t, e);
    assert After(cfg, s, es + [e]) == Step(cfg, t, e);
  }

  /** The system with core `c` and the globals replaced. */
  function With(s: State, c: nat, e: Effect): State
    requires e.Effect? && c < |s.cores|
  {
    State(e.g, s.cores[c := e.me])
  }

  lemma GoesLeads(cfg: Config, s: State, t: State, c: nat, a: Effect, b: Effect)
    requires Shaped(cfg, s) && c < cfg.count && |t.cores| == cfg.count && Goes(cfg, c, a, b)
    requires Shaped(cfg, With(t, c, a)) && Leads(cfg, s, With(t, c, a))
    ensures Shaped(cfg, With(t, c, b)) && Leads(cfg, s, With(t, c, b))
  {
    var ch :| Exec(cfg, a.g, a.me, c, ch) == b;
    LeadsStep(cfg, s, With(t, c, a), Run(c, ch));
    assert t.cores[c := a.me][c := b.me] == t.cores[c := b.me];
  }

  lemma PathInit(cfg: Config, c: nat, p: seq<Effect>)
    requires Path(cfg, c, p) && |p| > 1
    ensures Path(cfg, c, p[..|p| - 1]) && Goes(cfg, c, p[|p| - 2], p[|p| - 1])
  {
    var q := p[..|p| - 1];
    forall k | 0 <= k < |q| - 1 ensures Goes(cfg, c, q[k], q[k + 1]) {
      assert Goes(cfg, c, p[k], p[k + 1]);
    }
    assert Goes(cfg, c, p[|p| - 2], p[|p| - 2 + 1]);
  }

  lemma {:induction false} PathLeads(cfg: Config, s: State, c: nat, p: seq<Effect>)
    requires Shaped(cfg, s) && c < cfg.count && Path(cfg, c, p) && p[0] == Effect(s.g, s.cores[c])
    ensures p[|p| - 1].Effect? && Shaped(cfg, With(s, c, p[|p| - 1])) && Leads(cfg, s, With(s, c, p[|p| - 1]))
    decreases |p|
  {
    if |p| == 1 {
      LeadsSelf(cfg, s);
      assert With(s, c, p[0]) == s;
    } else {
      PathInit(cfg, c, p);
      PathLeads(cfg, s, c, p[..|p| - 1]);
      GoesLeads(cfg, s, s, c, p[|p| - 2], p[|p| - 1]);
    }
  }

  /** What a core can do by itself, it can do in any system. */
  lemma GetsLeads(cfg: Config, s: State, t: State, c: nat, e: Effect)
    requires Shaped(cfg, s) && Leads(cfg, s, t) && Shaped(cfg, t) && c < cfg.count
    requires Gets(cfg, c, Effect(t.g, t.cores[c]), e)
    ensures e.Effect? && Shaped(cfg, With(t, c, e)) && Leads(cfg, s, With(t, c, e))
  {
    var p :| Path(cfg, c, p) && p[0] == Effect(t.g, t.cores[c]) && p[|p| - 1] == e;
    PathLeads(cfg, t, c, p);
    LeadsThen(cfg, s, t, With(t, c, e));
  }

  // ---------------------------------------------------------------- steps of a thread

  predicate Idling(g: Globals, me: Core, c: nat) { Live(g, c) && me.handler.Quiet? && me.call.Idle? }

  lemma DoGets(cfg: Config, g: Globals, me: Core, c: nat, ch: Choice, x: Instr, next: Place, g': Globals, me': Core)
    requires Idling(g, me, c) && PlanOf(cfg, g, me.place, ch) == Do(x, next)
    requires ExecInstr(cfg, g, me, c, x) == Effect(g', me') && g'.panic.None?
    ensures Gets(cfg, c, Effect(g, me), Effect(g', me'.(place := next)))
  {
    InstrFrame(cfg, g, me, c, x);
    GetsStep(cfg, c, Effect(g, me), ch, Effect(g', me'.(place := next)));
  }

  lemma JumpGets(cfg: Config, g: Globals, me: Core, c: nat, ch: Choice, next: Place)
    requires Idling(g, me, c) && PlanOf(cfg, g, me.place, ch) == Jump(next)
    ensures Gets(cfg, c, Effect(g, me), Effect(g, me.(place := next)))
  {
    GetsStep(cfg, c, Effect(g, me), ch, Effect(g, me.(place := next)));
  }

  lemma BeginGets(cfg: Config, g: Globals, me: Core, c: nat, ch: Choice, kind: CallKind, next: Place)
    requires Idling(g, me, c) && PlanOf(cfg, g, me.place, ch) == Begin(kind, next)
    ensures Gets(cfg, c, Effect(g, me), Effect(g, me.(place := next, call := Busy(kind, 0))))
  {
    GetsStep(cfg, c, Effect(g, me), ch, Effect(g, me.(place := next, call := Busy(kind, 0))));
  }

  // ---------------------------------------------------------------- whole calls

  /** Core `me` is about to make a call. */
  predicate Calling(g: Globals, me: Core, c: nat, kind: CallKind) {
    Live(g, c) && me.handler.Quiet? && me.call == Busy(kind, 0)
  }

  /** Core `me` at position `at` of the call, with interrupts masked. */
  function Masking(me: Core, kind: CallKind, at: nat): Core {
    me.(saved := me.saved + [me.masked], masked := true, call := Busy(kind, at))
  }

  function Locked(g: Globals, c: nat, l: Lock): Globals { g.(tables := g.tables.(owner := g.tables.owner[l := c])) }

  predicate MidCall(g: Globals, me: Core, c: nat, kind: CallKind, at: nat) {
    Live(g, c) && me.handler.Quiet? && at + 1 < Length(kind)
  }

  lemma AtMask(cfg: Config, g: Globals, me: Core, c: nat, kind: CallKind)
    requires Calling(g, me, c, kind)
    ensures Gets(cfg, c, Effect(g, me), Effect(g, Masking(me, kind, 1)))
  {
    GetsStep(cfg, c, Effect(g, me), Go, Effect(g, Masking(me, kind, 1)));
  }

  lemma AtAcquire(cfg: Config, g: Globals, me: Core, c: nat, kind: CallKind, at: nat, l: Lock)
    requires MidCall(g, me, c, kind, at) && CallInstr(kind, at) == Sync(Acquire(l)) && l !in g.tables.owner && l != Gic
    ensures Gets(cfg, c, Effect(g, Masking(me, kind, at)), Effect(Locked(g, c, l), Masking(me, kind, at + 1)))
  {
    GetsStep(cfg, c, Effect(g, Masking(me, kind, at)), Go, Effect(Locked(g, c, l), Masking(me, kind, at + 1)));
  }

  lemma Unlocked(g: Globals, c: nat, l: Lock)
    requires l !in g.tables.owner
    ensures Locked(g, c, l).(tables := Locked(g, c, l).tables.(owner := Locked(g, c, l).tables.owner - {l})) == g
  {
    assert Locked(g, c, l).tables.owner - {l} == g.tables.owner;
  }

  lemma AtRelease(cfg: Config, g: Globals, me: Core, c: nat, kind: CallKind, at: nat, l: Lock)
    requires MidCall(g, me, c, kind, at) && CallInstr(kind, at) == Sync(Release(l)) && l !in g.tables.owner
    ensures Gets(cfg, c, Effect(Locked(g, c, l), Masking(me, kind, at)), Effect(g, Masking(me, kind, at + 1)))
  {
    Unlocked(g, c, l);
    GetsStep(cfg, c, Effect(Locked(g, c, l), Masking(me, kind, at)), Go, Effect(g, Masking(me, kind, at + 1)));
  }

  lemma AtAccess(cfg: Config, g: Globals, me: Core, c: nat, kind: CallKind, at: nat, x: TableOp, g': Globals)
    requires MidCall(g, me, c, kind, at) && CallInstr(kind, at) == Tab(x)
    requires ExecTable(g, me, c, x).g == g' && g'.panic.None?
    ensures Gets(cfg, c, Effect(g, Masking(me, kind, at)), Effect(g', Masking(me, kind, at + 1)))
  {
    TableFrame(g, me, c, x);
    TableFrame(g, Masking(me, kind, at), c, x);
    GetsStep(cfg, c, Effect(g, Masking(me, kind, at)), Go, Effect(g', Masking(me, kind, at + 1)));
  }

  lemma AtRestore(cfg: Config, g: Globals, me: Core, c: nat, kind: CallKind, at: nat)
    requires Live(g, c) && me.handler.Quiet? && at + 1 == Length(kind) && CallInstr(kind, at) == Sync(Restore)
    ensures Gets(cfg, c, Effect(g, Masking(me, kind, at)), Effect(g, me.(call := Idle)))
  {
    var m := Masking(me, kind, at);
    assert m.saved[..|m.saved| - 1] == me.saved;
    GetsStep(cfg, c, Effect(g, m), Go, Effect(g, me.(call := Idle)));
  }

  /** A message takes the console lock and gives it back. */
  lemma LogGets(cfg: Config, g: Globals, me: Core, c: nat)
    requires Calling(g, me, c, Log) && Uart !in g.tables.owner
    ensures Gets(cfg, c, Effect(g, me), Effect(g, me.(call := Idle)))
  {
    AtMask(cfg, g, me, c, Log);
    AtAcquire(cfg, g, me, c, Log, 1, Uart);
    GetsThen(cfg, c, Effect(g, me), Effect(g, Masking(me, Log, 1)), Effect(Locked(g, c, Uart), Masking(me, Log, 2)));
    AtRelease(cfg, g, me, c, Log, 2, Uart);
    GetsThen(cfg, c, Effect(g, me), Effect(Locked(g, c, Uart), Masking(me, Log, 2)), Effect(g, Masking(me, Log, 3)));
    AtRestore(cfg, g, me, c, Log, 3);
    GetsThen(cfg, c, Effect(g, me), Effect(g, Masking(me, Log, 3)), Effect(g, me.(call := Idle)));
  }

  lemma BeginLogGets(cfg: Config, g: Globals, me: Core, c: nat, ch: Choice, next: Place)
    requires Idling(g, me, c) && PlanOf(cfg, g, me.place, ch) == Begin(Log, next) && Uart !in g.tables.owner
    ensures Gets(cfg, c, Effect(g, me), Effect(g, me.(place := next)))
  {
    var m := me.(place := next, call := Busy(Log, 0));
    BeginGets(cfg, g, me, c, ch, Log, next);
    LogGets(cfg, g, m, c);
    assert m.(call := Idle) == me.(place := next);
    GetsThen(cfg, c, Effect(g, me), Effect(g, m), Effect(g, me.(place := next)));
  }
}
