/** Spin locks and exception masking: no run of any programs over any number of cores deadlocks. */
module Locks {
  import opened Machine
  import opened Frames

  // ---------------------------------------------------------------- what each position holds

  predicate PlaceHas(place: Place, l: Lock) {
    match l
    case Stacks => place.Shell? && (place.at.Take? || place.at.FreeStacks?)
    case Gic =>
      || (place.Boot? && 10 <= place.n <= 13)
      || (place.Secondary? && (place.sec == Init(3) || place.sec.Configure?))
      || (place.Client? && place.cl.Setup? && place.cl.n >= 1)
    case _ => false
  }

  predicate CallHas(call: Call, l: Lock) {
    call.Busy? &&
    match l
    case Table =>
      || (call.kind.SetShared? && 3 <= call.at <= 4)
      || ((call.kind.DropShared? || call.kind.SetPrivate?) && 2 <= call.at <= 3)
    case Uart => (call.kind.Log? && call.at == 2) || ((call.kind.Read? || call.kind.Poll?) && 2 <= call.at <= 3)
    case _ => false
  }

  predicate HandlerHas(h: Handling, l: Lock) {
    match l
    case Table => h.SeekShared? || (h.Body? && h.shared) || h.DropTable?
    case Uart => h.Body? && 2 <= h.at <= (if h.h.ConsoleHandler? then 4 else 2)
    case _ => false
  }

  predicate Holds(me: Core, l: Lock) {
    PlaceHas(me.place, l) || CallHas(me.call, l) || HandlerHas(me.handler, l)
  }

  /** The number of `exception_free` calls the thread and the handler are inside. */
  function CallDepth(call: Call): nat { if call.Busy? && call.at > 0 then 1 else 0 }

  function HandlerDepth(h: Handling): nat {
    if h.Quiet? || h.Entered? || h.Acked? || h.Exiting? then 0
    else if h.Body? && 1 <= h.at <= (if h.h.ConsoleHandler? then 5 else 3) then 2
    else 1
  }

  predicate InRange(me: Core) {
    && (me.call.Busy? ==> me.call.at < Length(me.call.kind))
    && (me.handler.Body? ==> me.handler.at < BodyLength(me.handler.h))
  }

  /** What holds of core `c` in every state. */
  ghost predicate LockInv(owner: map<Lock, nat>, me: Core, c: nat) {
    && InRange(me)
    && |me.saved| == CallDepth(me.call) + HandlerDepth(me.handler)
    && (forall j :: 1 <= j < |me.saved| ==> me.saved[j])
    && (|me.saved| > 0 ==> me.masked)
    && (!me.handler.Quiet? ==> me.masked && CallDepth(me.call) == 0 && (|me.saved| > 0 ==> me.saved[0]))
    && forall l :: (l in owner && owner[l] == c) <==> Holds(me, l)
  }

  /** No lock changes hands between cores other than `c`. */
  ghost predicate OthersKeep(owner: map<Lock, nat>, owner': map<Lock, nat>, c: nat) {
    forall l :: (l in owner && owner[l] != c) || (l in owner' && owner'[l] != c) ==>
      l in owner && l in owner' && owner[l] == owner'[l]
  }

  // ---------------------------------------------------------------- five ways to move

  function Depth(me: Core): nat { CallDepth(me.call) + HandlerDepth(me.handler) }

  ghost predicate SameHolds(me: Core, to: Core) { forall l :: Holds(me, l) <==> Holds(to, l) }

  /** `to` holds the same locks as `me`, except `l`. */
  ghost predicate SameBut(me: Core, to: Core, l: Lock) { forall m :: m != l ==> (Holds(me, m) <==> Holds(to, m)) }

  /** Positions `me` and `to` of one core, `to` later: it is still in range, and if it is in the
      handler then so was `me`, with the thread outside `exception_free`. */
  ghost predicate Onward(me: Core, to: Core) {
    && InRange(to)
    && (!to.handler.Quiet? ==> !me.handler.Quiet? && CallDepth(to.call) == 0)
  }

  lemma ByMask(owner: map<Lock, nat>, me: Core, to: Core, c: nat)
    requires LockInv(owner, me, c) && Onward(me, to) && SameHolds(me, to)
    requires to.saved == me.saved + [me.masked] && to.masked && Depth(to) == Depth(me) + 1
    ensures LockInv(owner, to, c)
  {
  }

  lemma ByRestore(owner: map<Lock, nat>, me: Core, to: Core, c: nat)
    requires LockInv(owner, me, c) && Onward(me, to) && SameHolds(me, to)
    requires Depth(me) == Depth(to) + 1
    requires to.saved == me.saved[..|me.saved| - 1] && to.masked == me.saved[|me.saved| - 1]
    ensures LockInv(owner, to, c)
  {
  }

  lemma ByAcquire(owner: map<Lock, nat>, me: Core, to: Core, c: nat, l: Lock)
    requires LockInv(owner, me, c) && Onward(me, to) && SameBut(me, to, l) && Holds(to, l)
    requires to.saved == me.saved && to.masked == me.masked && Depth(to) == Depth(me) && l !in owner
    ensures LockInv(owner[l := c], to, c) && OthersKeep(owner, owner[l := c], c)
  {
  }

  lemma ByRelease(owner: map<Lock, nat>, me: Core, to: Core, c: nat, l: Lock)
    requires LockInv(owner, me, c) && Onward(me, to) && SameBut(me, to, l) && Holds(me, l) && !Holds(to, l)
    requires to.saved == me.saved && to.masked == me.masked && Depth(to) == Depth(me)
    ensures LockInv(owner - {l}, to, c) && OthersKeep(owner, owner - {l}, c)
  {
  }

  lemma ByOther(owner: map<Lock, nat>, me: Core, to: Core, c: nat)
    requires LockInv(owner, me, c) && Onward(me, to) && SameHolds(me, to)
    requires to.saved == me.saved && to.masked == me.masked && Depth(to) == Depth(me)
    ensures LockInv(owner, to, c)
  {
  }

  // ---------------------------------------------------------------- own steps

  /** The positions before and after one instruction fit the instruction. */
  ghost predicate Fits(me: Core, to: Core, x: Instr) {
    && Onward(me, to)
    && if x == Sync(Mask) then SameHolds(me, to) && Depth(to) == Depth(me) + 1
       else if x == Sync(Restore) then SameHolds(me, to) && Depth(me) == Depth(to) + 1
       else if x.Sync? && x.s.Acquire? then SameBut(me, to, x.s.l) && Holds(to, x.s.l) && Depth(to) == Depth(me)
       else if x.Sync? && x.s.Release? then
         SameBut(me, to, x.s.l) && Holds(me, x.s.l) && !Holds(to, x.s.l) && Depth(to) == Depth(me)
       else SameHolds(me, to) && Depth(to) == Depth(me) && (x == Sync(Unmask) ==> Depth(me) == 0 && to.handler.Quiet?)
  }

  lemma SyncKeeps(g: Globals, me: Core, c: nat, x: SyncOp, place: Place, call: Call, handler: Handling)
    requires g.panic.None? && LockInv(g.tables.owner, me, c)
    requires Fits(me, me.(place := place, call := call, handler := handler), Sync(x))
    ensures var r := Moved(ExecSync(g, me, c, x), place, call, handler);
            r.Effect? ==> LockInv(r.g.tables.owner, r.me, c) && OthersKeep(g.tables.owner, r.g.tables.owner, c)
  {
    var r := ExecSync(g, me, c, x);
    if r.Effect? {
      var owner, to := g.tables.owner, r.me.(place := place, call := call, handler := handler);
      match x
      case Mask => ByMask(owner, me, to, c);
      case Restore => ByRestore(owner, me, to, c);
      case Unmask =>
      case Acquire(l) => if r.g.panic.None? { ByAcquire(owner, me, to, c, l); }
      case Release(l) => ByRelease(owner, me, to, c, l);
    }
  }

  /** An instruction that fits its positions keeps the invariant. */
  lemma InstrKeeps(cfg: Config, g: Globals, me: Core, c: nat, x: Instr, place: Place, call: Call, handler: Handling)
    requires c < |g.tables.priv| && g.panic.None? && LockInv(g.tables.owner, me, c)
    requires Fits(me, me.(place := place, call := call, handler := handler), x)
    ensures var r := Moved(ExecInstr(cfg, g, me, c, x), place, call, handler);
            r.Effect? ==> LockInv(r.g.tables.owner, r.me, c) && OthersKeep(g.tables.owner, r.g.tables.owner, c)
  {
    if x.Sync? {
      SyncKeeps(g, me, c, x.s, place, call, handler);
    } else {
      var r := ExecInstr(cfg, g, me, c, x);
      if r.Effect? {
        InstrFrame(cfg, g, me, c, x);
        ByOther(g.tables.owner, me, r.me, c);
        ByOther(g.tables.owner, me, r.me.(place := place, call := call, handler := handler), c);
      }
    }
  }

  lemma CallFits(me: Core)
    requires me.handler.Quiet? && me.call.Busy? && me.call.at < Length(me.call.kind)
    ensures var kind, at := me.call.kind, me.call.at;
            Fits(me, me.(call := if at + 1 < Length(kind) then Busy(kind, at + 1) else Idle), CallInstr(kind, at))
  {
  }

  /** The positions a plan moves between fit what it does. */
  ghost predicate PlanFits(me: Core, plan: Plan) {
    match plan
    case Do(x, next) => Fits(me, me.(place := next), x)
    case Begin(kind, next) => Fits(me, me.(place := next, call := Busy(kind, 0)), Nop)
    case Jump(next) => Fits(me, me.(place := next), Nop)
    case Wait => true
  }

  lemma BootFits(p: Platform, me: Core)
    requires me.handler.Quiet? && me.call.Idle? && me.place.Boot?
    ensures PlanFits(me, BootPlan(p, me.place.n))
  {
  }

  lemma ShellFits(cfg: Config, g: Globals, me: Core, ch: Choice)
    requires me.handler.Quiet? && me.call.Idle? && me.place.Shell?
    ensures PlanFits(me, ShellPlan(cfg, g, me.place.at, ch))
  {
  }

  lemma SecondaryFits(me: Core)
    requires me.handler.Quiet? && me.call.Idle? && me.place.Secondary?
    ensures PlanFits(me, SecondaryPlan(me.place.sec))
  {
  }

  lemma ClientFits(me: Core, ch: Choice)
    requires me.handler.Quiet? && me.call.Idle? && me.place.Client?
    ensures PlanFits(me, ClientPlan(me.place.cl, ch))
  {
  }

  lemma EveryPlanFits(cfg: Config, g: Globals, me: Core, ch: Choice)
    requires me.handler.Quiet? && me.call.Idle?
    ensures PlanFits(me, PlanOf(cfg, g, me.place, ch))
  {
    match me.place
    case Boot(n) => BootFits(cfg.platform, me);
    case Shell(at) => ShellFits(cfg, g, me, ch);
    case Secondary(sec) => SecondaryFits(me);
    case Client(cl) => ClientFits(me, ch);
    case Halt =>
  }

  lemma ThreadKeeps(cfg: Config, g: Globals, me: Core, c: nat, ch: Choice)
    requires c < |g.tables.priv| && g.panic.None? && LockInv(g.tables.owner, me, c) && me.handler.Quiet?
    ensures var r := ThreadStep(cfg, g, me, c, ch);
            r.Effect? ==> LockInv(r.g.tables.owner, r.me, c) && OthersKeep(g.tables.owner, r.g.tables.owner, c)
  {
    if me.call.Busy? {
      var kind, at := me.call.kind, me.call.at;
      CallFits(me);
      InstrKeeps(cfg, g, me, c, CallInstr(kind, at), me.place,
                 if at + 1 < Length(kind) then Busy(kind, at + 1) else Idle, me.handler);
    } else {
      EveryPlanFits(cfg, g, me, ch);
      match PlanOf(cfg, g, me.place, ch)
      case Do(x, next) => InstrKeeps(cfg, g, me, c, x, next, Idle, me.handler);
      case Begin(kind, next) => ByOther(g.tables.owner, me, me.(place := next, call := Busy(kind, 0)), c);
      case Jump(next) => ByOther(g.tables.owner, me, me.(place := next), c);
      case Wait =>
    }
  }

  lemma BodyFits(p: Platform, me: Core)
    requires me.handler.Body? && me.handler.at < BodyLength(me.handler.h) && CallDepth(me.call) == 0
    requires me.call.Busy? ==> me.call.at < Length(me.call.kind)
    ensures var Body(i, h, shared, at) := me.handler;
            Fits(me, me.(handler := if at + 1 < BodyLength(h) then Body(i, h, shared, at + 1)
                                    else if shared then DropTable else Leaving),
                 BodyInstr(p, h, i, at))
  {
  }

  lemma SeekKeeps(cfg: Config, g: Globals, me: Core, c: nat, ch: Choice)
    requires c < |g.tables.priv| && g.panic.None? && LockInv(g.tables.owner, me, c)
    requires me.handler.Entered? || me.handler.SeekPrivate? || me.handler.SeekShared? || me.handler.Exiting?
    ensures var r := HandlerStep(cfg, g, me, c, ch);
            r.Effect? ==> r.g.tables.owner == g.tables.owner && LockInv(g.tables.owner, r.me, c)
  {
    var r := HandlerStep(cfg, g, me, c, ch);
    if r.Effect? && r.g.panic.None? && !me.handler.Exiting? { ByOther(g.tables.owner, me, r.me, c); }
  }

  lemma SeekSyncKeeps(cfg: Config, g: Globals, me: Core, c: nat, ch: Choice)
    requires c < |g.tables.priv| && g.panic.None? && LockInv(g.tables.owner, me, c)
    requires me.handler.Acked? || me.handler.SeekTable? || me.handler.DropTable? || me.handler.Leaving?
    ensures var r := HandlerStep(cfg, g, me, c, ch);
            r.Effect? ==> LockInv(r.g.tables.owner, r.me, c) && OthersKeep(g.tables.owner, r.g.tables.owner, c)
  {
    match me.handler
    case Acked(i) => SyncKeeps(g, me, c, Mask, me.place, me.call, SeekPrivate(i));
    case SeekTable(i) => SyncKeeps(g, me, c, Acquire(Table), me.place, me.call, SeekShared(i));
    case DropTable => SyncKeeps(g, me, c, Release(Table), me.place, me.call, Leaving);
    case Leaving => SyncKeeps(g, me, c, Restore, me.place, me.call, Exiting);
  }

  lemma BodyKeeps(cfg: Config, g: Globals, me: Core, c: nat, ch: Choice)
    requires c < |g.tables.priv| && g.panic.None? && LockInv(g.tables.owner, me, c) && me.handler.Body?
    ensures var r := HandlerStep(cfg, g, me, c, ch);
            r.Effect? ==> LockInv(r.g.tables.owner, r.me, c) && OthersKeep(g.tables.owner, r.g.tables.owner, c)
  {
    var Body(i, h, shared, at) := me.handler;
    BodyFits(cfg.platform, me);
    InstrKeeps(cfg, g, me, c, BodyInstr(cfg.platform, h, i, at), me.place, me.call,
               if at + 1 < BodyLength(h) then Body(i, h, shared, at + 1) else if shared then DropTable else Leaving);
  }

  lemma HandlerKeeps(cfg: Config, g: Globals, me: Core, c: nat, ch: Choice)
    requires c < |g.tables.priv| && g.panic.None? && LockInv(g.tables.owner, me, c) && !me.handler.Quiet?
    ensures var r := HandlerStep(cfg, g, me, c, ch);
            r.Effect? ==> LockInv(r.g.tables.owner, r.me, c) && OthersKeep(g.tables.owner, r.g.tables.owner, c)
  {
    if me.handler.Body? {
      BodyKeeps(cfg, g, me, c, ch);
    } else if me.handler.Acked? || me.handler.SeekTable? || me.handler.DropTable? || me.handler.Leaving? {
      SeekSyncKeeps(cfg, g, me, c, ch);
    } else {
      SeekKeeps(cfg, g, me, c, ch);
    }
  }

  // ---------------------------------------------------------------- every state of every run

  ghost predicate AllLocks(cfg: Config, s: State) {
    && Shaped(cfg, s)
    && (forall l :: l in s.g.tables.owner ==> s.g.tables.owner[l] < cfg.count)
    && forall c :: 0 <= c < cfg.count ==>
         LockInv(s.g.tables.owner, s.cores[c], c) && (!s.g.cpus.power[c].On? ==> Parked(s.cores[c]))
  }

  predicate Parked(me: Core) { me.place.Halt? && me.call.Idle? && me.handler.Quiet? && me.saved == [] }

  /** Another core's step keeps the invariant of this one. */
  lemma FrameKeeps(owner: map<Lock, nat>, owner': map<Lock, nat>, me: Core, c: nat, d: nat)
    requires LockInv(owner, me, d) && OthersKeep(owner, owner', c) && c != d
    ensures LockInv(owner', me, d)
  {
  }

  lemma StepKeepsLocks(cfg: Config, s: State, e: Event)
    requires AllLocks(cfg, s) && Step(cfg, s, e).Some?
    ensures AllLocks(cfg, Step(cfg, s, e).value)
  {
    StepShaped(cfg, s, e);
    match e
    case Run(c, ch) => RunKeepsLocks(cfg, s, c, ch);
    case Interrupt(c) =>
    case ByteIn(b) =>
    case Match =>
    case Line(c, n) =>
    case PowerUp(c) =>
  }

  /** The core that runs keeps its invariant, keeps out of the other cores' locks, and only leaves
      `On` by parking. */
  lemma ExecKeeps(cfg: Config, g: Globals, me: Core, c: nat, ch: Choice)
    requires c < |g.tables.priv| && c < |g.cpus.power| && g.panic.None? && LockInv(g.tables.owner, me, c)
    ensures var r := Exec(cfg, g, me, c, ch);
            r.Effect? ==>
              && LockInv(r.g.tables.owner, r.me, c) && OthersKeep(g.tables.owner, r.g.tables.owner, c)
              && |r.g.cpus.power| == |g.cpus.power|
              && forall d :: 0 <= d < |g.cpus.power| && !r.g.cpus.power[d].On? ==>
                   !g.cpus.power[d].On? || (d == c && Parked(r.me))
  {
    if me.handler.Quiet? {
      ThreadKeeps(cfg, g, me, c, ch);
      ThreadPower(cfg, g, me, c, ch);
    } else {
      HandlerKeeps(cfg, g, me, c, ch);
      HandlerPower(cfg, g, me, c, ch);
    }
  }

  lemma RunKeepsLocks(cfg: Config, s: State, c: nat, ch: Choice)
    requires AllLocks(cfg, s) && Step(cfg, s, Run(c, ch)).Some?
    ensures AllLocks(cfg, Step(cfg, s, Run(c, ch)).value)
  {
    StepShaped(cfg, s, Run(c, ch));
    ExecKeeps(cfg, s.g, s.cores[c], c, ch);
    var s' := Step(cfg, s, Run(c, ch)).value;
    forall d | 0 <= d < cfg.count && d != c ensures LockInv(s'.g.tables.owner, s'.cores[d], d) {
      FrameKeeps(s.g.tables.owner, s'.g.tables.owner, s.cores[d], c, d);
    }
  }

  lemma CpuPower(g: Globals, me: Core, c: nat, x: CpuOp, d: nat)
    requires d < |g.cpus.power|
    ensures var r := ExecCpu(g, me, c, x);
            r.Effect? ==> && |r.g.cpus.power| == |g.cpus.power|
                          && (!r.g.cpus.power[d].On? ==> !g.cpus.power[d].On? || (x.PowerOff? && c == d))
  {
  }

  lemma ThreadPower(cfg: Config, g: Globals, me: Core, c: nat, ch: Choice)
    requires c < |g.tables.priv| && c < |g.cpus.power| && g.panic.None?
    ensures var r := ThreadStep(cfg, g, me, c, ch);
            r.Effect? ==>
              && |r.g.cpus.power| == |g.cpus.power|
              && forall d :: 0 <= d < |g.cpus.power| && !r.g.cpus.power[d].On? ==>
                   !g.cpus.power[d].On? || (d == c && r.me == me.(place := Halt, call := Idle))
  {
    if me.call.Busy? {
      CallGroup(me.call.kind, me.call.at);
      InstrFrame(cfg, g, me, c, CallInstr(me.call.kind, me.call.at));
    } else {
      var plan := PlanOf(cfg, g, me.place, ch);
      if plan.Do? {
        InstrFrame(cfg, g, me, c, plan.x);
        if plan.x.Cpu? {
          forall d | 0 <= d < |g.cpus.power| { CpuPower(g, me, c, plan.x.p, d); }
          CpuFrame(g, me, c, plan.x.p);
        }
      }
    }
  }

  lemma HandlerPower(cfg: Config, g: Globals, me: Core, c: nat, ch: Choice)
    requires c < |g.tables.priv|
    ensures var r := HandlerStep(cfg, g, me, c, ch); r.Effect? ==> r.g.cpus == g.cpus
  {
    if me.handler.Body? {
      BodyGroup(cfg.platform, me.handler.h, me.handler.i, me.handler.at);
      InstrFrame(cfg, g, me, c, BodyInstr(cfg.platform, me.handler.h, me.handler.i, me.handler.at));
    }
  }

  lemma {:induction false} LocksAlways(cfg: Config, s: State, es: seq<Event>)
    requires KernelInit(cfg, s) || ClientInit(cfg, s)
    requires After(cfg, s, es).Some?
    ensures AllLocks(cfg, After(cfg, s, es).value)
    decreases |es|
  {
    if es != [] {
      LocksAlways(cfg, s, es[..|es| - 1]);
      StepKeepsLocks(cfg, After(cfg, s, es[..|es| - 1]).value, es[|es| - 1]);
    }
  }

  // ---------------------------------------------------------------- no deadlock

  /** The next thing core `me` does is to acquire `l`. */
  predicate Wants(cfg: Config, g: Globals, me: Core, l: Lock) {
    var plan := PlanOf(cfg, g, me.place, Go);
    if me.handler.SeekTable? then l == Table
    else if me.handler.Body? then BodyInstr(cfg.platform, me.handler.h, me.handler.i, me.handler.at) == Sync(Acquire(l))
    else if !me.handler.Quiet? then false
    else if me.call.Busy? then CallInstr(me.call.kind, me.call.at) == Sync(Acquire(l))
    else plan.Do? && plan.x == Sync(Acquire(l))
  }

  /** Core `c` spins on lock `l`, which core `d` holds. */
  predicate WaitsFor(cfg: Config, s: State, c: nat, l: Lock, d: nat)
    requires |s.cores| == cfg.count && c < cfg.count
  {
    Wants(cfg, s.g, s.cores[c], l) && l in s.g.tables.owner && s.g.tables.owner[l] == d
  }

  /** Locks are only asked for in rising order. */
  lemma WantsAbove(cfg: Config, g: Globals, me: Core, c: nat, l: Lock, m: Lock)
    requires LockInv(g.tables.owner, me, c) && Wants(cfg, g, me, l) && Holds(me, m)
    ensures Rank(m) < Rank(l)
  {
  }

  /** An instruction other than a taken lock, an unmatched restore or a wait can always run. */
  lemma InstrMoves(cfg: Config, g: Globals, me: Core, c: nat, x: Instr)
    requires c < |g.tables.priv|
    requires x.Sync? && x.s.Acquire? ==> x.s.l !in g.tables.owner
    requires x == Sync(Restore) ==> me.saved != []
    requires x != Irq(AwaitTaken) && (x.Cpu? ==> x.p.TakeStack?)
    ensures ExecInstr(cfg, g, me, c, x).Effect?
  {
  }

  lemma ThreadHolderMoves(cfg: Config, g: Globals, me: Core, c: nat, l: Lock)
    requires c < |g.tables.priv| && LockInv(g.tables.owner, me, c) && Holds(me, l) && me.handler.Quiet?
    requires forall m :: Wants(cfg, g, me, m) ==> m !in g.tables.owner
    ensures Exec(cfg, g, me, c, Go).Effect?
  {
    if me.call.Busy? {
      var x := CallInstr(me.call.kind, me.call.at);
      CallGroup(me.call.kind, me.call.at);
      assert x.Sync? && x.s.Acquire? ==> Wants(cfg, g, me, x.s.l);
      assert x == Sync(Restore) ==> me.saved != [];
      InstrMoves(cfg, g, me, c, x);
    } else {
      assert PlaceHas(me.place, l);
      var plan := PlanOf(cfg, g, me.place, Go);
      if plan.Do? {
        assert plan.x.Sync? && plan.x.s.Acquire? ==> Wants(cfg, g, me, plan.x.s.l);
        InstrMoves(cfg, g, me, c, plan.x);
      }
    }
  }

  lemma HandlerHolderMoves(cfg: Config, g: Globals, me: Core, c: nat)
    requires c < |g.tables.priv| && LockInv(g.tables.owner, me, c) && !me.handler.Quiet?
    requires forall m :: Wants(cfg, g, me, m) ==> m !in g.tables.owner
    ensures exists ch :: Exec(cfg, g, me, c, ch).Effect?
  {
    if me.handler.Entered? {
      if Signalled(cfg, g, me, c) {
        var i :| Deliverable(cfg, g, me, c, i);
        assert Exec(cfg, g, me, c, Pick(i)).Effect?;
      } else {
        assert Exec(cfg, g, me, c, Spurious).Effect?;
      }
    } else if me.handler.Body? {
      var x := BodyInstr(cfg.platform, me.handler.h, me.handler.i, me.handler.at);
      BodyGroup(cfg.platform, me.handler.h, me.handler.i, me.handler.at);
      assert x.Sync? && x.s.Acquire? ==> Wants(cfg, g, me, x.s.l);
      assert x == Sync(Restore) ==> me.saved != [];
      InstrMoves(cfg, g, me, c, x);
      assert Exec(cfg, g, me, c, Go).Effect?;
    } else {
      assert me.handler.SeekTable? ==> Wants(cfg, g, me, Table);
      assert Exec(cfg, g, me, c, Go).Effect?;
    }
  }

  /** No core ever waits for a lock that it holds itself, and a core that is waited for waits only for
      locks of higher rank. */
  lemma WaitsRise(cfg: Config, s: State, es: seq<Event>, c: nat, l: Lock, d: nat)
    requires KernelInit(cfg, s) || ClientInit(cfg, s)
    requires After(cfg, s, es).Some? && c < cfg.count
    requires WaitsFor(cfg, After(cfg, s, es).value, c, l, d)
    ensures d != c && d < cfg.count
    ensures forall m, e :: WaitsFor(cfg, After(cfg, s, es).value, d, m, e) ==> Rank(l) < Rank(m)
  {
    LocksAlways(cfg, s, es);
    var t := After(cfg, s, es).value;
    if d == c { WantsAbove(cfg, t.g, t.cores[c], c, l, l); }
    forall m, e | WaitsFor(cfg, t, d, m, e) ensures Rank(l) < Rank(m) {
      WantsAbove(cfg, t.g, t.cores[d], d, m, l);
    }
  }

  ghost predicate Waits(cfg: Config, s: State, c: nat, d: nat)
    requires |s.cores| == cfg.count && c < cfg.count
  {
    exists l :: WaitsFor(cfg, s, c, l, d)
  }

  /** Each core of the chain waits for a lock that the next one holds. */
  ghost predicate WaitChain(cfg: Config, s: State, chain: seq<nat>)
    requires |s.cores| == cfg.count
  {
    && (forall k :: 0 <= k < |chain| ==> chain[k] < cfg.count)
    && forall j, k :: 0 <= j && k == j + 1 && k < |chain| ==> Waits(cfg, s, chain[j], chain[k])
  }

  /** The last core of a chain holds a lock of at least the rank that the first one waits for. */
  lemma {:induction false} ChainRises(cfg: Config, s: State, chain: seq<nat>, l: Lock) returns (m: Lock)
    requires AllLocks(cfg, s) && |chain| >= 2 && WaitChain(cfg, s, chain) && WaitsFor(cfg, s, chain[0], l, chain[1])
    ensures Holds(s.cores[chain[|chain| - 1]], m) && Rank(l) <= Rank(m)
    decreases |chain|
  {
    if |chain| == 2 {
      m := l;
    } else {
      var rest := chain[1..];
      assert Waits(cfg, s, chain[1], chain[2]);
      var n :| WaitsFor(cfg, s, chain[1], n, chain[2]);
      WantsAbove(cfg, s.g, s.cores[chain[1]], chain[1], n, l);
      m := ChainRises(cfg, s, rest, n);
    }
  }

  /** In every run the waits-for graph has no cycle: no chain of waiting cores comes back to where it
      started. */
  lemma NoWaitCycle(cfg: Config, s: State, es: seq<Event>, chain: seq<nat>)
    requires KernelInit(cfg, s) || ClientInit(cfg, s)
    requires After(cfg, s, es).Some? && |chain| >= 2 && WaitChain(cfg, After(cfg, s, es).value, chain)
    ensures chain[0] != chain[|chain| - 1]
  {
    LocksAlways(cfg, s, es);
    var t := After(cfg, s, es).value;
    assert Waits(cfg, t, chain[0], chain[1]);
    var l :| WaitsFor(cfg, t, chain[0], l, chain[1]);
    var m := ChainRises(cfg, t, chain, l);
    if chain[0] == chain[|chain| - 1] { WantsAbove(cfg, t.g, t.cores[chain[0]], chain[0], l, m); }
  }

  ghost predicate CanRun(cfg: Config, s: State, c: nat)
    requires Shaped(cfg, s)
  {
    exists ch :: Step(cfg, s, Run(c, ch)).Some?
  }

  /** A holder that does not itself spin can make a step. */
  lemma HolderRuns(cfg: Config, s: State, d: nat, l: Lock)
    requires AllLocks(cfg, s) && !Halted(s) && d < cfg.count && Holds(s.cores[d], l)
    requires forall m :: Wants(cfg, s.g, s.cores[d], m) ==> m !in s.g.tables.owner
    ensures CanRun(cfg, s, d)
  {
    if s.cores[d].handler.Quiet? {
      ThreadHolderMoves(cfg, s.g, s.cores[d], d, l);
      assert Step(cfg, s, Run(d, Go)).Some?;
    } else {
      HandlerHolderMoves(cfg, s.g, s.cores[d], d);
      var ch :| Exec(cfg, s.g, s.cores[d], d, ch).Effect?;
      assert Step(cfg, s, Run(d, ch)).Some?;
    }
  }

  /** Whenever a core spins on a lock, the chain of holders ends in one that can make a step. */
  lemma {:induction false} SomeHolderRuns(cfg: Config, s: State, c: nat, l: Lock) returns (d: nat, m: Lock)
    requires AllLocks(cfg, s) && !Halted(s) && c < cfg.count
    requires Wants(cfg, s.g, s.cores[c], l) && l in s.g.tables.owner
    ensures d < cfg.count && Holds(s.cores[d], m) && CanRun(cfg, s, d)
    decreases 4 - Rank(l)
  {
    d, m := s.g.tables.owner[l], l;
    if n :| Wants(cfg, s.g, s.cores[d], n) && n in s.g.tables.owner {
      WantsAbove(cfg, s.g, s.cores[d], d, n, l);
      d, m := SomeHolderRuns(cfg, s, d, n);
    } else {
      HolderRuns(cfg, s, d, l);
    }
  }

  /** No run deadlocks: while any core spins on a lock, some core that holds a lock can run. */
  lemma DeadlockFree(cfg: Config, s: State, es: seq<Event>, c: nat, l: Lock, d: nat)
    requires KernelInit(cfg, s) || ClientInit(cfg, s)
    requires After(cfg, s, es).Some? && !Halted(After(cfg, s, es).value) && c < cfg.count
    requires WaitsFor(cfg, After(cfg, s, es).value, c, l, d)
    ensures exists e, m ::
              && 0 <= e < cfg.count && Holds(After(cfg, s, es).value.cores[e], m)
              && CanRun(cfg, After(cfg, s, es).value, e)
  {
    LocksAlways(cfg, s, es);
    var e, m := SomeHolderRuns(cfg, After(cfg, s, es).value, c, l);
  }
}
