/** The multi-core kernel as a step system.

    A core runs a thread and, while it handles an interrupt, a handler.  The thread is somewhere
    in its main program (`place`) and possibly inside one call of the console or interrupt API
    (`call`); the handler is somewhere in `handle_irq` (`handler`).  One event lets one core make
    one step, delivers an interrupt to a core, or changes a device.  Nothing is assumed about the
    order of events. */
module Machine {

  import opened Wrappers

  datatype Platform = Qemu | Crosvm

  datatype IntId = Sgi(n: nat) | Spi(n: nat)

  const SGI_COUNT: nat := 16
  const CONSOLE_PRIORITY: nat := 0x10
  const ALARM_PRIORITY: nat := 0x80
  const SGI_PRIORITY: nat := 0x80
  const IDLE_PRIORITY: nat := 0xff

  function ConsoleIrq(p: Platform): IntId { if p.Qemu? then Spi(1) else Spi(0) }

  function RtcIrq(p: Platform): IntId { if p.Qemu? then Spi(2) else Spi(1) }

  datatype Handler = ConsoleHandler | AlarmHandler | SecondaryHandler | OtherHandler(id: nat)

  /** The spin locks: the secondary stack map, the GIC driver, the shared handler table and the
      console. */
  datatype Lock = Stacks | Gic | Table | Uart

  function Rank(l: Lock): nat {
    match l case Stacks => 0 case Gic => 1 case Table => 2 case Uart => 3
  }

  // ---------------------------------------------------------------- single steps

  /** Masking and locks: entering and leaving `exception_free`, `irq_enable`, spin locks. */
  datatype SyncOp = Mask | Restore | Unmask | Acquire(l: Lock) | Release(l: Lock)

  datatype TableOp =
    | AssertNoPrivate(i: IntId) | AssertNoShared(i: IntId)
    | InsertShared(i: IntId, h: Handler) | RemoveShared(i: IntId)
    | InsertPrivate(i: IntId, h: Handler) | RemovePrivate(i: IntId)

  /** `AwaitTaken` is a `wfi` that returns once an interrupt was taken. */
  datatype GicOp =
    | End(i: IntId) | SetPmr | SetPriority(i: IntId, p: nat) | Enable(i: IntId) | SendSgi(n: nat) | AwaitTaken

  datatype AlarmOp = StoreAlarm | SwapAlarm | ClearRtc | SetMatch | EnableRtc

  datatype ConsoleOp = ClearRx | PollReady | TryRead(n: nat)

  datatype CpuOp =
    | ActivatePt | StorePt | InitGic | ActivateSecondary
    | TakeStack(t: nat) | PowerOn(t: nat) | PowerOff | SystemOff

  datatype Instr =
    | Sync(s: SyncOp) | Tab(t: TableOp) | Irq(q: GicOp) | Rtc(a: AlarmOp) | Com(u: ConsoleOp) | Cpu(p: CpuOp)
    | Nop

  // ---------------------------------------------------------------- programs

  /** The calls a thread makes: one log or console message, a read attempt, `read_ready`, and the
      four functions that change the handler tables. */
  datatype CallKind =
    | Log | Read(n: nat) | Poll
    | SetShared(i: IntId, h: Handler) | DropShared(i: IntId)
    | SetPrivate(i: IntId, h: Handler) | DropPrivate(i: IntId)

  datatype Call = Idle | Busy(kind: CallKind, at: nat)

  function Length(kind: CallKind): nat {
    match kind
    case Log => 4
    case Read(_) => 5
    case Poll => 5
    case SetShared(_, _) => 6
    case DropShared(_) => 5
    case SetPrivate(_, _) => 6
    case DropPrivate(_) => 3
  }

  function UartSection(at: nat, x: ConsoleOp): Instr {
    if at == 0 then Sync(Mask) else if at == 1 then Sync(Acquire(Uart)) else if at == 2 then Com(x)
    else if at == 3 then Sync(Release(Uart)) else Sync(Restore)
  }

  /** The instruction at position `at` of a call.  `SetPrivate` drops the table lock between its
      check and its insertion. */
  function CallInstr(kind: CallKind, at: nat): Instr {
    match kind
    case Log =>
      if at == 0 then Sync(Mask) else if at == 1 then Sync(Acquire(Uart))
      else if at == 2 then Sync(Release(Uart)) else Sync(Restore)
    case Read(n) => UartSection(at, TryRead(n))
    case Poll => UartSection(at, PollReady)
    case SetShared(i, h) =>
      if at == 0 then Sync(Mask) else if at == 1 then Tab(AssertNoPrivate(i))
      else if at == 2 then Sync(Acquire(Table)) else if at == 3 then Tab(InsertShared(i, h))
      else if at == 4 then Sync(Release(Table)) else Sync(Restore)
    case DropShared(i) =>
      if at == 0 then Sync(Mask) else if at == 1 then Sync(Acquire(Table))
      else if at == 2 then Tab(RemoveShared(i))
      else if at == 3 then Sync(Release(Table)) else Sync(Restore)
    case SetPrivate(i, h) =>
      if at == 0 then Sync(Mask) else if at == 1 then Sync(Acquire(Table))
      else if at == 2 then Tab(AssertNoShared(i)) else if at == 3 then Sync(Release(Table))
      else if at == 4 then Tab(InsertPrivate(i, h)) else Sync(Restore)
    case DropPrivate(i) =>
      if at == 0 then Sync(Mask) else if at == 1 then Tab(RemovePrivate(i)) else Sync(Restore)
  }

  /** Where a core is in `handle_irq`; `Body` is inside the handler it found, in the private table
      or in the shared one. */
  datatype Handling =
    | Quiet | Entered | Acked(i: IntId) | SeekPrivate(i: IntId) | SeekTable(i: IntId) | SeekShared(i: IntId)
    | Body(i: IntId, h: Handler, shared: bool, at: nat) | DropTable | Leaving | Exiting

  function BodyLength(h: Handler): nat {
    if h.ConsoleHandler? then 6 else if h.AlarmHandler? then 5 else 4
  }

  function BodyInstr(p: Platform, h: Handler, i: IntId, at: nat): Instr {
    if h.ConsoleHandler? then
      if at == 0 then Sync(Mask) else if at == 1 then Sync(Acquire(Uart))
      else if at == 2 then (if p.Qemu? then Com(ClearRx) else Nop)
      else if at == 3 then Irq(End(i)) else if at == 4 then Sync(Release(Uart)) else Sync(Restore)
    else if at < 4 then CallInstr(Log, at)
    else Rtc(StoreAlarm)
  }

  /** The shell, `alarm`, `sgi` and `start_cpu`, between calls. */
  datatype ShellAt =
    | Top | Reading(n: nat) | Waiting(n: nat) | Polled
    | Swap(valid: bool) | Clear(valid: bool) | Finish(valid: bool) | Finished(valid: bool)
    | Arm(valid: bool) | Armed
    | Sending(n: nat)
    | Query(t: nat) | LockStacks(t: nat) | Take(t: nat) | FreeStacks(t: nat) | Push(t: nat) | Start(t: nat)
    | Report | Exited

  /** `secondary_init` and `secondary_entry`, with the positions of their three loops. */
  datatype SecondaryAt =
    | Init(n: nat) | Configure(n: nat, enabled: bool) | Register(n: nat) | Await(n: nat) | Unregister(n: nat)

  /** Any other program; `Setup` configures an interrupt the way `irq_setup` does. */
  datatype ClientAt = Choose | Setup(i: IntId, h: Handler, p: nat, n: nat)

  datatype Place = Boot(n: nat) | Shell(at: ShellAt) | Secondary(sec: SecondaryAt) | Client(cl: ClientAt) | Halt

  datatype Command =
    | Print | ReadByte | PollRead | SetAlarm(valid: bool) | Broadcast(n: nat) | StartCpu(t: nat) | Exit

  datatype Request = Invoke(kind: CallKind) | InvokeSetup(i: IntId, h: Handler, p: nat) | EnableIrqs | Raise(n: nat)

  datatype Choice = Go | Pick(i: IntId) | Spurious | Type(cmd: Command) | Ask(req: Request) | Refuse

  /** What a thread between calls does: one instruction, the start of a call, or neither; and where
      it continues. */
  datatype Plan = Do(x: Instr, next: Place) | Begin(kind: CallKind, next: Place) | Jump(next: Place) | Wait

  /** The primary core from page table activation to the shell's loop. */
  function BootPlan(p: Platform, n: nat): Plan {
    var console, rtc, next := ConsoleIrq(p), RtcIrq(p), Boot(n + 1);
    if n == 0 then Begin(Log, next)
    else if n == 1 then Do(Cpu(ActivatePt), next)
    else if n == 2 then Do(Cpu(StorePt), next)
    else if n == 3 then Do(Irq(SetPriority(console, CONSOLE_PRIORITY)), next)
    else if n == 4 then Do(Irq(Enable(console)), next)
    else if n == 5 then Begin(SetShared(console, ConsoleHandler), next)
    else if n == 6 then Do(Cpu(InitGic), next)
    else if n == 7 then Begin(Log, next)
    else if n == 8 then Do(Irq(SetPmr), next)
    else if n == 9 then Do(Sync(Acquire(Gic)), next)
    else if n == 10 then Begin(SetShared(rtc, AlarmHandler), next)
    else if n == 11 then Do(Irq(SetPriority(rtc, ALARM_PRIORITY)), next)
    else if n == 12 then Do(Irq(Enable(rtc)), next)
    else if n == 13 then Do(Sync(Release(Gic)), next)
    else if n == 14 then Do(Sync(Unmask), Shell(Top))
    else Wait
  }

  function CommandPlan(cfg: Config, cmd: Command): Plan {
    match cmd
    case Print => Begin(Log, Shell(Top))
    case ReadByte => Begin(Read(1), Shell(Reading(1)))
    case PollRead => Begin(Poll, Shell(Polled))
    case SetAlarm(valid) => Jump(Shell(Swap(valid)))
    case Broadcast(n) => if n < SGI_COUNT then Begin(Log, Shell(Sending(n))) else Begin(Log, Shell(Top))
    case StartCpu(t) => if t < cfg.count then Begin(Log, Shell(Query(t))) else Begin(Log, Shell(Top))
    case Exit => Begin(DropShared(RtcIrq(cfg.platform)), Shell(Exited))
  }

  function ShellPlan(cfg: Config, g: Globals, at: ShellAt, ch: Choice): Plan {
    match at
    case Top => if ch.Type? then CommandPlan(cfg, ch.cmd) else Wait
    case Reading(n) => Jump(Shell(if g.console.got then Top else Waiting(n)))
    case Waiting(n) => Begin(Read(n), Shell(Reading(n)))
    case Polled => if g.console.ready then Begin(Read(8), Shell(Reading(8))) else Jump(Shell(Top))
    case Swap(valid) => if g.alarm.fired then Do(Rtc(SwapAlarm), Shell(Clear(valid))) else Jump(Shell(Arm(valid)))
    case Clear(valid) => Do(Rtc(ClearRtc), Shell(Finish(valid)))
    case Finish(valid) => Do(Irq(End(RtcIrq(cfg.platform))), Shell(Finished(valid)))
    case Finished(valid) => Begin(Log, Shell(Arm(valid)))
    case Arm(valid) => if valid then Do(Rtc(SetMatch), Shell(Armed)) else Begin(Log, Shell(Top))
    case Armed => Do(Rtc(EnableRtc), Shell(Report))
    case Sending(n) => Do(Irq(SendSgi(n)), Shell(Top))
    case Query(t) =>
      Jump(Shell(if t < |g.cpus.power| && g.cpus.power[t].Off? then LockStacks(t) else Report))
    case LockStacks(t) => Do(Sync(Acquire(Stacks)), Shell(Take(t)))
    case Take(t) => Do(Cpu(TakeStack(t)), Shell(FreeStacks(t)))
    case FreeStacks(t) => Do(Sync(Release(Stacks)), Shell(Push(t)))
    case Push(t) => Jump(Shell(Start(t)))
    case Start(t) => if ch.Refuse? then Jump(Shell(Report)) else Do(Cpu(PowerOn(t)), Shell(Report))
    case Report => Begin(Log, Shell(Top))
    case Exited => Do(Cpu(SystemOff), Halt)
  }

  function SecondaryPlan(at: SecondaryAt): Plan {
    match at
    case Init(n) =>
      if n == 0 then Do(Cpu(ActivateSecondary), Secondary(Init(1)))
      else if n == 1 then Begin(Log, Secondary(Init(2)))
      else if n == 2 then Do(Sync(Acquire(Gic)), Secondary(Init(3)))
      else if n == 3 then Do(Sync(Release(Gic)), Secondary(Init(4)))
      else if n == 4 then Do(Irq(SetPmr), Secondary(Init(5)))
      else if n == 5 then Begin(Log, Secondary(Init(6)))
      else if n == 6 then Do(Sync(Acquire(Gic)), Secondary(Configure(0, false)))
      else Wait
    case Configure(n, enabled) =>
      if n >= SGI_COUNT then Do(Sync(Release(Gic)), Secondary(Register(0)))
      else if !enabled then Do(Irq(Enable(Sgi(n))), Secondary(Configure(n, true)))
      else Do(Irq(SetPriority(Sgi(n), SGI_PRIORITY)), Secondary(Configure(n + 1, false)))
    case Register(n) =>
      if n < SGI_COUNT then Begin(SetPrivate(Sgi(n), SecondaryHandler), Secondary(Register(n + 1)))
      else Do(Sync(Unmask), Secondary(Await(0)))
    case Await(n) =>
      if n == 0 then Begin(Log, Secondary(Await(1)))
      else if n == 1 then Do(Irq(AwaitTaken), Secondary(Await(2)))
      else Begin(Log, Secondary(Unregister(0)))
    case Unregister(n) =>
      if n < SGI_COUNT then Begin(DropPrivate(Sgi(n)), Secondary(Unregister(n + 1)))
      else Do(Cpu(PowerOff), Halt)
  }

  function ClientPlan(at: ClientAt, ch: Choice): Plan {
    match at
    case Choose =>
      if !ch.Ask? then Wait
      else (
        match ch.req
        case Invoke(kind) => if kind.Read? || kind.Poll? then Wait else Begin(kind, Client(Choose))
        case InvokeSetup(i, h, p) => Jump(Client(Setup(i, h, p, 0)))
        case EnableIrqs => Do(Sync(Unmask), Client(Choose))
        case Raise(n) => if n < SGI_COUNT then Do(Irq(SendSgi(n)), Client(Choose)) else Wait)
    case Setup(i, h, p, n) =>
      var next := Client(Setup(i, h, p, n + 1));
      if n == 0 then Do(Sync(Acquire(Gic)), next)
      else if n == 1 then Begin(SetShared(i, h), next)
      else if n == 2 then Do(Irq(SetPriority(i, p)), next)
      else if n == 3 then Do(Irq(Enable(i)), next)
      else if n == 4 then Do(Irq(SetPmr), next)
      else Do(Sync(Release(Gic)), Client(Choose))
  }

  function PlanOf(cfg: Config, g: Globals, place: Place, ch: Choice): Plan {
    match place
    case Boot(n) => BootPlan(cfg.platform, n)
    case Shell(at) => ShellPlan(cfg, g, at, ch)
    case Secondary(sec) => SecondaryPlan(sec)
    case Client(cl) => ClientPlan(cl, ch)
    case Halt => Wait
  }

  // ---------------------------------------------------------------- state

  /** One core.  `saved` holds the mask bits saved by the `exception_free` calls in progress.
      `active` is the stack of interrupts acknowledged and not ended, most recent last.
      `enabled` and `prio` are the GIC's configuration of the interrupts routed to this core. */
  datatype Core = Core(
    place: Place, call: Call, handler: Handling, masked: bool, saved: seq<bool>,
    active: seq<IntId>, pmr: nat, enabled: set<IntId>, prio: map<IntId, nat>)

  /** One access to the handler tables, in the order in which the accesses took effect. */
  datatype Access =
    | AddShared(c: nat, i: IntId, h: Handler) | DelShared(c: nat, i: IntId)
    | CheckShared(c: nat, i: IntId)
    | AddPrivate(c: nat, i: IntId, h: Handler) | DelPrivate(c: nat, i: IntId)

  datatype Tables = Tables(
    owner: map<Lock, nat>, shared: map<IntId, Handler>, priv: seq<map<IntId, Handler>>,
    log: seq<Access>)

  /** The real-time clock and the alarm flag.  `served` says that the level now on the line has
      been acknowledged.  The last five fields count. */
  datatype Alarm = Alarm(
    fired: bool, armed: bool, raw: bool, enabled: bool, served: bool,
    stores: nat, swaps: nat, matches: nat, acks: nat, merged: nat)

  /** The UART.  `ready` remembers a successful `read_ready` not yet followed by a read, `got`
      whether the last attempt to read returned data. */
  datatype Console = Console(
    pending: bool, fifo: seq<Byte>, received: seq<Byte>, delivered: seq<Byte>, ready: bool, got: bool)

  datatype Power = Off | OnPending | On

  datatype Cpus = Cpus(
    active: bool, stored: bool, gicReady: bool, power: seq<Power>,
    stacks: map<nat, nat>, nextStack: nat, inUse: map<nat, nat>)

  datatype Panic = NoPendingInterrupt | UnexpectedIrq(c: nat, i: IntId) | PrivateExists | SharedExists
                 | NoGic | NoPageTable

  datatype Globals = Globals(
    tables: Tables, alarm: Alarm, console: Console, pend: seq<set<IntId>>, cpus: Cpus,
    panic: Option<Panic>, off: bool)

  datatype State = State(g: Globals, cores: seq<Core>)

  /** `earlyWfi` lets `wfi` on a secondary core return before an SGI was taken. */
  datatype Config = Config(count: nat, primary: nat, platform: Platform, earlyWfi: bool)

  // ---------------------------------------------------------------- GIC

  function Prio(me: Core, i: IntId): nat { if i in me.prio then me.prio[i] else 0 }

  function Running(me: Core, a: seq<IntId>): nat
  {
    if a == [] then IDLE_PRIORITY
    else
      var below := Running(me, a[..|a| - 1]);
      var top := Prio(me, a[|a| - 1]);
      if top < below then top else below
  }

  /** The console and the RTC interrupt the primary core; both hold their line at the level, and an
      edge is latched in `pending`.  SGIs and all other SPIs are pending on the core they went to. */
  predicate Pending(cfg: Config, g: Globals, c: nat, i: IntId) {
    if i == ConsoleIrq(cfg.platform) then c == cfg.primary && g.console.pending
    else if i == RtcIrq(cfg.platform) then c == cfg.primary && g.alarm.raw && g.alarm.enabled
    else c < |g.pend| && i in g.pend[c]
  }

  predicate Deliverable(cfg: Config, g: Globals, me: Core, c: nat, i: IntId) {
    && i in me.enabled && Pending(cfg, g, c, i) && i !in me.active
    && Prio(me, i) < Running(me, me.active) && Prio(me, i) < me.pmr
  }

  ghost predicate Signalled(cfg: Config, g: Globals, me: Core, c: nat) {
    exists i :: Deliverable(cfg, g, me, c, i)
  }

  // ---------------------------------------------------------------- steps

  datatype Effect = Stuck | Effect(g: Globals, me: Core)

  function Fail(g: Globals, me: Core, why: Panic): Effect { Effect(g.(panic := Some(why)), me) }

  function ExecSync(g: Globals, me: Core, c: nat, x: SyncOp): Effect {
    var t := g.tables;
    match x
    case Mask => Effect(g, me.(saved := me.saved + [me.masked], masked := true))
    case Restore =>
      if me.saved == [] then Stuck
      else Effect(g, me.(masked := me.saved[|me.saved| - 1], saved := me.saved[..|me.saved| - 1]))
    case Unmask => Effect(g, me.(masked := false))
    case Acquire(l) =>
      if l == Gic && !g.cpus.gicReady then Fail(g, me, NoGic)
      else if l in t.owner then Stuck
      else Effect(g.(tables := t.(owner := t.owner[l := c])), me)
    case Release(l) => Effect(g.(tables := t.(owner := t.owner - {l})), me)
  }

  function ExecTable(g: Globals, me: Core, c: nat, x: TableOp): Effect
    requires c < |g.tables.priv|
  {
    var t := g.tables;
    match x
    case AssertNoPrivate(i) => if i in t.priv[c] then Fail(g, me, PrivateExists) else Effect(g, me)
    case AssertNoShared(i) =>
      if i in t.shared then Fail(g, me, SharedExists)
      else Effect(g.(tables := t.(log := t.log + [CheckShared(c, i)])), me)
    case InsertShared(i, h) =>
      Effect(g.(tables := t.(shared := t.shared[i := h], log := t.log + [AddShared(c, i, h)])), me)
    case RemoveShared(i) =>
      Effect(g.(tables := t.(shared := t.shared - {i}, log := t.log + [DelShared(c, i)])), me)
    case InsertPrivate(i, h) =>
      Effect(g.(tables := t.(priv := t.priv[c := t.priv[c][i := h]], log := t.log + [AddPrivate(c, i, h)])), me)
    case RemovePrivate(i) =>
      Effect(g.(tables := t.(priv := t.priv[c := t.priv[c] - {i}], log := t.log + [DelPrivate(c, i)])), me)
  }

  /** Ending an interrupt drops the most recent activation, whatever the name written. */
  function ExecGic(cfg: Config, g: Globals, me: Core, c: nat, x: GicOp): Effect {
    match x
    case End(i) => Effect(g, me.(active := if me.active == [] then [] else me.active[..|me.active| - 1]))
    case SetPmr => Effect(g, me.(pmr := 0xff))
    case SetPriority(i, p) => Effect(g, me.(prio := me.prio[i := p]))
    case Enable(i) => Effect(g, me.(enabled := me.enabled + {i}))
    case SendSgi(n) =>
      Effect(g.(pend := seq(|g.pend|, d requires 0 <= d < |g.pend| =>
                                        if d == c then g.pend[d] else g.pend[d] + {Sgi(n)})), me)
    case AwaitTaken => if cfg.earlyWfi || me.active != [] then Effect(g, me) else Stuck
  }

  function ExecAlarm(g: Globals, me: Core, x: AlarmOp): Effect {
    var a := g.alarm;
    match x
    case StoreAlarm => Effect(g.(alarm := a.(fired := true, stores := a.stores + 1)), me)
    case SwapAlarm => Effect(g.(alarm := a.(fired := false, swaps := a.swaps + 1)), me)
    case ClearRtc => Effect(g.(alarm := a.(raw := false, served := false)), me)
    case SetMatch => Effect(g.(alarm := a.(armed := true)), me)
    case EnableRtc => Effect(g.(alarm := a.(enabled := true)), me)
  }

  function ExecConsole(g: Globals, me: Core, x: ConsoleOp): Effect {
    var u := g.console;
    match x
    case ClearRx => Effect(g.(console := u.(pending := false)), me)
    case PollReady => Effect(g.(console := u.(ready := u.fifo != [])), me)
    case TryRead(n) =>
      if u.fifo == [] then Effect(g.(console := u.(got := false)), me)
      else
        var m := if n < |u.fifo| then n else |u.fifo|;
        Effect(g.(console := u.(fifo := u.fifo[m..], delivered := u.delivered + u.fifo[..m],
                                ready := false, got := true)), me)
  }

  function ExecCpu(g: Globals, me: Core, c: nat, x: CpuOp): Effect {
    var b := g.cpus;
    match x
    case ActivatePt => Effect(g.(cpus := b.(active := true)), me)
    case StorePt => Effect(g.(cpus := b.(stored := true)), me)
    case InitGic => Effect(g.(cpus := b.(gicReady := true)), me)
    case ActivateSecondary => if b.stored && b.active then Effect(g, me) else Fail(g, me, NoPageTable)
    case TakeStack(t) =>
      if t in b.stacks then Effect(g, me)
      else Effect(g.(cpus := b.(stacks := b.stacks[t := b.nextStack], nextStack := b.nextStack + 1)), me)
    case PowerOn(t) =>
      if t < |b.power| && b.power[t].Off? && t in b.stacks then
        Effect(g.(cpus := b.(power := b.power[t := OnPending], inUse := b.inUse[t := b.stacks[t]])), me)
      else Stuck
    case PowerOff =>
      if c < |b.power| then Effect(g.(cpus := b.(power := b.power[c := Off], inUse := b.inUse - {c})), me)
      else Stuck
    case SystemOff => Effect(g.(off := true), me)
  }

  function ExecInstr(cfg: Config, g: Globals, me: Core, c: nat, x: Instr): Effect
    requires c < |g.tables.priv|
  {
    match x
    case Sync(s) => ExecSync(g, me, c, s)
    case Tab(t) => ExecTable(g, me, c, t)
    case Irq(q) => ExecGic(cfg, g, me, c, q)
    case Rtc(a) => ExecAlarm(g, me, a)
    case Com(u) => ExecConsole(g, me, u)
    case Cpu(p) => ExecCpu(g, me, c, p)
    case Nop => Effect(g, me)
  }

  /** The core moves on to `to` unless the instruction blocked or panicked. */
  function Moved(r: Effect, place: Place, call: Call, handler: Handling): Effect {
    if r.Stuck? || r.g.panic.Some? then r
    else Effect(r.g, r.me.(place := place, call := call, handler := handler))
  }

  function ThreadStep(cfg: Config, g: Globals, me: Core, c: nat, ch: Choice): Effect
    requires c < |g.tables.priv|
  {
    match me.call
    case Busy(kind, at) =>
      Moved(ExecInstr(cfg, g, me, c, CallInstr(kind, at)), me.place,
            if at + 1 < Length(kind) then Busy(kind, at + 1) else Idle, me.handler)
    case Idle =>
      match PlanOf(cfg, g, me.place, ch)
      case Do(x, next) => Moved(ExecInstr(cfg, g, me, c, x), next, Idle, me.handler)
      case Begin(kind, next) => Effect(g, me.(place := next, call := Busy(kind, 0)))
      case Jump(next) => Effect(g, me.(place := next))
      case Wait => Stuck
  }

  /** The state of the device or redistributor once interrupt `i` has been acknowledged. */
  function Acknowledged(cfg: Config, g: Globals, c: nat, i: IntId): Globals {
    if i == RtcIrq(cfg.platform) then g.(alarm := g.alarm.(acks := g.alarm.acks + 1, served := true))
    else if i == ConsoleIrq(cfg.platform) then
      if cfg.platform.Crosvm? then g.(console := g.console.(pending := false)) else g
    else if c < |g.pend| then g.(pend := g.pend[c := g.pend[c] - {i}])
    else g
  }

  ghost function AckStep(cfg: Config, g: Globals, me: Core, c: nat, ch: Choice): Effect {
    match ch
    case Pick(i) =>
      if Deliverable(cfg, g, me, c, i) then
        Effect(Acknowledged(cfg, g, c, i), me.(active := me.active + [i], handler := Acked(i)))
      else Stuck
    case Spurious =>
      if Signalled(cfg, g, me, c) then Stuck else Fail(g, me, NoPendingInterrupt)
    case _ => Stuck
  }

  /** A handler found in the shared table runs with the table still locked. */
  ghost function HandlerStep(cfg: Config, g: Globals, me: Core, c: nat, ch: Choice): Effect
    requires c < |g.tables.priv|
  {
    var t := g.tables;
    match me.handler
    case Quiet => Stuck
    case Entered => AckStep(cfg, g, me, c, ch)
    case Acked(i) => Moved(ExecSync(g, me, c, Mask), me.place, me.call, SeekPrivate(i))
    case SeekPrivate(i) =>
      Effect(g, me.(handler := if i in t.priv[c] then Body(i, t.priv[c][i], false, 0) else SeekTable(i)))
    case SeekTable(i) => Moved(ExecSync(g, me, c, Acquire(Table)), me.place, me.call, SeekShared(i))
    case SeekShared(i) =>
      if i in t.shared then Effect(g, me.(handler := Body(i, t.shared[i], true, 0)))
      else Fail(g, me, UnexpectedIrq(c, i))
    case Body(i, h, shared, at) =>
      Moved(ExecInstr(cfg, g, me, c, BodyInstr(cfg.platform, h, i, at)), me.place, me.call,
            if at + 1 < BodyLength(h) then Body(i, h, shared, at + 1) else if shared then DropTable else Leaving)
    case DropTable => Moved(ExecSync(g, me, c, Release(Table)), me.place, me.call, Leaving)
    case Leaving => Moved(ExecSync(g, me, c, Restore), me.place, me.call, Exiting)
    case Exiting => Effect(g, me.(handler := Quiet, masked := false))
  }

  /** The effect of one step of one core.  `Stuck` is a core that cannot move now: it spins on a
      lock held elsewhere, waits for an interrupt, or the choice offered does not fit. */
  ghost function Exec(cfg: Config, g: Globals, me: Core, c: nat, ch: Choice): Effect
    requires c < |g.tables.priv|
  {
    if me.handler.Quiet? then ThreadStep(cfg, g, me, c, ch) else HandlerStep(cfg, g, me, c, ch)
  }

  datatype Event =
    | Run(c: nat, ch: Choice) | Interrupt(c: nat) | ByteIn(b: Byte) | Match | Line(c: nat, n: nat) | PowerUp(c: nat)

  ghost predicate Shaped(cfg: Config, s: State) {
    && |s.cores| == cfg.count && |s.g.tables.priv| == cfg.count && |s.g.pend| == cfg.count
    && |s.g.cpus.power| == cfg.count && cfg.primary < cfg.count
  }

  predicate Halted(s: State) { s.g.panic.Some? || s.g.off }

  /** A core that comes out of reset runs the secondary entry point with interrupts masked and an
      empty active stack; its redistributor keeps its configuration. */
  function Reset(me: Core): Core {
    me.(place := Secondary(Init(0)), call := Idle, handler := Quiet, masked := true, saved := [],
        active := [], pmr := 0)
  }

  /** A match while the raw status is still set leaves no trace of its own. */
  function Matched(a: Alarm): Alarm {
    if a.raw then a.(armed := false, matches := a.matches + 1, merged := a.merged + 1)
    else a.(armed := false, raw := true, served := false, matches := a.matches + 1)
  }

  ghost function Step(cfg: Config, s: State, e: Event): Option<State>
    requires Shaped(cfg, s)
  {
    if Halted(s) then None
    else
      match e
      case Run(c, ch) =>
        if c < cfg.count && s.g.cpus.power[c].On? then
          match Exec(cfg, s.g, s.cores[c], c, ch)
          case Stuck => None
          case Effect(g, me) => Some(State(g, s.cores[c := me]))
        else None
      case Interrupt(c) =>
        if c < cfg.count && s.g.cpus.power[c].On? && !s.cores[c].masked && s.cores[c].handler.Quiet?
           && Signalled(cfg, s.g, s.cores[c], c)
        then Some(s.(cores := s.cores[c := s.cores[c].(handler := Entered, masked := true)]))
        else None
      case ByteIn(b) =>
        var u := s.g.console;
        Some(s.(g := s.g.(console := u.(pending := true, fifo := u.fifo + [b], received := u.received + [b]))))
      case Match =>
        if s.g.alarm.armed then Some(s.(g := s.g.(alarm := Matched(s.g.alarm)))) else None
      case Line(c, n) =>
        if c < cfg.count && Spi(n) != ConsoleIrq(cfg.platform) && Spi(n) != RtcIrq(cfg.platform) then
          Some(s.(g := s.g.(pend := s.g.pend[c := s.g.pend[c] + {Spi(n)}])))
        else None
      case PowerUp(c) =>
        if c < cfg.count && s.g.cpus.power[c].OnPending? then
          Some(State(s.g.(cpus := s.g.cpus.(power := s.g.cpus.power[c := On])),
                     s.cores[c := Reset(s.cores[c])]))
        else None
  }

  // ---------------------------------------------------------------- runs

  function NewCore(place: Place): Core { Core(place, Idle, Quiet, true, [], [], 0, {}, map[]) }

  function NewGlobals(cfg: Config, ready: bool, power: nat -> Power): Globals {
    Globals(
      Tables(map[], map[], seq(cfg.count, _ => map[]), []),
      Alarm(false, false, false, false, false, 0, 0, 0, 0, 0),
      Console(false, [], [], [], false, false),
      seq(cfg.count, _ => {}),
      Cpus(ready, ready, ready, seq(cfg.count, power), map[], 0, map[]),
      None, false)
  }

  /** The kernel: the primary core boots, every other core is off. */
  ghost predicate KernelInit(cfg: Config, s: State) {
    && cfg.primary < cfg.count
    && s.g == NewGlobals(cfg, false, c => if c == cfg.primary then On else Off)
    && |s.cores| == cfg.count
    && forall c :: 0 <= c < cfg.count ==>
         s.cores[c] == NewCore(if c == cfg.primary then Boot(0) else Halt)
  }

  /** Any programs at all: every core is on and makes arbitrary calls of the interrupt API. */
  ghost predicate ClientInit(cfg: Config, s: State) {
    && cfg.primary < cfg.count
    && s.g == NewGlobals(cfg, true, c => On)
    && |s.cores| == cfg.count
    && forall c :: 0 <= c < cfg.count ==> s.cores[c] == NewCore(Client(Choose))
  }

  /** Two states of the same size. */
  predicate SameSize(g: Globals, h: Globals) {
    |h.tables.priv| == |g.tables.priv| && |h.pend| == |g.pend| && |h.cpus.power| == |g.cpus.power|
  }

  lemma TableSize(g: Globals, me: Core, c: nat, x: TableOp)
    requires c < |g.tables.priv|
    ensures ExecTable(g, me, c, x).Effect? ==> SameSize(g, ExecTable(g, me, c, x).g)
  {
  }

  lemma CpuSize(g: Globals, me: Core, c: nat, x: CpuOp)
    ensures ExecCpu(g, me, c, x).Effect? ==> SameSize(g, ExecCpu(g, me, c, x).g)
  {
  }

  lemma SyncSize(g: Globals, me: Core, c: nat, x: SyncOp)
    ensures ExecSync(g, me, c, x).Effect? ==> SameSize(g, ExecSync(g, me, c, x).g)
  {
  }

  lemma InstrSize(cfg: Config, g: Globals, me: Core, c: nat, x: Instr)
    requires c < |g.tables.priv|
    ensures ExecInstr(cfg, g, me, c, x).Effect? ==> SameSize(g, ExecInstr(cfg, g, me, c, x).g)
  {
    match x
    case Sync(s) => SyncSize(g, me, c, s);
    case Tab(t) => TableSize(g, me, c, t);
    case Cpu(p) => CpuSize(g, me, c, p);
    case _ =>
  }

  lemma ThreadSize(cfg: Config, g: Globals, me: Core, c: nat, ch: Choice)
    requires c < |g.tables.priv|
    ensures ThreadStep(cfg, g, me, c, ch).Effect? ==> SameSize(g, ThreadStep(cfg, g, me, c, ch).g)
  {
    if me.call.Busy? {
      InstrSize(cfg, g, me, c, CallInstr(me.call.kind, me.call.at));
    } else {
      var plan := PlanOf(cfg, g, me.place, ch);
      if plan.Do? { InstrSize(cfg, g, me, c, plan.x); }
    }
  }

  lemma HandlerSize(cfg: Config, g: Globals, me: Core, c: nat, ch: Choice)
    requires c < |g.tables.priv|
    ensures HandlerStep(cfg, g, me, c, ch).Effect? ==> SameSize(g, HandlerStep(cfg, g, me, c, ch).g)
  {
    SyncSize(g, me, c, Mask);
    SyncSize(g, me, c, Restore);
    SyncSize(g, me, c, Acquire(Table));
    SyncSize(g, me, c, Release(Table));
    if me.handler.Body? {
      InstrSize(cfg, g, me, c, BodyInstr(cfg.platform, me.handler.h, me.handler.i, me.handler.at));
    }
  }

  lemma StepShaped(cfg: Config, s: State, e: Event)
    requires Shaped(cfg, s)
    ensures Step(cfg, s, e).Some? ==> Shaped(cfg, Step(cfg, s, e).value)
  {
    if e.Run? && e.c < cfg.count {
      ThreadSize(cfg, s.g, s.cores[e.c], e.c, e.ch);
      HandlerSize(cfg, s.g, s.cores[e.c], e.c, e.ch);
    }
  }

  /** The state after a sequence of events, if all of them can happen in that order. */
  ghost function After(cfg: Config, s: State, es: seq<Event>): (r: Option<State>)
    requires Shaped(cfg, s)
    ensures r.Some? ==> Shaped(cfg, r.value)
    decreases |es|
  {
    if es == [] then Some(s)
    else
      match After(cfg, s, es[..|es| - 1])
      case None => None
      case Some(m) => StepShaped(cfg, m, es[|es| - 1]); Step(cfg, m, es[|es| - 1])
  }
}
