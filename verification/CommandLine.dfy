/** The shell and the console together: which commands the step system runs, given the bytes that were typed
    (src/apps/shell.rs, src/console.rs).

    In module Machine the primary core runs any commands in any order.  Here a run also carries what the
    shell has read so far, and the core starts what `main` and `read_line` start next: a prompt, a read of
    one byte, an echo, or the command of a line. */
module CommandLine {
  import opened Wrappers
  import opened Machine
  import opened Frames
  import opened Runs
  import opened Devices
  import LR = LineReader

  type Text = seq<Byte>

  const ALARM: Text := [97, 108, 97, 114, 109]
  const SGI: Text := [115, 103, 105]
  const START_CPU: Text := [115, 116, 97, 114, 116, 95, 99, 112, 117]

  /** Where the shell is when the core is between commands: about to write the prompt, to read a byte, or to
      look at the byte it has read; with a line to execute, inside a command that writes (and, for `vcat`,
      reads); after a push into a full line; or done. */
  datatype Phase =
    | Prompt | Fetch(line: Text) | Fetched(line: Text) | Execute(line: Text) | Inside(line: Text) | Full | Over

  /** One line: the bytes `read_line` took for it, the line it made of them, what the core started for it, and
      the bytes its command read itself. */
  datatype Turn = Turn(bytes: Text, line: Text, cmd: Command, taken: Text)

  /** The lines so far and the bytes taken for the next one. */
  datatype History = History(phase: Phase, turns: seq<Turn>, cur: Text)

  predicate Leaves(line: Text) { line == [LR.EOF] || LR.Commands(line, LR.EXIT) }

  /** Command `cmd` is what `main` starts for the line. */
  predicate Obeys(line: Text, cmd: Command) {
    if Leaves(line) then cmd.Exit?
    else if LR.Commands(line, ALARM) then cmd.SetAlarm?
    else if LR.Commands(line, SGI) then cmd.Broadcast?
    else if LR.Commands(line, START_CPU) then cmd.StartCpu?
    else cmd.Print? || (cmd.PollRead? && LR.Commands(line, LR.VCAT))
  }

  /** The line's command is one that only writes, or `vcat`; or there is none. */
  predicate Inner(line: Text) {
    !Leaves(line) && !LR.Commands(line, ALARM) && !LR.Commands(line, SGI) && !LR.Commands(line, START_CPU)
  }

  function Spent(turns: seq<Turn>): Text {
    if turns == [] then []
    else Spent(turns[..|turns| - 1]) + turns[|turns| - 1].bytes + turns[|turns| - 1].taken
  }

  /** The bytes that have been accounted for. */
  function Used(sh: History): Text { Spent(sh.turns) + sh.cur }

  /** What `read_line` does with byte `c`: the next phase, and what the core starts. */
  function Heard(line: Text, c: Byte): (Phase, Command) {
    if LR.Newline(c) then (Execute(line), Print)
    else if c == LR.EOF && line == [] then (Execute([LR.EOF]), Print)
    else if LR.Control(c) then (Fetched(line), ReadByte)
    else if |line| == LR.CAPACITY then (Full, Print)
    else (Fetch(line + [c]), Print)
  }

  /** With a command done, the bytes it read itself are part of its turn. */
  function Closed(turns: seq<Turn>, delivered: Text): seq<Turn>
    requires turns != [] && |Spent(turns)| <= |delivered|
  {
    var n := |turns| - 1;
    turns[n := turns[n].(taken := turns[n].taken + delivered[|Spent(turns)|..])]
  }

  /** The shell with history `sh` starts `cmd`, and its history becomes `to`. */
  predicate Follows(sh: History, u: Console, cmd: Command, to: History) {
    match sh.phase
    case Prompt => cmd == Print && to == sh.(phase := Fetch([]))
    case Fetch(line) => cmd == ReadByte && to == sh.(phase := Fetched(line))
    case Fetched(line) =>
      && u.delivered != []
      && var c := u.delivered[|u.delivered| - 1];
         (to.phase, cmd) == Heard(line, c) && to.turns == sh.turns && to.cur == sh.cur + [c]
    case Execute(line) =>
      && Obeys(line, cmd) && to.turns == sh.turns + [Turn(sh.cur, line, cmd, [])] && to.cur == []
      && (if Leaves(line) then to.phase == Over
          else if Inner(line) then to.phase == Inside(line) || (to.phase == Fetch([]) && cmd == Print)
          else to.phase == Prompt)
    case Inside(line) =>
      || (to == sh && (cmd.Print? || (cmd.PollRead? && LR.Commands(line, LR.VCAT))))
      || (&& cmd == Print && sh.turns != [] && |Spent(sh.turns)| <= |u.delivered|
          && to == History(Fetch([]), Closed(sh.turns, u.delivered), []))
    case Full => false
    case Over => false
  }

  /** The primary core is between commands. */
  predicate AtTop(me: Core) { me.place == Shell(Top) && me.call.Idle? && me.handler.Quiet? }

  predicate ShellStep(cfg: Config, t: State, e: Event, sh: History, to: History)
    requires Shaped(cfg, t)
  {
    if e.Run? && e.c == cfg.primary && AtTop(t.cores[cfg.primary]) then
      e.ch.Type? && Follows(sh, t.g.console, e.ch.cmd, to)
    else to == sh
  }

  /** The run `es` with the shell's history `shs` before, between and after the events. */
  ghost predicate Shelled(cfg: Config, s: State, es: seq<Event>, shs: seq<History>)
    requires Shaped(cfg, s) && After(cfg, s, es).Some?
    decreases |es|
  {
    var n := |es|;
    && |shs| == n + 1
    && if n == 0 then shs[0] == History(Prompt, [], [])
       else
         && After(cfg, s, es[..n - 1]).Some? && Shelled(cfg, s, es[..n - 1], shs[..n])
         && ShellStep(cfg, After(cfg, s, es[..n - 1]).value, es[n - 1], shs[n - 1], shs[n])
  }

  // ---------------------------------------------------------------- what holds between events

  /** The core is about to read from the console, or has just done so. */
  predicate InRead(me: Core) {
    || (me.place.Shell? && (me.place.at.Reading? || me.place.at.Waiting? || me.place.at.Polled?))
    || (me.call.Busy? && (me.call.kind.Read? || me.call.kind.Poll?))
  }

  /** Where the core can be while one byte is being read. */
  predicate FetchPlace(me: Core) {
    || (me.place == Shell(Reading(1)) && (me.call.Idle? || (me.call.kind == Read(1) && me.call.at < 5)))
    || ((me.place == Shell(Waiting(1)) || me.place == Shell(Top)) && me.call.Idle?)
  }

  /** The byte has come. */
  predicate Came(me: Core, u: Console) {
    || me.place == Shell(Top)
    || (me.place == Shell(Reading(1)) && (me.call.Idle? || me.call.at > 2) && u.got)
  }

  predicate Vcat(p: Phase) { p.Inside? && LR.Commands(p.line, LR.VCAT) }

  /** What was delivered is what the shell has accounted for, but for a byte it has not looked at yet, or
      bytes that a `vcat` under way has read. */
  ghost predicate ReadInv(u: Console, me: Core, sh: History) {
    if sh.phase.Fetched? then
      && FetchPlace(me) && Used(sh) <= u.delivered
      && |u.delivered| == |Used(sh)| + if Came(me, u) then 1 else 0
    else if Vcat(sh.phase) then Used(sh) <= u.delivered
    else u.delivered == Used(sh) && !InRead(me)
  }

  function EchoOf(bytes: Text): Text
    requires bytes != []
  {
    LR.Kept(bytes[..|bytes| - 1]) + LR.CRLF
  }

  /** The line is what `read_line` makes of exactly these bytes. */
  ghost predicate LineOf(bytes: Text, line: Text) {
    bytes != [] && LR.Reads(bytes, LR.Outcome.Line(line), |bytes|, EchoOf(bytes))
  }

  ghost predicate TurnOk(t: Turn) {
    LineOf(t.bytes, t.line) && Obeys(t.line, t.cmd) && (t.taken == [] || LR.Commands(t.line, LR.VCAT))
  }

  /** Every turn is in order, and only the last one can end the session. */
  ghost predicate TurnsOk(turns: seq<Turn>, phase: Phase) {
    forall k :: 0 <= k < |turns| ==> TurnOk(turns[k]) && (Leaves(turns[k].line) ==> k == |turns| - 1 && phase.Over?)
  }

  ghost predicate PhaseOk(sh: History) {
    match sh.phase
    case Fetch(line) => LR.NoEnd(sh.cur, |sh.cur|) && LR.Kept(sh.cur) == line && |line| <= LR.CAPACITY
    case Fetched(line) => LR.NoEnd(sh.cur, |sh.cur|) && LR.Kept(sh.cur) == line && |line| <= LR.CAPACITY
    case Execute(line) => LineOf(sh.cur, line)
    case Inside(line) => sh.cur == [] && sh.turns != [] && sh.turns[|sh.turns| - 1].line == line && Inner(line)
    case Full => true
    case _ => sh.cur == []
  }

  ghost predicate ShellInv(u: Console, me: Core, sh: History) {
    ReadInv(u, me, sh) && PhaseOk(sh) && TurnsOk(sh.turns, sh.phase)
  }

  // ---------------------------------------------------------------- steps that start no command

  lemma QuietKeeps(u: Console, v: Console, me: Core, to: Core, sh: History)
    requires ShellInv(u, me, sh) && Unread(u, v) && to.place == me.place && to.call == me.call
    ensures ShellInv(v, to, sh)
  {
  }

  /** Only a command leads into a read. */
  lemma StaysOutOfRead(cfg: Config, g: Globals, me: Core, c: nat, ch: Choice)
    requires c < |g.tables.priv| && g.panic.None? && me.handler.Quiet? && !AtTop(me) && !InRead(me)
    ensures var r := ThreadStep(cfg, g, me, c, ch); r.Effect? ==> !InRead(r.me)
  {
    if me.call.Busy? {
      CallFrame(cfg, g, me, c, ch);
    } else {
      var plan := PlanOf(cfg, g, me.place, ch);
      PlanStaysOut(cfg, g, me, ch);
      if plan.Do? { InstrFrame(cfg, g, me, c, plan.x); }
    }
  }

  predicate ReadPlace(p: Place) { p.Shell? && (p.at.Reading? || p.at.Waiting? || p.at.Polled?) }

  lemma PlanStaysOut(cfg: Config, g: Globals, me: Core, ch: Choice)
    requires me.place != Shell(Top) && !ReadPlace(me.place)
    ensures var plan := PlanOf(cfg, g, me.place, ch);
            && (plan.Do? || plan.Jump? ==> !ReadPlace(plan.next))
            && (plan.Begin? ==> !ReadPlace(plan.next) && !plan.kind.Read? && !plan.kind.Poll?)
  {
  }

  /** A read attempt: nothing, or the bytes at the head of the queue. */
  lemma UartStep(cfg: Config, g: Globals, me: Core, ch: Choice)
    requires cfg.primary < |g.tables.priv| && g.panic.None? && AtUart(me)
    ensures var r := ThreadStep(cfg, g, me, cfg.primary, ch);
            && r.Effect? && g.console.delivered <= r.g.console.delivered
            && r.me.place == me.place && r.me.call == Busy(me.call.kind, 3)
            && (me.call.kind == Read(1) ==> |r.g.console.delivered| == |g.console.delivered| + Bit(r.g.console.got))
  {
    var x := if me.call.kind.Read? then TryRead(me.call.kind.n) else PollReady;
    ConsoleFrame(g, me, x);
  }

  /** The read of one byte goes on: another attempt, a wait, or back to `read_line` with the byte. */
  lemma FetchCall(cfg: Config, g: Globals, me: Core, ch: Choice, sh: History)
    requires ReadInv(g.console, me, sh) && sh.phase.Fetched? && me.call.Busy?
    requires cfg.primary < |g.tables.priv| && g.panic.None? && me.handler.Quiet?
    ensures var r := ThreadStep(cfg, g, me, cfg.primary, ch); r.Effect? ==> ReadInv(r.g.console, r.me, sh)
  {
    CallFrame(cfg, g, me, cfg.primary, ch);
    if AtUart(me) {
      UartStep(cfg, g, me, ch);
    } else {
      ThreadUnread(cfg, g, me, cfg.primary, ch);
      var x := CallInstr(me.call.kind, me.call.at);
      assert x.Sync?;
      InstrFrame(cfg, g, me, cfg.primary, x);
      SyncFrame(g, me, cfg.primary, x.s);
    }
  }

  lemma FetchMove(cfg: Config, g: Globals, me: Core, ch: Choice, sh: History)
    requires ReadInv(g.console, me, sh) && sh.phase.Fetched? && me.call.Idle? && !AtTop(me)
    requires cfg.primary < |g.tables.priv| && g.panic.None? && me.handler.Quiet?
    ensures var r := ThreadStep(cfg, g, me, cfg.primary, ch); r.Effect? ==> ReadInv(r.g.console, r.me, sh)
  {
  }

  /** A step of the primary core's thread that starts no command. */
  lemma ThreadKeepsShell(cfg: Config, g: Globals, me: Core, ch: Choice, sh: History)
    requires ShellInv(g.console, me, sh) && !AtTop(me)
    requires cfg.primary < |g.tables.priv| && g.panic.None? && me.handler.Quiet?
    ensures var r := ThreadStep(cfg, g, me, cfg.primary, ch); r.Effect? ==> ShellInv(r.g.console, r.me, sh)
  {
    if sh.phase.Fetched? {
      if me.call.Busy? { FetchCall(cfg, g, me, ch, sh); } else { FetchMove(cfg, g, me, ch, sh); }
    } else if Vcat(sh.phase) {
      if AtUart(me) { UartStep(cfg, g, me, ch); } else { ThreadUnread(cfg, g, me, cfg.primary, ch); }
    } else {
      ThreadUnread(cfg, g, me, cfg.primary, ch);
      StaysOutOfRead(cfg, g, me, cfg.primary, ch);
    }
  }

  // ---------------------------------------------------------------- starting a command

  lemma TopStep(cfg: Config, g: Globals, me: Core, cmd: Command)
    requires cfg.primary < |g.tables.priv| && AtTop(me)
    ensures var r := ThreadStep(cfg, g, me, cfg.primary, Type(cmd));
            && r.Effect? && r.g == g
            && (cmd.ReadByte? ==> r.me.place == Shell(Reading(1)) && r.me.call == Busy(Read(1), 0))
            && (!cmd.ReadByte? && !cmd.PollRead? ==> !InRead(r.me))
  {
  }

  lemma SpentStep(turns: seq<Turn>, t: Turn)
    ensures Spent(turns + [t]) == Spent(turns) + t.bytes + t.taken
  {
    assert (turns + [t])[..|turns|] == turns;
  }

  lemma SpentClosed(turns: seq<Turn>, delivered: Text)
    requires turns != [] && Spent(turns) <= delivered
    ensures Spent(Closed(turns, delivered)) == delivered
  {
    var n, more := |turns| - 1, delivered[|Spent(turns)|..];
    var closed := Closed(turns, delivered);
    assert closed[..n] == turns[..n];
    Regroup(Spent(turns[..n]) + turns[n].bytes, turns[n].taken, more);
    Rejoin(Spent(turns), delivered);
  }

  lemma Rejoin(a: Text, b: Text)
    requires a <= b
    ensures b == a + b[|a|..]
  {
  }

  lemma Peel(a: Text, b: Text, input: Text)
    requires a + b <= input
    ensures a <= input && b <= input[|a|..]
  {
    assert (a + b)[..|a|] == a && (a + b)[|a|..] == b;
  }

  lemma Regroup(a: Text, b: Text, c: Text)
    ensures a + (b + c) == (a + b) + c
  {
  }

  /** What the shell has read of a line, with one byte more. */
  lemma HeardOk(cur: Text, line: Text, c: Byte)
    requires LR.NoEnd(cur, |cur|) && LR.Kept(cur) == line && |line| <= LR.CAPACITY
    ensures var p := Heard(line, c).0;
            var more := cur + [c];
            match p
            case Fetch(l) => LR.NoEnd(more, |more|) && LR.Kept(more) == l && |l| <= LR.CAPACITY
            case Fetched(l) => LR.NoEnd(more, |more|) && LR.Kept(more) == l && |l| <= LR.CAPACITY
            case Execute(l) => LineOf(more, l)
            case _ => true
  {
    var more := cur + [c];
    assert more[..|cur|] == cur;
    LR.KeptEmpty(cur);
    EndsBefore(cur, c);
    assert LR.Ends(more, |cur|) <==> LR.Newline(c) || (c == LR.EOF && line == []) by {
      assert forall i :: 0 <= i < |cur| ==> more[i] == cur[i];
    }
  }

  lemma EndsBefore(cur: Text, c: Byte)
    requires LR.NoEnd(cur, |cur|)
    ensures LR.NoEnd(cur + [c], |cur|)
  {
    forall m | 0 <= m < |cur| ensures !LR.Ends(cur + [c], m) {
      assert !LR.Ends(cur, m);
      assert forall i :: 0 <= i <= m ==> (cur + [c])[i] == cur[i];
    }
  }

  /** What was delivered when the shell starts its next command. */
  ghost predicate Caught(u: Console, sh: History) {
    if sh.phase.Fetched? then Used(sh) <= u.delivered && |u.delivered| == |Used(sh)| + 1
    else if Vcat(sh.phase) then Used(sh) <= u.delivered
    else u.delivered == Used(sh)
  }

  ghost predicate HistoryOk(u: Console, cmd: Command, to: History) {
    && PhaseOk(to) && TurnsOk(to.turns, to.phase)
    && (if Vcat(to.phase) then Used(to) <= u.delivered else u.delivered == Used(to))
    && (cmd.ReadByte? <==> to.phase.Fetched?) && (cmd.PollRead? ==> Vcat(to.phase))
  }

  lemma FetchedFollows(sh: History, u: Console, cmd: Command, to: History)
    requires PhaseOk(sh) && TurnsOk(sh.turns, sh.phase) && Caught(u, sh) && Follows(sh, u, cmd, to) && sh.phase.Fetched?
    ensures HistoryOk(u, cmd, to)
  {
    var c := u.delivered[|u.delivered| - 1];
    HeardOk(sh.cur, sh.phase.line, c);
    Rejoin(Used(sh), u.delivered);
    Regroup(Spent(sh.turns), sh.cur, [c]);
  }

  lemma ExecuteFollows(sh: History, u: Console, cmd: Command, to: History)
    requires PhaseOk(sh) && TurnsOk(sh.turns, sh.phase) && Caught(u, sh) && Follows(sh, u, cmd, to) && sh.phase.Execute?
    ensures HistoryOk(u, cmd, to)
  {
    SpentStep(sh.turns, Turn(sh.cur, sh.phase.line, cmd, []));
    assert Used(to) == Used(sh);
    NothingEnds();
  }

  lemma NothingEnds()
    ensures LR.NoEnd([], 0) && LR.Kept([]) == []
  {
  }

  lemma InsideFollows(sh: History, u: Console, cmd: Command, to: History)
    requires PhaseOk(sh) && TurnsOk(sh.turns, sh.phase) && Caught(u, sh) && Follows(sh, u, cmd, to) && sh.phase.Inside?
    ensures HistoryOk(u, cmd, to)
  {
    if to != sh {
      assert Used(sh) == Spent(sh.turns);
      SpentClosed(sh.turns, u.delivered);
      NothingEnds();
      assert Used(to) == u.delivered;
    }
  }

  lemma HistoryFollows(sh: History, u: Console, cmd: Command, to: History)
    requires PhaseOk(sh) && TurnsOk(sh.turns, sh.phase) && Caught(u, sh) && Follows(sh, u, cmd, to)
    ensures HistoryOk(u, cmd, to)
  {
    match sh.phase
    case Fetched(_) => FetchedFollows(sh, u, cmd, to);
    case Execute(_) => ExecuteFollows(sh, u, cmd, to);
    case Inside(_) => InsideFollows(sh, u, cmd, to);
    case _ => NothingEnds();
  }

  lemma TopKeepsShell(cfg: Config, g: Globals, me: Core, cmd: Command, sh: History, to: History)
    requires ShellInv(g.console, me, sh) && AtTop(me) && cfg.primary < |g.tables.priv|
             && Follows(sh, g.console, cmd, to)
    ensures var r := ThreadStep(cfg, g, me, cfg.primary, Type(cmd)); r.Effect? && ShellInv(r.g.console, r.me, to)
  {
    TopStep(cfg, g, me, cmd);
    HistoryFollows(sh, g.console, cmd, to);
  }

  // ---------------------------------------------------------------- every run

  lemma RunKeepsShell(cfg: Config, s: State, es: seq<Event>, ch: Choice, sh: History, to: History)
    requires KernelInit(cfg, s) && After(cfg, s, es).Some?
             && Step(cfg, After(cfg, s, es).value, Run(cfg.primary, ch)).Some?
    requires var t := After(cfg, s, es).value;
             ShellInv(t.g.console, t.cores[cfg.primary], sh) && ShellStep(cfg, t, Run(cfg.primary, ch), sh, to)
    ensures var u := Step(cfg, After(cfg, s, es).value, Run(cfg.primary, ch)).value;
            |u.cores| == cfg.count && ShellInv(u.g.console, u.cores[cfg.primary], to)
  {
    var t := After(cfg, s, es).value;
    var me := t.cores[cfg.primary];
    if AtTop(me) {
      TopKeepsShell(cfg, t.g, me, ch.cmd, sh, to);
    } else if me.handler.Quiet? {
      ThreadKeepsShell(cfg, t.g, me, ch, sh);
    } else {
      HandlerFrame(cfg, t.g, me, cfg.primary, ch);
      HandlerUnread(cfg, t.g, me, cfg.primary, ch);
      var u := Step(cfg, t, Run(cfg.primary, ch)).value;
      QuietKeeps(t.g.console, u.g.console, me, u.cores[cfg.primary], sh);
    }
  }

  /** An event that is not a step of the primary core leaves its place and call alone. */
  lemma OtherEvent(cfg: Config, s: State, es: seq<Event>, e: Event)
    requires KernelInit(cfg, s) && After(cfg, s, es).Some? && Step(cfg, After(cfg, s, es).value, e).Some?
    requires !(e.Run? && e.c == cfg.primary)
    ensures var t := After(cfg, s, es).value;
            var u := Step(cfg, t, e).value;
            && |u.cores| == cfg.count && Unread(t.g.console, u.g.console)
            && u.cores[cfg.primary].place == t.cores[cfg.primary].place
               && u.cores[cfg.primary].call == t.cores[cfg.primary].call
  {
    OnlyOwnerReads(cfg, s, es, e);
    KernelAlways(cfg, s, es);
  }

  lemma OtherKeepsShell(cfg: Config, s: State, es: seq<Event>, e: Event, sh: History)
    requires KernelInit(cfg, s) && After(cfg, s, es).Some? && Step(cfg, After(cfg, s, es).value, e).Some?
    requires !(e.Run? && e.c == cfg.primary)
    requires ShellInv(After(cfg, s, es).value.g.console, After(cfg, s, es).value.cores[cfg.primary], sh)
    ensures var u := Step(cfg, After(cfg, s, es).value, e).value;
            |u.cores| == cfg.count && ShellInv(u.g.console, u.cores[cfg.primary], sh)
  {
    OtherEvent(cfg, s, es, e);
    var t := After(cfg, s, es).value;
    var u := Step(cfg, t, e).value;
    QuietKeeps(t.g.console, u.g.console, t.cores[cfg.primary], u.cores[cfg.primary], sh);
  }

  ghost predicate ShellHolds(cfg: Config, t: State, sh: History) {
    cfg.primary < cfg.count == |t.cores| && ShellInv(t.g.console, t.cores[cfg.primary], sh)
  }

  lemma EventKeepsShell(cfg: Config, s: State, es: seq<Event>, e: Event, sh: History, to: History)
    requires KernelInit(cfg, s) && After(cfg, s, es).Some? && Step(cfg, After(cfg, s, es).value, e).Some?
    requires ShellHolds(cfg, After(cfg, s, es).value, sh) && ShellStep(cfg, After(cfg, s, es).value, e, sh, to)
    ensures ShellHolds(cfg, Step(cfg, After(cfg, s, es).value, e).value, to)
  {
    if e.Run? && e.c == cfg.primary {
      RunKeepsShell(cfg, s, es, e.ch, sh, to);
    } else {
      OtherKeepsShell(cfg, s, es, e, to);
    }
  }

  lemma ShellStarts(cfg: Config, s: State)
    requires KernelInit(cfg, s)
    ensures ShellHolds(cfg, s, History(Prompt, [], []))
  {
  }

  lemma {:induction false} ShellAlways(cfg: Config, s: State, es: seq<Event>, shs: seq<History>)
    requires KernelInit(cfg, s) && After(cfg, s, es).Some? && Shelled(cfg, s, es, shs)
    ensures ShellHolds(cfg, After(cfg, s, es).value, shs[|es|])
    decreases |es|
  {
    if es == [] {
      ShellStarts(cfg, s);
    } else {
      var n := |es| - 1;
      ShellAlways(cfg, s, es[..n], shs[..n + 1]);
      EventKeepsShell(cfg, s, es[..n], es[n], shs[n], shs[n + 1]);
    }
  }

  /** What the shell starts for a line. */
  function CommandOf(line: Text): (cmd: Command)
    ensures Obeys(line, cmd)
  {
    if Leaves(line) then Exit
    else if LR.Commands(line, ALARM) then SetAlarm(true)
    else if LR.Commands(line, SGI) then Broadcast(0)
    else if LR.Commands(line, START_CPU) then StartCpu(0)
    else Print
  }

  lemma CanFollow(u: Console, sh: History) returns (cmd: Command, to: History)
    requires !sh.phase.Full? && !sh.phase.Over? && (sh.phase.Fetched? ==> u.delivered != [])
    ensures Follows(sh, u, cmd, to)
  {
    match sh.phase
    case Fetch(line) => cmd, to := ReadByte, sh.(phase := Fetched(line));
    case Fetched(line) =>
      var c := u.delivered[|u.delivered| - 1];
      cmd, to := Heard(line, c).1, sh.(phase := Heard(line, c).0, cur := sh.cur + [c]);
    case Execute(line) =>
      cmd := CommandOf(line);
      to := History(if Leaves(line) then Over else if Inner(line) then Inside(line) else Prompt,
                    sh.turns + [Turn(sh.cur, line, cmd, [])], []);
    case Inside(line) => cmd, to := Print, sh;
    case _ => cmd, to := Print, sh.(phase := Fetch([]));
  }

  lemma HasByte(u: Console, me: Core, sh: History)
    requires ShellInv(u, me, sh) && AtTop(me) && sh.phase.Fetched?
    ensures u.delivered != []
  {
  }

  /** The shell is never at a loss: between commands it has a next step, unless a line was too long or it has
      been told to leave. */
  lemma ShellGoesOn(cfg: Config, s: State, es: seq<Event>, shs: seq<History>) returns (cmd: Command, to: History)
    requires KernelInit(cfg, s) && After(cfg, s, es).Some? && Shelled(cfg, s, es, shs)
    requires !Halted(After(cfg, s, es).value) && AtTop(After(cfg, s, es).value.cores[cfg.primary])
    requires !shs[|es|].phase.Full? && !shs[|es|].phase.Over?
    ensures var t := After(cfg, s, es).value;
            Step(cfg, t, Run(cfg.primary, Type(cmd))).Some?
              && ShellStep(cfg, t, Run(cfg.primary, Type(cmd)), shs[|es|], to)
  {
    ShellAlways(cfg, s, es, shs);
    KernelAlways(cfg, s, es);
    var t := After(cfg, s, es).value;
    if shs[|es|].phase.Fetched? { HasByte(t.g.console, t.cores[cfg.primary], shs[|es|]); }
    cmd, to := CanFollow(t.g.console, shs[|es|]);
    TopStep(cfg, t.g, t.cores[cfg.primary], cmd);
  }

  // ---------------------------------------------------------------- what was typed is what is run

  /** Reading `input` by the specification of `read_line` gives the lines of the turns, one after the other,
      with the bytes that their commands read left out. */
  ghost predicate Heeds(input: Text, turns: seq<Turn>) {
    if turns == [] then true
    else
      var t := turns[0];
      && t.bytes + t.taken <= input && t.bytes != []
      && LR.Reads(input, LR.Outcome.Line(t.line), |t.bytes|, EchoOf(t.bytes))
      && Heeds(input[|t.bytes| + |t.taken|..], turns[1..])
  }

  /** What `read_line` reads does not depend on what comes after it. */
  lemma ReadsMore(bytes: Text, line: Text, input: Text)
    requires LineOf(bytes, line) && bytes <= input
    ensures LR.Reads(input, LR.Outcome.Line(line), |bytes|, EchoOf(bytes))
  {
    var n := |bytes| - 1;
    assert input[..n] == bytes[..n];
    assert LR.Ends(bytes, n) ==> LR.Ends(input, n);
    forall m | 0 <= m < n ensures !LR.Ends(input, m) {
      assert !LR.Ends(bytes, m);
    }
  }

  lemma {:induction false} SpentFirst(turns: seq<Turn>)
    requires turns != []
    ensures Spent(turns) == turns[0].bytes + turns[0].taken + Spent(turns[1..])
    decreases |turns|
  {
    var n := |turns| - 1;
    if n > 0 {
      SpentFirst(turns[..n]);
      assert turns[..n][1..] == turns[1..][..n - 1];
      var a, b, t := turns[0].bytes + turns[0].taken, Spent(turns[1..][..n - 1]), turns[n];
      assert turns[1..][n - 1] == t;
      Regroup(a, b, t.bytes);
      Regroup(a, b + t.bytes, t.taken);
    }
  }

  lemma TurnsRest(turns: seq<Turn>, phase: Phase)
    requires turns != [] && TurnsOk(turns, phase)
    ensures TurnsOk(turns[1..], phase)
  {
    assert forall k :: 0 <= k < |turns| - 1 ==> turns[1..][k] == turns[k + 1];
  }

  lemma {:induction false} SpentHeeds(turns: seq<Turn>, phase: Phase, input: Text)
    requires TurnsOk(turns, phase) && Spent(turns) <= input
    ensures Heeds(input, turns)
    decreases |turns|
  {
    if turns != [] {
      var t, rest := turns[0], turns[1..];
      SpentFirst(turns);
      Peel(t.bytes + t.taken, Spent(rest), input);
      Peel(t.bytes, t.taken, input);
      assert TurnOk(t);
      ReadsMore(t.bytes, t.line, input);
      TurnsRest(turns, phase);
      SpentHeeds(rest, phase, input[|t.bytes| + |t.taken|..]);
    }
  }

  lemma HoldsReceived(u: Console, me: Core, sh: History)
    requires ShellInv(u, me, sh) && u.delivered <= u.received
    ensures Heeds(u.received, sh.turns)
    ensures forall k :: 0 <= k < |sh.turns| ==>
              Obeys(sh.turns[k].line, sh.turns[k].cmd) && (Leaves(sh.turns[k].line) ==> k == |sh.turns| - 1)
  {
    SpentHeeds(sh.turns, sh.phase, u.received);
  }

  /** In every run, whatever the other cores, the interrupts and the devices do: the lines whose commands were
      started are those that `read_line` reads from the bytes received, in order, and each was started by the
      command it names. */
  lemma CommandsAreReceived(cfg: Config, s: State, es: seq<Event>, shs: seq<History>)
    requires KernelInit(cfg, s) && After(cfg, s, es).Some? && Shelled(cfg, s, es, shs)
    ensures var turns := shs[|es|].turns;
            && Heeds(After(cfg, s, es).value.g.console.received, turns)
            && forall k :: 0 <= k < |turns| ==>
                 Obeys(turns[k].line, turns[k].cmd) && (Leaves(turns[k].line) ==> k == |turns| - 1)
  {
    ShellAlways(cfg, s, es, shs);
    ReadsArePrefix(cfg, s, es);
    var t := After(cfg, s, es).value;
    HoldsReceived(t.g.console, t.cores[cfg.primary], shs[|es|]);
  }

  /** The lines of a typed session that are executed: up to the first `exit`, or all of them and the EOF. */
  function Expected(given: seq<Text>): seq<Text> {
    if given == [] then [[LR.EOF]]
    else if LR.Commands(given[0], LR.EXIT) then [given[0]]
    else [given[0]] + Expected(given[1..])
  }

  predicate Plain(given: seq<Text>) {
    forall line :: line in given ==> LR.Typable(line) && !LR.Commands(line, LR.VCAT)
  }

  /** The lines of the turns are the first of `lines`. */
  predicate FirstOf(turns: seq<Turn>, lines: seq<Text>) {
    |turns| <= |lines| && forall k :: 0 <= k < |turns| ==> turns[k].line == lines[k]
  }

  lemma {:induction false} HeedsTyped(turns: seq<Turn>, phase: Phase, given: seq<Text>, input: Text)
    requires Heeds(input, turns) && TurnsOk(turns, phase) && Plain(given) && LR.Typed(given) <= input
    ensures FirstOf(turns, Expected(given))
    decreases |turns|
  {
    if turns != [] {
      var t := turns[0];
      var out := LR.Outcome.Line(t.line);
      if given == [] {
        LR.ScriptEnds(input, out, |t.bytes|, EchoOf(t.bytes));
        assert Leaves(t.line);
      } else {
        var line := given[0];
        assert line + [LR.CR] <= LR.Typed(given);
        LR.ScriptLine(line, input, out, |t.bytes|, EchoOf(t.bytes));
        if !Leaves(line) { HeedsRest(turns, phase, given, input); }
        else { LR.TypableIsNotEof(line); }
      }
    }
  }

  lemma HeedsRest(turns: seq<Turn>, phase: Phase, given: seq<Text>, input: Text)
    requires Heeds(input, turns) && TurnsOk(turns, phase) && Plain(given) && LR.Typed(given) <= input
    requires turns != [] && given != [] && turns[0].line == given[0] && |turns[0].bytes| == |given[0]| + 1
             && !Leaves(given[0])
    ensures FirstOf(turns, Expected(given))
    decreases |turns|, 0
  {
    var t, rest := turns[0], turns[1..];
    assert TurnOk(t) && t.taken == [];
    var n := |given[0]| + 1;
    assert LR.Typed(given)[n..] == LR.Typed(given[1..]);
    assert LR.Typed(given)[n..] <= input[n..];
    TurnsRest(turns, phase);
    assert Plain(given[1..]);
    HeedsTyped(rest, phase, given[1..], input[n..]);
    assert Expected(given) == [given[0]] + Expected(given[1..]);
  }

  lemma HoldsTyped(u: Console, me: Core, sh: History, given: seq<Text>)
    requires ShellInv(u, me, sh) && u.delivered <= u.received && Plain(given)
    requires u.received <= LR.Typed(given) || LR.Typed(given) <= u.received
    ensures FirstOf(sh.turns, Expected(given))
  {
    var input := if u.received <= LR.Typed(given) then LR.Typed(given) else u.received;
    assert Spent(sh.turns) <= u.delivered;
    SpentHeeds(sh.turns, sh.phase, input);
    HeedsTyped(sh.turns, sh.phase, given, input);
  }

  /** So of a session that somebody types - lines, each with a carriage return, and an EOF - the kernel starts
      the commands in the order typed, none twice and none left out, up to where it has got. */
  lemma CommandsAsTyped(cfg: Config, s: State, es: seq<Event>, shs: seq<History>, given: seq<Text>)
    requires KernelInit(cfg, s) && After(cfg, s, es).Some? && Shelled(cfg, s, es, shs) && Plain(given)
    requires var u := After(cfg, s, es).value.g.console; u.received <= LR.Typed(given) || LR.Typed(given) <= u.received
    ensures FirstOf(shs[|es|].turns, Expected(given))
  {
    ShellAlways(cfg, s, es, shs);
    ReadsArePrefix(cfg, s, es);
    var t := After(cfg, s, es).value;
    HoldsTyped(t.g.console, t.cores[cfg.primary], shs[|es|], given);
  }
}
