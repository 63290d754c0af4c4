/** The shell's byte-by-byte line reader (src/apps/shell.rs). */
module LineReader {

  import opened Wrappers

  const CR: Byte := 13
  const LF: Byte := 10
  const EOF: Byte := 4
  const CRLF: seq<Byte> := [CR, LF]
  const CAPACITY := 128

  /** What one call of `read_line` comes to: a line, more input needed, or the panic of a push
      into a full line buffer. */
  datatype Outcome = Line(bytes: seq<Byte>) | Waiting | Overflow

  predicate Control(b: Byte) { b < 32 || b == 127 }

  predicate Newline(b: Byte) { b == CR || b == LF }

  /** The bytes of `s` which are not control bytes, in order. */
  function Kept(s: seq<Byte>): seq<Byte> {
    if s == [] then [] else
    var last := s[|s| - 1];
    Kept(s[..|s| - 1]) + (if Control(last) then [] else [last])
  }

  /** Position `n` ends the line: a CR or LF, or an EOF with nothing but control bytes before it. */
  predicate Ends(input: seq<Byte>, n: nat)
    requires n < |input|
  {
    Newline(input[n]) || (input[n] == EOF && forall i :: 0 <= i < n ==> Control(input[i]))
  }

  predicate NoEnd(input: seq<Byte>, n: nat)
    requires n <= |input|
  {
    forall m :: 0 <= m < n ==> !Ends(input, m)
  }

  /** What `read_line` must do with an input stream: `used` bytes are read and `echo` is written. */
  ghost predicate Reads(input: seq<Byte>, out: Outcome, used: nat, echo: seq<Byte>) {
    used <= |input| &&
    match out
    case Line(bytes) =>
      && 0 < used && Ends(input, used - 1) && NoEnd(input, used - 1)
      && |Kept(input[..used - 1])| <= CAPACITY
      && bytes == (if input[used - 1] == EOF then [EOF] else Kept(input[..used - 1]))
      && echo == Kept(input[..used - 1]) + CRLF
    case Waiting =>
      used == |input| && NoEnd(input, used) && |Kept(input)| <= CAPACITY && echo == Kept(input)
    case Overflow =>
      && 0 < used && NoEnd(input, used) && !Control(input[used - 1])
      && |Kept(input[..used])| == CAPACITY + 1 && echo == Kept(input[..used])
  }

  lemma {:induction false} KeptEmpty(s: seq<Byte>)
    ensures Kept(s) == [] <==> forall i :: 0 <= i < |s| ==> Control(s[i])
  {
    if s != [] {
      var p := s[..|s| - 1];
      KeptEmpty(p);
      assert forall i :: 0 <= i < |p| ==> p[i] == s[i];
    }
  }

  method ReadLine(input: seq<Byte>) returns (out: Outcome, used: nat, echo: seq<Byte>)
    ensures Reads(input, out, used, echo)
  {
    var line: seq<Byte> := [];
    used, echo := 0, [];
    while used < |input|
      invariant used <= |input| && NoEnd(input, used)
      invariant line == Kept(input[..used]) == echo && |line| <= CAPACITY
    {
      var c := input[used];
      KeptEmpty(input[..used]);
      assert input[..used + 1][..used] == input[..used];
      used := used + 1;
      if c == CR || c == LF {
        return Line(line), used, echo + CRLF;
      } else if c == EOF && line == [] {
        return Line([EOF]), used, echo + CRLF;
      } else if !Control(c) {
        echo := echo + [c];
        if |line| == CAPACITY {
          return Overflow, used, echo;
        }
        line := line + [c];
      }
    }
    assert input[..used] == input;
    return Waiting, used, echo;
  }

  lemma {:induction false} KeptGrows(s: seq<Byte>, n: nat)
    requires n <= |s|
    ensures Kept(s[..n]) <= Kept(s)
    decreases |s|
  {
    if n < |s| {
      KeptGrows(s[..|s| - 1], n);
      assert s[..|s| - 1][..n] == s[..n];
    } else {
      assert s[..n] == s;
    }
  }

  lemma KeptBelow(s: seq<Byte>, i: nat, j: nat)
    requires i <= |s| && j <= |s|
    ensures i <= j ==> |Kept(s[..i])| <= |Kept(s[..j])|
    ensures 0 < j && !Control(s[j - 1]) ==> |Kept(s[..j])| == |Kept(s[..j - 1])| + 1
  {
    if i <= j {
      KeptGrows(s[..j], i);
      assert s[..j][..i] == s[..i];
    }
    if 0 < j {
      assert s[..j][..j - 1] == s[..j - 1];
    }
  }

  lemma NotShorter(input: seq<Byte>, a: Outcome, i: nat, x: seq<Byte>, b: Outcome, j: nat, y: seq<Byte>)
    requires Reads(input, a, i, x) && Reads(input, b, j, y)
    ensures j <= i
  {
    if 0 < j {
      KeptBelow(input, i, j - 1);
      KeptBelow(input, i, j);
      assert j == |input| ==> input[..j] == input;
    }
  }

  /** A stream fixes what is read from it, so `Reads` says all there is to say. */
  lemma ReadsOnce(input: seq<Byte>, a: Outcome, i: nat, x: seq<Byte>, b: Outcome, j: nat, y: seq<Byte>)
    requires Reads(input, a, i, x) && Reads(input, b, j, y)
    ensures a == b && i == j && x == y
  {
    NotShorter(input, a, i, x, b, j, y);
    NotShorter(input, b, j, y, a, i, x);
    assert i == |input| ==> input[..i] == input;
  }

  lemma {:induction false} KeptAll(s: seq<Byte>)
    requires forall i :: 0 <= i < |s| ==> !Control(s[i])
    ensures Kept(s) == s
  {
    if s != [] {
      KeptAll(s[..|s| - 1]);
    }
  }

  lemma {:induction false} KeptPlain(s: seq<Byte>, b: Byte)
    requires b in Kept(s)
    ensures b in s && !Control(b)
  {
    if s != [] && b in Kept(s[..|s| - 1]) {
      KeptPlain(s[..|s| - 1], b);
    }
  }

  /** The shell's exit test is unambiguous: the line is `[EOF]` exactly when an EOF arrived, before
      any kept byte; every other line has no control byte in it. */
  lemma ExitTest(input: seq<Byte>, bytes: seq<Byte>, used: nat, echo: seq<Byte>)
    requires Reads(input, Line(bytes), used, echo)
    ensures bytes == [EOF] <==> input[used - 1] == EOF
    ensures bytes == [EOF] ==> forall i :: 0 <= i < used - 1 ==> Control(input[i]) && !Newline(input[i])
    ensures bytes != [EOF] ==> Newline(input[used - 1]) && forall b :: b in bytes ==> !Control(b)
  {
    forall b | b in Kept(input[..used - 1]) ensures !Control(b) {
      KeptPlain(input[..used - 1], b);
    }
    if input[used - 1] != EOF {
      assert Control(EOF) && EOF !in bytes && EOF in [EOF];
    }
    forall i | 0 <= i < used - 1 ensures !Newline(input[i]) {
      assert !Ends(input, i);
    }
  }

  /** A line which a user can type: plain bytes, no more of them than the buffer holds. */
  predicate Typable(line: seq<Byte>) {
    |line| <= CAPACITY && forall i :: 0 <= i < |line| ==> !Control(line[i])
  }

  lemma TypedLine(line: seq<Byte>, rest: seq<Byte>)
    requires Typable(line)
    ensures Reads(line + [CR] + rest, Line(line), |line| + 1, line + CRLF)
  {
    var input, n := line + [CR] + rest, |line|;
    assert input[..n] == line && input[n] == CR;
    KeptAll(line);
    forall m | 0 <= m < n ensures !Ends(input, m) {
      assert input[m] == line[m];
    }
  }

  // ---------------------------------------------------------------- the command loop

  predicate Continues(s: seq<Byte>, lo: Byte, hi: Byte, at: nat, n: nat) {
    at + n <= |s| && n >= 1 && lo <= s[at] <= hi && forall i :: at < i < at + n ==> 0x80 <= s[i] <= 0xbf
  }

  /** The length of the UTF-8 character at the start of `s`, or 0 if there is none, by table 3-7 of the
      Unicode Standard. */
  function CharLength(s: seq<Byte>): nat
    requires s != []
  {
    var b := s[0];
    if b < 0x80 then 1
    else if 0xc2 <= b <= 0xdf && Continues(s, 0x80, 0xbf, 1, 1) then 2
    else if b == 0xe0 && Continues(s, 0xa0, 0xbf, 1, 2) then 3
    else if b == 0xed && Continues(s, 0x80, 0x9f, 1, 2) then 3
    else if 0xe1 <= b <= 0xef && b != 0xed && Continues(s, 0x80, 0xbf, 1, 2) then 3
    else if b == 0xf0 && Continues(s, 0x90, 0xbf, 1, 3) then 4
    else if 0xf1 <= b <= 0xf3 && Continues(s, 0x80, 0xbf, 1, 3) then 4
    else if b == 0xf4 && Continues(s, 0x80, 0x8f, 1, 3) then 4
    else 0
  }

  predicate ValidUtf8(s: seq<Byte>) {
    s == [] || (var n := CharLength(s); 0 < n <= |s| && ValidUtf8(s[n..]))
  }

  const SPACE: Byte := 32
  const EXIT: seq<Byte> := [101, 120, 105, 116]
  const VCAT: seq<Byte> := [118, 99, 97, 116]

  /** The bytes before the first space. */
  function FirstWord(s: seq<Byte>): seq<Byte> {
    if s == [] || s[0] == SPACE then [] else [s[0]] + FirstWord(s[1..])
  }

  /** The line is the command with the given name. */
  predicate Commands(line: seq<Byte>, name: seq<Byte>) { ValidUtf8(line) && FirstWord(line) == name }

  /** How a session ends: with an EOF, with `exit`, with the input used up, or with the panic of a line
      that is too long. */
  datatype End = AtEof | ByExit | Starved | Overflowed

  /** A line, and the bytes after it that its command reads itself. */
  datatype Item = Item(line: seq<Byte>, taken: seq<Byte>)

  function Lines(items: seq<Item>): seq<seq<Byte>> { seq(|items|, i requires 0 <= i < |items| => items[i].line) }

  /** A user types these lines: an `exit` is the last one, a `vcat` is followed by what it reads itself
      (as `vcat` says, a function of the line and of the bytes that come), and without an `exit` there is
      an EOF at the end. */
  ghost predicate Script(items: seq<Item>, input: seq<Byte>, vcat: (seq<Byte>, seq<Byte>) -> nat) {
    if items == [] then [EOF] <= input
    else
      var line, taken := items[0].line, items[0].taken;
      && Typable(line) && line + [CR] <= input
      && var rest := input[|line| + 1..];
         if Commands(line, EXIT) then |items| == 1
         else
           && taken <= rest && |taken| == (if Commands(line, VCAT) then vcat(line, rest) else 0)
           && Script(items[1..], rest[|taken|..], vcat)
  }

  function EndOf(items: seq<Item>): End {
    if items != [] && Commands(items[|items| - 1].line, EXIT) then ByExit else AtEof
  }

  lemma TypableIsNotEof(line: seq<Byte>)
    requires Typable(line)
    ensures line != [EOF]
  {
    assert |line| == 1 ==> !Control(line[0]);
    assert Control(EOF);
  }

  lemma ScriptEnds(input: seq<Byte>, out: Outcome, used: nat, echo: seq<Byte>)
    requires [EOF] <= input && Reads(input, out, used, echo)
    ensures out == Line([EOF])
  {
    assert input[0] == EOF && Ends(input, 0) && input[..0] == [];
    ReadsOnce(input, Line([EOF]), 1, CRLF, out, used, echo);
  }

  lemma ScriptLine(line: seq<Byte>, input: seq<Byte>, out: Outcome, used: nat, echo: seq<Byte>)
    requires Typable(line) && line + [CR] <= input && Reads(input, out, used, echo)
    ensures out == Line(line) && used == |line| + 1
  {
    assert input == line + [CR] + input[|line| + 1..];
    TypedLine(line, input[|line| + 1..]);
    ReadsOnce(input, Line(line), |line| + 1, line + CRLF, out, used, echo);
  }

  /** What the loop has read is the start of every script that fits the input, and the rest of that
      script fits the rest of the input. */
  ghost predicate OnScript(items: seq<Item>, lines: seq<seq<Byte>>, input: seq<Byte>,
                           vcat: (seq<Byte>, seq<Byte>) -> nat)
  {
    |lines| <= |items| && lines == Lines(items)[..|lines|] && Script(items[|lines|..], input, vcat)
  }

  lemma ScriptStep(items: seq<Item>, lines: seq<seq<Byte>>, input: seq<Byte>, vcat: (seq<Byte>, seq<Byte>) -> nat,
                   out: Outcome, used: nat, echo: seq<Byte>)
    requires OnScript(items, lines, input, vcat) && Reads(input, out, used, echo)
    ensures |lines| == |items| ==> out == Line([EOF]) && lines == Lines(items)
    ensures |lines| < |items| ==> out.Line? && out != Line([EOF]) && lines + [out.bytes] == Lines(items)[..|lines| + 1]
    ensures |lines| < |items| && Commands(out.bytes, EXIT) ==> |lines| + 1 == |items|
    ensures |lines| < |items| && !Commands(out.bytes, EXIT) ==>
              var n := if Commands(out.bytes, VCAT) then vcat(out.bytes, input[used..]) else 0;
              n <= |input[used..]| && Script(items[|lines| + 1..], input[used..][n..], vcat)
  {
    var rest := items[|lines|..];
    if rest == [] {
      ScriptEnds(input, out, used, echo);
    } else {
      ScriptLine(rest[0].line, input, out, used, echo);
      TypableIsNotEof(rest[0].line);
      assert rest[0] == items[|lines|] && rest[1..] == items[|lines| + 1..];
    }
  }

  /** The script goes on behind a line that is not an `exit`, with `n` bytes read by its command. */
  ghost predicate GoesOn(items: seq<Item>, lines: seq<seq<Byte>>, tail: seq<Byte>, line: seq<Byte>,
                         vcat: (seq<Byte>, seq<Byte>) -> nat)
  {
    var n := if Commands(line, VCAT) then vcat(line, tail) else 0;
    n <= |tail| && OnScript(items, lines + [line], tail[n..], vcat)
      && (|lines| + 1 == |items| ==> EndOf(items) == AtEof)
  }

  lemma ItemRead(items: seq<Item>, lines: seq<seq<Byte>>, line: seq<Byte>)
    requires |lines| < |items| && lines + [line] == Lines(items)[..|lines| + 1]
    ensures items[|lines|].line == line && (|lines| + 1 == |items| ==> lines + [line] == Lines(items))
  {
    assert Lines(items)[..|lines| + 1][|lines|] == line;
    assert |lines| + 1 == |items| ==> Lines(items)[..|lines| + 1] == Lines(items);
  }

  lemma SessionStep(items: seq<Item>, lines: seq<seq<Byte>>, input: seq<Byte>, vcat: (seq<Byte>, seq<Byte>) -> nat,
                    out: Outcome, used: nat, echo: seq<Byte>)
    requires OnScript(items, lines, input, vcat) && Reads(input, out, used, echo)
    ensures |lines| == |items| ==> out == Line([EOF]) && lines == Lines(items)
    ensures |lines| < |items| ==> out.Line? && out != Line([EOF])
    ensures |lines| < |items| && Commands(out.bytes, EXIT) ==>
              lines + [out.bytes] == Lines(items) && EndOf(items) == ByExit
    ensures |lines| < |items| && !Commands(out.bytes, EXIT) ==> GoesOn(items, lines, input[used..], out.bytes, vcat)
  {
    ScriptStep(items, lines, input, vcat, out, used, echo);
    if |lines| < |items| {
      ItemRead(items, lines, out.bytes);
    }
  }

  /** The command loop of the shell.  Lines are read until one is the EOF line or an `exit` command;
      `vcat` reads some bytes itself.  Whatever session was typed is read back, and ends as typed. */
  method Session(input: seq<Byte>, vcat: (seq<Byte>, seq<Byte>) -> nat, ghost items: seq<Item>)
    returns (lines: seq<seq<Byte>>, end: End)
    ensures Script(items, input, vcat) ==> lines == Lines(items) && end == EndOf(items)
  {
    var rest := input;
    lines := [];
    ghost var typed := Script(items, input, vcat);
    assert items[0..] == items && Lines(items)[..0] == [];
    while true
      invariant typed ==> OnScript(items, lines, rest, vcat) && (|lines| == |items| ==> EndOf(items) == AtEof)
      decreases |rest|
    {
      var out, used, echo := ReadLine(rest);
      if typed {
        SessionStep(items, lines, rest, vcat, out, used, echo);
      }
      if out == Line([EOF]) {
        return lines, AtEof;
      } else if out.Waiting? {
        return lines, Starved;
      } else if out.Overflow? {
        return lines, Overflowed;
      }
      rest, lines := rest[used..], lines + [out.bytes];
      if Commands(out.bytes, EXIT) {
        return lines, ByExit;
      }
      var n := if Commands(out.bytes, VCAT) then vcat(out.bytes, rest) else 0;
      rest := if n <= |rest| then rest[n..] else [];
    }
  }

  /** What is read of a session that was typed without regard to `exit`: the lines up to the first one. */
  function Heard(given: seq<seq<Byte>>): seq<Item> {
    if given == [] then []
    else if Commands(given[0], EXIT) then [Item(given[0], [])]
    else [Item(given[0], [])] + Heard(given[1..])
  }

  /** Lines, each with a carriage return, and an EOF. */
  function Typed(given: seq<seq<Byte>>): seq<Byte> {
    if given == [] then [EOF] else given[0] + [CR] + Typed(given[1..])
  }

  lemma {:induction false} TypedIsScript(given: seq<seq<Byte>>, input: seq<Byte>, vcat: (seq<Byte>, seq<Byte>) -> nat)
    requires forall line :: line in given ==> Typable(line) && !Commands(line, VCAT)
    requires Typed(given) <= input
    ensures Script(Heard(given), input, vcat)
  {
    if given != [] {
      var line, rest := given[0], input[|given[0]| + 1..];
      assert Typed(given)[|line| + 1..] == Typed(given[1..]) && Typed(given)[..|line| + 1] == line + [CR];
      if !Commands(line, EXIT) {
        assert rest[0..] == rest;
        TypedIsScript(given[1..], rest, vcat);
        assert Heard(given)[1..] == Heard(given[1..]);
      }
    }
  }
}
