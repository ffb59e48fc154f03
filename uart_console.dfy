/** The UART command console: characters read from the UART are echoed and
    edited into a command line of at most 100 printable characters; a CR or LF
    hands the line to the command interpreter (help, interval <sec>, time). */
module UartConsole {

  import opened CTypes
  import Decimal

  /** Longest command line */
  const CMD_MAX_LEN: nat := 100

  /** Bytes one uart read can return */
  const READ_BUFFER_SIZE: nat := 64

  /** Initial LED toggle interval, in seconds */
  const DEFAULT_LED_INTERVAL_SEC: int := 5

  const CR: u8 := 13
  const LF: u8 := 10
  const BACKSPACE: u8 := 8
  const DEL: u8 := 127

  // ---------------------------------------------------------------------------
  // What the console sends

  /** One item sent on the UART */
  datatype UartOut =
    | Banner
    | Echo(b: u8)
    | EraseLast
    | NewLine
    | Prompt
    | HelpText
    | IntervalUpdated
    | InvalidInterval
    | TimeReport
    | UnknownCommand
    | Inactive

  /** The bytes of each item; the time report's text is not modelled. */
  function OutText(o: UartOut): string
    requires !o.TimeReport?
  {
    match o
    case Banner => "System started. Type 'help' for commands.\r\n> "
    case Echo(b) => [b as char]
    case EraseLast => "\U{0008} \U{0008}"
    case NewLine => "\r\n"
    case Prompt => "> "
    case HelpText =>
      "Commands:\r\n" + " help - show instructions\r\n"
      + " interval <sec> - set LED toggle interval\r\n"
      + " time - show seconds since last LED toggle\r\n"
    case IntervalUpdated => "Interval updated\r\n"
    case InvalidInterval => "Invalid interval\r\n"
    case UnknownCommand => "unknown command\r\n"
    case Inactive => "[Inactive]\r\n"
  }

  // ---------------------------------------------------------------------------
  // Reading the interval: std::istringstream iss(cmd); iss >> word >> value;

  /** isspace in the C locale */
  predicate IsSpace(c: char)
  {
    c == ' ' || 9 <= c as int <= 13
  }

  function SkipSpaces(s: string): (r: string)
    ensures r != [] ==> !IsSpace(r[0])
    decreases |s|
  {
    if s != [] && IsSpace(s[0]) then SkipSpaces(s[1..]) else s
  }

  function SkipWord(s: string): (r: string)
    ensures r != [] ==> IsSpace(r[0])
    decreases |s|
  {
    if s != [] && !IsSpace(s[0]) then SkipWord(s[1..]) else s
  }

  /** The longest run of digits at the start of s */
  function LeadingDigits(s: string): (d: string)
    ensures d <= s && Decimal.AllDigits(d)
    ensures |d| < |s| ==> !Decimal.IsDigit(s[|d|])
    decreases |s|
  {
    if s != [] && Decimal.IsDigit(s[0]) then [s[0]] + LeadingDigits(s[1..]) else []
  }

  /** A value out of int's range is stored as INT_MAX or INT_MIN. */
  function ClampToInt(v: int): (r: int)
    ensures INT_MIN <= r <= INT_MAX
    ensures INT_MIN <= v <= INT_MAX ==> r == v
  {
    if v > INT_MAX then INT_MAX else if v < INT_MIN then INT_MIN else v
  }

  /** What `iss >> value` finds in the rest of the stream: an optional sign and
      digits; without digits the conversion fails and stores 0. */
  function ConvertInt(s: string): (v: int)
    requires s != [] && !IsSpace(s[0])
    ensures INT_MIN <= v <= INT_MAX
  {
    var negative := s[0] == '-';
    var body := if s[0] == '-' || s[0] == '+' then s[1..] else s;
    var digits := LeadingDigits(body);
    if digits == [] then 0
    else
      var magnitude: int := Decimal.Value(digits);
      ClampToInt(if negative then -magnitude else magnitude)
  }

  /** What `iss >> word >> value` leaves in `value`. The word runs up to the
      first white space; when the stream ends there, or only white space
      follows, the stream is at its end, the extraction of value does not take
      place and value keeps what it held before (Unset). */
  datatype Extraction = Unset | Stored(value: int)

  function ExtractValue(cmd: string): (r: Extraction)
    ensures r.Stored? ==> INT_MIN <= r.value <= INT_MAX
  {
    var word := SkipSpaces(cmd);
    if word == [] then Unset
    else
      var rest := SkipSpaces(SkipWord(word));
      if rest == [] then Unset else Stored(ConvertInt(rest))
  }

  // ---------------------------------------------------------------------------
  // processCommand

  datatype Command = Help | SetInterval(value: int) | Time | Unknown

  /** The number an interval command gives, with `int value` initialised to 0 */
  function IntervalValue(cmd: string): (v: int)
    ensures INT_MIN <= v <= INT_MAX
    ensures ExtractValue(cmd) == Unset ==> v == 0
  {
    match ExtractValue(cmd)
    case Unset => 0
    case Stored(v) => v
  }

  /** The command processCommand recognises, with `int value` as written:
      uninitialised, so a command that gives no number reads `indeterminate`. */
  function ClassifyAsWritten(cmd: string, indeterminate: int): (c: Command)
    ensures ExtractValue(cmd).Stored? || !("interval" <= cmd) ==> c == Classify(cmd)
    ensures "interval" <= cmd && cmd != "help" && ExtractValue(cmd) == Unset ==> c == SetInterval(indeterminate)
  {
    if cmd == "help" then Help
    else if "interval" <= cmd then
      SetInterval(match ExtractValue(cmd) case Unset => indeterminate case Stored(v) => v)
    else if cmd == "time" then Time
    else Unknown
  }

  /** The command processCommand recognises, with value initialised to 0. */
  function Classify(cmd: string): (c: Command)
    ensures c.SetInterval? ==> INT_MIN <= c.value <= INT_MAX
  {
    if cmd == "help" then Help
    else if "interval" <= cmd then SetInterval(IntervalValue(cmd))
    else if cmd == "time" then Time
    else Unknown
  }

  /** The new LED interval and what is sent back */
  function Execute(c: Command, interval: int): (r: (int, seq<UartOut>))
    ensures |r.1| == 1
    ensures r.0 != interval ==> c.SetInterval? && r.0 == c.value > 0 && r.1 == [IntervalUpdated]
    ensures c.SetInterval? && c.value > 0 ==> r.0 == c.value
  {
    match c
    case Help => (interval, [HelpText])
    case SetInterval(v) => if v > 0 then (v, [IntervalUpdated]) else (interval, [InvalidInterval])
    case Time => (interval, [TimeReport])
    case Unknown => (interval, [UnknownCommand])
  }

  /** The dispatch order: exactly "help", then any line starting with
      "interval", then exactly "time", and anything else is unknown. */
  lemma Dispatch(cmd: string)
    ensures Classify(cmd) == Help <==> cmd == "help"
    ensures Classify(cmd).SetInterval? <==> "interval" <= cmd
    ensures Classify(cmd) == Time <==> cmd == "time"
    ensures Classify(cmd) == Unknown <==> cmd != "help" && cmd != "time" && !("interval" <= cmd)
  {
    if cmd == "help" || cmd == "time" {
      assert !("interval" <= cmd) by {
        assert cmd[0] != 'i';
      }
    }
  }

  /** The interval changes only to a positive number, with "Interval updated";
      any other number leaves it and answers "Invalid interval". */
  lemma IntervalOnlyPositive(cmd: string, interval: int)
    requires "interval" <= cmd
    ensures var v := Classify(cmd).value;
      Execute(Classify(cmd), interval) ==
        if v > 0 then (v, [IntervalUpdated]) else (interval, [InvalidInterval])
  {
    Dispatch(cmd);
  }

  /** A word with no white space in it is skipped whole, up to what follows. */
  lemma {:induction false} SkipWholeWord(s: string, tail: string)
    requires forall i :: 0 <= i < |s| ==> !IsSpace(s[i])
    requires tail == [] || IsSpace(tail[0])
    ensures SkipWord(s + tail) == tail
    decreases |s|
  {
    if s != [] {
      assert (s + tail)[1..] == s[1..] + tail;
      SkipWholeWord(s[1..], tail);
    }
  }

  lemma {:induction false} LeadingDigitsAll(d: string)
    requires Decimal.AllDigits(d)
    ensures LeadingDigits(d) == d
    decreases |d|
  {
    if d != [] {
      LeadingDigitsAll(d[1..]);
    }
  }

  lemma SkipSpacesPastOne(rest: string)
    ensures SkipSpaces(" " + rest) == SkipSpaces(rest)
  {
    assert (" " + rest)[1..] == rest;
  }

  /** After a word and one space, the rest of the command is what `>> value`
      converts. */
  lemma ExtractAfterWord(word: string, rest: string)
    requires word != [] && forall i :: 0 <= i < |word| ==> !IsSpace(word[i])
    ensures ExtractValue(word + " " + rest) ==
      if SkipSpaces(rest) == [] then Unset else Stored(ConvertInt(SkipSpaces(rest)))
  {
    var cmd := word + " " + rest;
    assert cmd == word + (" " + rest);
    assert cmd[0] == word[0];
    assert SkipSpaces(cmd) == cmd;
    SkipWholeWord(word, " " + rest);
    SkipSpacesPastOne(rest);
  }

  lemma IntervalHasNoSpace()
    ensures forall i :: 0 <= i < |"interval"| ==> !IsSpace("interval"[i])
  {
  }

  /** `>> value` reads back the decimal text of any n >= 0: n itself when it
      is at most INT_MAX, INT_MAX beyond. */
  lemma ConvertText(n: nat)
    ensures Decimal.Text(n) != [] && !IsSpace(Decimal.Text(n)[0])
    ensures ConvertInt(Decimal.Text(n)) == ClampToInt(n)
  {
    var digits := Decimal.Text(n);
    assert Decimal.IsDigit(digits[0]);
    LeadingDigitsAll(digits);
    Decimal.ValueOfText(n);
  }

  /** `>> value` reads "-" followed by the decimal text of n as -n when that is
      at least INT_MIN, and as INT_MIN beyond. */
  lemma ConvertNegativeText(n: nat)
    ensures ConvertInt("-" + Decimal.Text(n)) == ClampToInt(0 - n as int)
  {
    var digits := Decimal.Text(n);
    var s := "-" + digits;
    assert s[0] == '-' && s[1..] == digits;
    LeadingDigitsAll(digits);
    Decimal.ValueOfText(n);
  }

  /** "interval <n>" sets the interval to n, for every n in 1..INT_MAX. */
  lemma IntervalRoundTrip(n: nat)
    requires 0 < n <= INT_MAX
    ensures Classify("interval " + Decimal.Text(n)) == SetInterval(n)
  {
    var digits := Decimal.Text(n);
    ConvertText(n);
    assert SkipSpaces(digits) == digits;
    IntervalHasNoSpace();
    ExtractAfterWord("interval", digits);
    assert "interval " + digits == "interval" + " " + digits;
    assert "interval" <= "interval " + digits;
    Dispatch("interval " + digits);
  }

  /** With no white space after "interval", the value is never extracted. */
  lemma FusedNumberIsUnset(s: string)
    requires forall i :: 0 <= i < |s| ==> !IsSpace(s[i])
    ensures ExtractValue("interval" + s) == Unset
  {
    var cmd := "interval" + s;
    IntervalHasNoSpace();
    assert SkipSpaces(cmd) == cmd;
    assert forall i :: 0 <= i < |cmd| ==> !IsSpace(cmd[i]);
    SkipWholeWord(cmd, []);
    assert cmd + [] == cmd;
  }

  /** A word that is not a number after "interval " is read as 0 and refused. */
  lemma NonNumberRefused(s: string, interval: int)
    requires s != [] && !IsSpace(s[0]) && !Decimal.IsDigit(s[0])
    requires s[0] != '+' && s[0] != '-'
    ensures Execute(Classify("interval " + s), interval) == (interval, [InvalidInterval])
  {
    IntervalHasNoSpace();
    ExtractAfterWord("interval", s);
    assert "interval " + s == "interval" + " " + s;
    assert SkipSpaces(s) == s;
    assert LeadingDigits(s) == [];
    assert "interval" <= "interval " + s;
    Dispatch("interval " + s);
  }

  /** As written, "interval" with no number sets the interval to whatever
      `value` held: here 7. */
  lemma MissingNumberAsWritten()
    ensures ExtractValue("interval") == Unset
    ensures Execute(ClassifyAsWritten("interval", 7), DEFAULT_LED_INTERVAL_SEC) == (7, [IntervalUpdated])
  {
    FusedNumberIsUnset([]);
    assert "interval" + [] == "interval";
  }

  /** With value initialised, a command that gives no number is refused and
      leaves the interval as it was. */
  lemma MissingNumberRefused(cmd: string, interval: int)
    requires "interval" <= cmd && ExtractValue(cmd) == Unset
    ensures Execute(Classify(cmd), interval) == (interval, [InvalidInterval])
  {
    Dispatch(cmd);
  }

  // ---------------------------------------------------------------------------
  // The line editor

  /** What the line editor keeps: at most 100 characters, all printable ASCII. */
  predicate EditorInvariant(buffer: string)
  {
    |buffer| <= CMD_MAX_LEN && forall i :: 0 <= i < |buffer| ==> 32 <= buffer[i] as int <= 126
  }

  /** The state the UART task works on: the command line, the LED interval and
      what has been sent. */
  datatype Console = Console(cmdBuffer: string, ledIntervalSec: int, sent: seq<UartOut>)

  /** The UART task on one received byte. */
  function Step(st: Console, b: u8): (r: Console)
    ensures st.sent <= r.sent
    ensures EditorInvariant(st.cmdBuffer) ==> EditorInvariant(r.cmdBuffer)
  {
    if b == CR || b == LF then
      if st.cmdBuffer == [] then st
      else
        var (interval, reply) := Execute(Classify(st.cmdBuffer), st.ledIntervalSec);
        Console([], interval, st.sent + [NewLine] + reply + [Prompt])
    else
      var echoed := st.sent + [Echo(b)];
      if b == BACKSPACE || b == DEL then
        if st.cmdBuffer == [] then st.(sent := echoed)
        else Console(st.cmdBuffer[..|st.cmdBuffer| - 1], st.ledIntervalSec, echoed + [EraseLast])
      else if 32 <= b <= 126 && |st.cmdBuffer| < CMD_MAX_LEN then
        st.(cmdBuffer := st.cmdBuffer + [b as char], sent := echoed)
      else st.(sent := echoed)
  }

  /** The UART task on the bytes of successive reads */
  function StepAll(st: Console, bytes: seq<u8>): Console
    decreases |bytes|
  {
    if bytes == [] then st else Step(StepAll(st, bytes[..|bytes| - 1]), bytes[|bytes| - 1])
  }

  /** Every byte but CR and LF is echoed first, ignored control bytes included. */
  lemma EchoesAllButLineEnds(st: Console, b: u8)
    requires b != CR && b != LF
    ensures st.sent + [Echo(b)] <= Step(st, b).sent
  {
  }

  /** CR or LF hands exactly the line to the interpreter and clears it; on an
      empty line it does nothing at all. */
  lemma LineEndDispatches(st: Console, b: u8)
    requires b == CR || b == LF
    ensures st.cmdBuffer == [] ==> Step(st, b) == st
    ensures st.cmdBuffer != [] ==>
      var (interval, reply) := Execute(Classify(st.cmdBuffer), st.ledIntervalSec);
      Step(st, b) == Console([], interval, st.sent + [NewLine] + reply + [Prompt])
  {
  }

  /** Backspace and DEL remove exactly the last character and send "\b \b";
      on an empty line they only echo. */
  lemma BackspaceErases(st: Console, b: u8)
    requires b == BACKSPACE || b == DEL
    ensures st.cmdBuffer != [] ==>
      Step(st, b).cmdBuffer + [st.cmdBuffer[|st.cmdBuffer| - 1]] == st.cmdBuffer
      && Step(st, b).sent == st.sent + [Echo(b), EraseLast]
    ensures st.cmdBuffer == [] ==> Step(st, b) == st.(sent := st.sent + [Echo(b)])
  {
  }

  /** A printable byte is appended while the line is shorter than 100; any
      other byte leaves the line alone. */
  lemma PrintableAppends(st: Console, b: u8)
    requires b != CR && b != LF && b != BACKSPACE && b != DEL
    ensures Step(st, b).ledIntervalSec == st.ledIntervalSec
    ensures Step(st, b).cmdBuffer ==
      if 32 <= b <= 126 && |st.cmdBuffer| < CMD_MAX_LEN then st.cmdBuffer + [b as char] else st.cmdBuffer
  {
  }

  /** The editor invariant holds after any run of bytes. */
  lemma {:induction false} StepAllKeepsInvariant(st: Console, bytes: seq<u8>)
    requires EditorInvariant(st.cmdBuffer)
    ensures EditorInvariant(StepAll(st, bytes).cmdBuffer)
    decreases |bytes|
  {
    if bytes != [] {
      StepAllKeepsInvariant(st, bytes[..|bytes| - 1]);
    }
  }

  lemma StepAllStep(st: Console, bytes: seq<u8>, i: nat)
    requires i < |bytes|
    ensures StepAll(st, bytes[..i + 1]) == Step(StepAll(st, bytes[..i]), bytes[i])
  {
    assert bytes[..i + 1][..i] == bytes[..i];
  }

  // ---------------------------------------------------------------------------
  // The UART task's globals and its operations

  class UartTask {
    var cmdBuffer: string
    var ledIntervalSec: int
    var sent: seq<UartOut>

    ghost function State(): Console
      reads this
    {
      Console(cmdBuffer, ledIntervalSec, sent)
    }

    ghost predicate Valid()
      reads this
    {
      EditorInvariant(cmdBuffer)
    }

    constructor ()
      ensures Valid() && cmdBuffer == [] && ledIntervalSec == DEFAULT_LED_INTERVAL_SEC && sent == []
    {
      cmdBuffer, ledIntervalSec, sent := [], DEFAULT_LED_INTERVAL_SEC, [];
    }

    /** What the UART task sends before its first read */
    method Start()
      modifies this
      ensures cmdBuffer == old(cmdBuffer) && ledIntervalSec == old(ledIntervalSec)
      ensures sent == old(sent) + [Banner]
    {
      sent := sent + [Banner];
    }

    /** processCommand */
    method ProcessCommand(cmd: string)
      modifies this
      ensures cmdBuffer == old(cmdBuffer)
      ensures ledIntervalSec == Execute(Classify(cmd), old(ledIntervalSec)).0
      ensures sent == old(sent) + Execute(Classify(cmd), old(ledIntervalSec)).1
    {
      if cmd == "help" {
        sent := sent + [HelpText];
      } else if "interval" <= cmd {
        var value := IntervalValue(cmd);
        if value > 0 {
          ledIntervalSec := value;
          sent := sent + [IntervalUpdated];
        } else {
          sent := sent + [InvalidInterval];
        }
      } else if cmd == "time" {
        sent := sent + [TimeReport];
      } else {
        sent := sent + [UnknownCommand];
      }
    }

    /** The body of the loop over the bytes of a read. */
    method HandleByte(b: u8)
      requires Valid()
      modifies this
      ensures Valid() && State() == Step(old(State()), b)
    {
      if b != CR && b != LF {
        sent := sent + [Echo(b)];
      }
      if b == CR || b == LF {
        if cmdBuffer != [] {
          sent := sent + [NewLine];
          ProcessCommand(cmdBuffer);
          cmdBuffer := [];
          sent := sent + [Prompt];
        }
      } else if b == BACKSPACE || b == DEL {
        if cmdBuffer != [] {
          cmdBuffer := cmdBuffer[..|cmdBuffer| - 1];
          sent := sent + [EraseLast];
        }
      } else if 32 <= b <= 126 {
        if |cmdBuffer| < CMD_MAX_LEN {
          cmdBuffer := cmdBuffer + [b as char];
        }
      }
    }

    /** One read of up to 64 bytes, handled byte by byte. */
    method HandleRead(bytes: seq<u8>)
      requires Valid() && |bytes| <= READ_BUFFER_SIZE
      modifies this
      ensures Valid() && State() == StepAll(old(State()), bytes)
    {
      ghost var start := State();
      assert bytes[..0] == [];
      for i := 0 to |bytes|
        invariant Valid() && State() == StepAll(start, bytes[..i])
      {
        StepAllStep(start, bytes, i);
        HandleByte(bytes[i]);
      }
      assert bytes[..|bytes|] == bytes;
    }

    /** inactivityCallback: "[Inactive]" is sent and the line is dropped. */
    method InactivityCallback()
      modifies this
      ensures Valid() && cmdBuffer == [] && ledIntervalSec == old(ledIntervalSec)
      ensures sent == old(sent) + [Inactive]
    {
      sent := sent + [Inactive];
      cmdBuffer := [];
    }
  }
}
