/** The deferred debug logger. Producers, in tasks or in interrupt handlers,
    capture a template, three numbers and the tick count, and queue them without
    ever blocking; a single print task takes the events in order, renders each
    into a 256-byte line that always ends in a newline, and is the only code
    that writes to stdout. */
module DebugLog {

  import opened CTypes
  import opened Arith
  import opened Seqs
  import Decimal
  import BoundedQueue

  /** Default arguments of debug_init */
  const DEFAULT_QUEUE_LEN: nat := 32
  const DEFAULT_TASK_STACK_WORDS: nat := 512

  /** sizeof(line) in the print task */
  const LINE_SIZE: nat := 256

  /** data[0..2] of an event */
  type Data3 = s: seq<u32> | |s| == 3 witness [0, 0, 0]

  /** One deferred record; `format` is the text the template pointer designates. */
  datatype DebugEvent = DebugEvent(format: string, data: Data3, tsTicks: u32)

  // ---------------------------------------------------------------------------
  // Rendering, as functions

  /** What printf makes of a template whose conversions are all %u. The template
      is a C string, so it ends at its first NUL. A %u takes the next number;
      one past the last number (undefined in C) produces nothing. */
  function Interpolate(format: string, args: seq<u32>): (text: string)
    ensures '\0' !in text
    decreases |format|
  {
    if format == [] || format[0] == '\0' then []
    else if format[0] == '%' && |format| >= 2 && format[1] == 'u' then
      var field := if args == [] then [] else Decimal.Text(args[0] as nat);
      assert '\0' !in field by {
        if args != [] {
          forall i | 0 <= i < |field| ensures field[i] != '\0' {
            assert Decimal.IsDigit(field[i]);
          }
        }
      }
      field + Interpolate(format[2..], if args == [] then [] else args[1..])
    else [format[0]] + Interpolate(format[1..], args)
  }

  /** The "[%lu] " timestamp prefix: at most 13 characters for a 32-bit tick count. */
  function Prefix(ticks: u32): (p: string)
    ensures 4 <= |p| <= 13 && '\0' !in p
  {
    Decimal.TextLength32(ticks as nat);
    var digits := Decimal.Text(ticks as nat);
    assert '\0' !in digits by {
      forall i | 0 <= i < |digits| ensures digits[i] != '\0' {
        assert Decimal.IsDigit(digits[i]);
      }
    }
    "[" + digits + "] "
  }

  /** The characters snprintf stores from `text` into `size` bytes (ISO C11
      section 7.21.6.5): at most size - 1 of them, the NUL taking the last byte. */
  function Fit(text: string, size: nat): (r: string)
    requires size >= 1
    ensures |r| == Min(|text|, size - 1) && r <= text
  {
    text[..Min(|text|, size - 1)]
  }

  /** The fix-up after strnlen, on the L < 256 characters before the NUL: a line
      that does not end in a newline gets one at L when the NUL still fits after
      it, and otherwise over its last character, at index 254. */
  function EnsureNewline(s: string): (r: string)
    requires |s| < LINE_SIZE
    ensures 1 <= |r| < LINE_SIZE && r[|r| - 1] == '\n'
    ensures r[..|r| - 1] <= s
  {
    if |s| > 0 && s[|s| - 1] == '\n' then s
    else if |s| + 1 < LINE_SIZE then s + "\n"
    else s[..LINE_SIZE - 2] + "\n"
  }

  /** The message an event asks for: its timestamp prefix, then its template
      with the three numbers filled in. */
  function Message(e: DebugEvent): (m: string)
    ensures Prefix(e.tsTicks) <= m && '\0' !in m
  {
    Prefix(e.tsTicks) + Interpolate(e.format, e.data)
  }

  /** The line the print task writes for an event. */
  function RenderLine(e: DebugEvent): (r: string)
    ensures 1 <= |r| < LINE_SIZE && r[|r| - 1] == '\n'
    ensures r[..|r| - 1] <= Message(e)
  {
    EnsureNewline(Fit(Message(e), LINE_SIZE))
  }

  /** Every line ends in a newline and, with its NUL, fits in the 256 bytes. */
  lemma LineIsTerminated(e: DebugEvent)
    ensures var r := RenderLine(e);
      1 <= |r| < LINE_SIZE && r[|r| - 1] == '\n' && '\0' !in r
  {
    var s := Fit(Message(e), LINE_SIZE);
    assert '\0' !in Message(e);
    assert '\0' !in s by {
      forall i | 0 <= i < |s| ensures s[i] != '\0' {
        assert s[i] == Message(e)[i];
      }
    }
    var r := RenderLine(e);
    assert '\0' !in r by {
      forall i | 0 <= i < |r| ensures r[i] != '\0' {
        if i < |r| - 1 || (|s| > 0 && s[|s| - 1] == '\n') {
          assert r[i] == s[i];
        }
      }
    }
  }

  /** Every line starts with the tick count captured when the event was queued. */
  lemma LineStartsWithTimestamp(e: DebugEvent)
    ensures "[" + Decimal.Text(e.tsTicks as nat) + "] " <= RenderLine(e)
  {
    var p := Prefix(e.tsTicks);
    var s := Fit(Message(e), LINE_SIZE);
    assert p <= s;
    assert |p| <= LINE_SIZE - 2;
  }

  /** A message of at most 254 characters is printed whole: unchanged when it
      already ends in a newline, with one newline added when it does not. One of
      exactly 255 characters without a final newline loses its last character
      to the newline. */
  lemma ShortLineIsWhole(e: DebugEvent)
    requires |Message(e)| < LINE_SIZE
    ensures var m := Message(e);
      RenderLine(e) == if |m| > 0 && m[|m| - 1] == '\n' then m
                       else if |m| < LINE_SIZE - 1 then m + "\n"
                       else m[..LINE_SIZE - 2] + "\n"
  {
    assert Fit(Message(e), LINE_SIZE) == Message(e);
  }

  /** A message that fills the buffer is cut: its first 254 characters, then the
      newline at index 254 (the NUL goes at index 255). */
  lemma LongLineIsCut(e: DebugEvent)
    requires |Message(e)| >= LINE_SIZE - 1
    ensures var r := RenderLine(e);
      |r| == LINE_SIZE - 1 && r[LINE_SIZE - 2] == '\n' && r[..LINE_SIZE - 2] == Message(e)[..LINE_SIZE - 2]
  {
  }

  /** A template without conversions and NULs is printed as it is. */
  lemma {:induction false} PlainTemplate(format: string, args: seq<u32>)
    requires '%' !in format && '\0' !in format
    ensures Interpolate(format, args) == format
    decreases |format|
  {
    if format != [] {
      assert format[0] != '%' && format[0] != '\0';
      PlainTemplate(format[1..], args);
      assert format == [format[0]] + format[1..];
    }
  }

  /** Plain text, then a %u: the text is copied and the %u takes the first
      number; the rest of the template goes on with the remaining numbers. */
  lemma {:induction false} LeadingField(text: string, rest: string, args: seq<u32>)
    requires '%' !in text && '\0' !in text && args != []
    ensures Interpolate(text + "%u" + rest, args) ==
      text + Decimal.Text(args[0] as nat) + Interpolate(rest, args[1..])
    decreases |text|
  {
    if text == [] {
      assert ("%u" + rest)[2..] == rest;
    } else {
      var t := text + "%u" + rest;
      assert t[0] == text[0] && t[1..] == text[1..] + "%u" + rest;
      assert Interpolate(t, args) == [text[0]] + Interpolate(t[1..], args);
      LeadingField(text[1..], rest, args);
      assert text == [text[0]] + text[1..];
    }
  }

  /** A template with one %u between plain text prints the text around the
      first number. */
  lemma SingleField(text: string, tail: string, args: seq<u32>)
    requires '%' !in text && '\0' !in text && '%' !in tail && '\0' !in tail && args != []
    ensures Interpolate(text + "%u" + tail, args) == text + Decimal.Text(args[0] as nat) + tail
  {
    LeadingField(text, tail, args);
    PlainTemplate(tail, args[1..]);
  }

  /** Regrouping seven pieces around the second and the fourth */
  lemma Regroup(x1: string, x2: string, x3: string, x4: string, x5: string, x6: string, x7: string)
    ensures x1 + x2 + x3 + x4 + x5 + x6 + x7 == x1 + x2 + (x3 + x4 + (x5 + x6 + x7))
  {
    var c := x1 + x2 + x3 + x4;
    var r := x5 + x6 + x7;
    AppendAssoc(c, x5, x6);
    AppendAssoc(c, x5 + x6, x7);
    AppendAssoc(x1 + x2 + x3, x4, r);
    AppendAssoc(x1 + x2, x3, x4 + r);
    AppendAssoc(x3, x4, r);
  }

  /** The documented template shape, three %u between plain texts: the three
      numbers appear in order, d1 first. */
  lemma ThreeFields(t0: string, t1: string, t2: string, t3: string, a: u32, b: u32, c: u32)
    requires '%' !in t0 && '\0' !in t0 && '%' !in t1 && '\0' !in t1
    requires '%' !in t2 && '\0' !in t2 && '%' !in t3 && '\0' !in t3
    ensures Interpolate(t0 + "%u" + t1 + "%u" + t2 + "%u" + t3, [a, b, c]) ==
      t0 + Decimal.Text(a as nat) + t1 + Decimal.Text(b as nat) + t2 + Decimal.Text(c as nat) + t3
  {
    var d1, d2, d3 := Decimal.Text(a as nat), Decimal.Text(b as nat), Decimal.Text(c as nat);
    var r2 := t2 + "%u" + t3;
    var r1 := t1 + "%u" + r2;
    Regroup(t0, "%u", t1, "%u", t2, "%u", t3);
    Regroup(t0, d1, t1, d2, t2, d3, t3);
    assert Interpolate(r2, [c]) == t2 + d3 + t3 by {
      LeadingField(t2, t3, [c]);
      assert [c][1..] == [];
      PlainTemplate(t3, []);
    }
    assert Interpolate(r1, [b, c]) == t1 + d2 + (t2 + d3 + t3) by {
      LeadingField(t1, r2, [b, c]);
      assert [b, c][1..] == [c];
    }
    assert Interpolate(t0 + "%u" + r1, [a, b, c]) == t0 + d1 + (t1 + d2 + (t2 + d3 + t3)) by {
      LeadingField(t0, r1, [a, b, c]);
      assert [a, b, c][1..] == [b, c];
    }
  }

  // ---------------------------------------------------------------------------
  // The C library calls of the print task, on the line buffer

  /** snprintf(buf + offset, size, ...) where `text` is what the conversion
      produces: the first size - 1 characters at most, then a NUL; nothing else
      changes, and the result is the length the whole text would take. */
  method Snprintf(buf: array<char>, offset: nat, size: nat, text: string) returns (n: int)
    requires offset + size <= buf.Length
    modifies buf
    ensures n == |text|
    ensures size == 0 ==> buf[..] == old(buf[..])
    ensures size >= 1 ==>
      var w := Fit(text, size);
      && buf[offset..offset + |w|] == w && buf[offset + |w|] == '\0'
      && buf[..offset] == old(buf[..offset])
      && buf[offset + |w| + 1..] == old(buf[offset + |w| + 1..])
  {
    n := |text|;
    if size == 0 {
      return;
    }
    var k := Min(|text|, size - 1);
    var i := 0;
    while i < k
      invariant 0 <= i <= k
      invariant buf[offset..offset + i] == text[..i]
      invariant buf[..offset] == old(buf[..offset])
      invariant buf[offset + i..] == old(buf[offset + i..])
    {
      buf[offset + i] := text[i];
      i := i + 1;
    }
    buf[offset + k] := '\0';
  }

  /** strnlen(s, maxLen): the index of the first NUL, or maxLen when there is
      none among the first maxLen characters. */
  method StrNLen(s: array<char>, maxLen: nat) returns (len: nat)
    requires maxLen <= s.Length
    ensures len <= maxLen && '\0' !in s[..len]
    ensures len < maxLen ==> s[len] == '\0'
  {
    len := 0;
    while len < maxLen && s[len] != '\0'
      invariant len <= maxLen && '\0' !in s[..len]
    {
      len := len + 1;
    }
  }

  /** The first part of a rendering: the "[ticks] " prefix, its length n
      clamped into [0, 255], then the message written at line + n into the
      256 - n bytes left. The line then holds the message cut to 255
      characters, followed by a NUL. */
  method WriteMessage(line: array<char>, e: DebugEvent)
    requires line.Length == LINE_SIZE
    modifies line
    ensures var s := Fit(Message(e), LINE_SIZE); line[..|s|] == s && line[|s|] == '\0'
  {
    var p := Prefix(e.tsTicks);
    var u := Interpolate(e.format, e.data);
    var n := Snprintf(line, 0, LINE_SIZE, p);
    if n < 0 {
      n := 0;
    }
    if n >= LINE_SIZE {
      n := LINE_SIZE - 1;
    }
    assert n == |p| && line[..n] == p;
    var written := Snprintf(line, n, LINE_SIZE - n, u);
    assert Fit(p + u, LINE_SIZE) == p + Fit(u, LINE_SIZE - n);
  }

  /** The second part: strnlen, then the newline fix-up. Given a line holding
      `s` and its NUL, the line ends up holding EnsureNewline(s) and its NUL. */
  method TerminateLine(line: array<char>, ghost s: string)
    requires line.Length == LINE_SIZE && |s| < LINE_SIZE && '\0' !in s
    requires line[..|s|] == s && line[|s|] == '\0'
    modifies line
    ensures var r := EnsureNewline(s); line[..|r|] == r && line[|r|] == '\0'
  {
    var len := StrNLen(line, LINE_SIZE);
    assert len == |s|;
    if len == 0 || line[len - 1] != '\n' {
      if len + 1 < LINE_SIZE {
        line[len] := '\n';
        line[len + 1] := '\0';
        assert line[..len + 1] == s + "\n";
      } else {
        line[LINE_SIZE - 2] := '\n';
        line[LINE_SIZE - 1] := '\0';
        assert line[..LINE_SIZE - 1] == s[..LINE_SIZE - 2] + "\n";
      }
    }
  }

  /** One rendering by the print task: the line is left holding RenderLine(e),
      followed by its NUL. */
  method FormatLine(line: array<char>, e: DebugEvent)
    requires line.Length == LINE_SIZE
    modifies line
    ensures var r := RenderLine(e); line[..|r|] == r && line[|r|] == '\0'
  {
    WriteMessage(line, e);
    ghost var s := Fit(Message(e), LINE_SIZE);
    assert '\0' !in s by {
      forall i | 0 <= i < |s| ensures s[i] != '\0' {
        assert s[i] == Message(e)[i];
      }
    }
    TerminateLine(line, s);
  }

  // ---------------------------------------------------------------------------
  // The logger state and its operations

  /** The logger: the s_queue handle (created or not, with the length it was
      created with and the events it holds), the print task, and stdout. */
  class Logger {
    /** s_queue != nullptr */
    var queueCreated: bool
    /** the length s_queue was created with */
    var capacity: nat
    /** the events waiting in s_queue, oldest first */
    var queue: seq<DebugEvent>
    /** whether the print task was created, and its stack in words */
    var printTaskCreated: bool
    var printTaskStackWords: nat
    /** everything written to stdout */
    var stdout: string

    ghost predicate Valid()
      reads this
    {
      && |queue| <= capacity
      && (!queueCreated ==> queue == [] && !printTaskCreated)
    }

    /** The state before debug_init: no queue, no print task. */
    constructor ()
      ensures Valid() && !queueCreated && !printTaskCreated && queue == [] && stdout == []
    {
      queueCreated, capacity, queue := false, 0, [];
      printTaskCreated, printTaskStackWords := false, 0;
      stdout := [];
    }

    /** debug_init. `queueAllocated` and `taskSpawned` stand for the outcomes of
        xQueueCreate and xTaskCreate. A second call, once the queue exists,
        reports success and creates nothing; so does a call after a first one
        whose task creation failed, which leaves the queue without a print task. */
    method Init(queueAllocated: bool, taskSpawned: bool,
                queueLen: nat := DEFAULT_QUEUE_LEN, taskStackWords: nat := DEFAULT_TASK_STACK_WORDS)
      returns (ok: bool)
      requires Valid()
      modifies this
      ensures Valid() && stdout == old(stdout)
      ensures old(queueCreated) ==> ok && unchanged(this)
      ensures !old(queueCreated) && !queueAllocated ==> !ok && unchanged(this)
      ensures !old(queueCreated) && queueAllocated ==>
        && queueCreated && capacity == queueLen && queue == []
        && ok == taskSpawned && printTaskCreated == taskSpawned
        && printTaskStackWords == if taskSpawned then taskStackWords else old(printTaskStackWords)
    {
      if queueCreated {
        return true;
      }
      if !queueAllocated {
        return false;
      }
      queueCreated, capacity, queue := true, queueLen, [];
      if taskSpawned {
        printTaskCreated, printTaskStackWords := true, taskStackWords;
      }
      ok := taskSpawned;
    }

    /** debug, with `now` the tick count at the call: ignored before
        debug_init; otherwise the event goes to the back of the queue, or is
        dropped when the queue is full. It never writes to stdout. */
    method Debug(format: string, d1: u32, d2: u32, d3: u32, now: u32)
      requires Valid()
      modifies this
      ensures Valid()
      ensures !old(queueCreated) ==> unchanged(this)
      ensures queueCreated == old(queueCreated) && capacity == old(capacity)
      ensures printTaskCreated == old(printTaskCreated) && stdout == old(stdout)
      ensures printTaskStackWords == old(printTaskStackWords)
      ensures old(queueCreated) && |old(queue)| < capacity ==>
        queue == old(queue) + [DebugEvent(format, [d1, d2, d3], now)]
      ensures |old(queue)| >= capacity ==> queue == old(queue)
    {
      if !queueCreated {
        return;
      }
      var e := DebugEvent(format, [d1, d2, d3], now);
      var (q, _) := BoundedQueue.Send(queue, capacity, e);
      queue := q;
    }

    /** debug_from_isr: the same as Debug, with `now` read by the interrupt-safe
        tick count and the interrupt-safe send. */
    method DebugFromIsr(format: string, d1: u32, d2: u32, d3: u32, now: u32)
      requires Valid()
      modifies this
      ensures Valid()
      ensures !old(queueCreated) ==> unchanged(this)
      ensures queueCreated == old(queueCreated) && capacity == old(capacity)
      ensures printTaskCreated == old(printTaskCreated) && stdout == old(stdout)
      ensures printTaskStackWords == old(printTaskStackWords)
      ensures old(queueCreated) && |old(queue)| < capacity ==>
        queue == old(queue) + [DebugEvent(format, [d1, d2, d3], now)]
      ensures |old(queue)| >= capacity ==> queue == old(queue)
    {
      if !queueCreated {
        return;
      }
      var e := DebugEvent(format, [d1, d2, d3], now);
      var (q, _) := BoundedQueue.Send(queue, capacity, e);
      queue := q;
    }

    /** One turn of the print task's loop: a receive that gets nothing changes
        nothing; otherwise the oldest event leaves the queue, is rendered into
        `line` and the line is written to stdout. */
    method PrintNext(line: array<char>) returns (received: bool)
      requires Valid() && printTaskCreated && line.Length == LINE_SIZE
      modifies this, line
      ensures Valid() && queueCreated && printTaskCreated && capacity == old(capacity)
      ensures printTaskStackWords == old(printTaskStackWords)
      ensures received <==> old(queue) != []
      ensures !received ==> queue == old(queue) && stdout == old(stdout)
      ensures received ==>
        queue == old(queue)[1..] && stdout == old(stdout) + RenderLine(old(queue)[0])
    {
      if queue == [] {
        return false;
      }
      var e := queue[0];
      queue := queue[1..];
      received := true;
      FormatLine(line, e);
      ghost var r := RenderLine(e);
      LineIsTerminated(e);
      var end := StrNLen(line, LINE_SIZE);
      assert end == |r| by {
        assert line[..|r|] == r;
      }
      stdout := stdout + line[..end];
    }
  }

  /** How the first event of the scenario below is printed. */
  lemma ScenarioLineX()
    ensures RenderLine(DebugEvent("x=%u\n", [5, 0, 0], 10)) == "[10] x=5\n"
  {
    var e := DebugEvent("x=%u\n", [5, 0, 0], 10);
    assert Prefix(10) == "[10] " by {
      assert Decimal.Text(10) == "10";
    }
    assert Interpolate(e.format, e.data) == "x=5\n" by {
      assert Decimal.Text(5) == "5";
      assert "x=%u\n" == "x=" + "%u" + "\n";
      SingleField("x=", "\n", [5, 0, 0]);
    }
    assert Message(e) == "[10] x=5\n";
    ShortLineIsWhole(e);
  }

  /** How the second event of the scenario below is printed. */
  lemma ScenarioLineY()
    ensures RenderLine(DebugEvent("y=%u\n", [7, 0, 0], 11)) == "[11] y=7\n"
  {
    var e := DebugEvent("y=%u\n", [7, 0, 0], 11);
    assert Prefix(11) == "[11] " by {
      assert Decimal.Text(11) == "11";
    }
    assert Interpolate(e.format, e.data) == "y=7\n" by {
      assert Decimal.Text(7) == "7";
      assert "y=%u\n" == "y=" + "%u" + "\n";
      SingleField("y=", "\n", [7, 0, 0]);
    }
    assert Message(e) == "[11] y=7\n";
    ShortLineIsWhole(e);
  }

  /** Three events sent back to back into a queue of length 2 with no receive
      in between: the third is dropped and the other two wait in the order they
      were sent (ScenarioLineX and ScenarioLineY give the lines they print). */
  method DropWhenFull() returns (queued: seq<DebugEvent>)
    ensures queued == [DebugEvent("x=%u\n", [5, 0, 0], 10), DebugEvent("y=%u\n", [7, 0, 0], 11)]
  {
    var log := new Logger();
    var ok := log.Init(true, true, queueLen := 2);
    log.Debug("x=%u\n", 5, 0, 0, 10);
    log.Debug("y=%u\n", 7, 0, 0, 11);
    log.Debug("z=%u\n", 9, 0, 0, 12);
    queued := log.queue;
  }

  /** debug_init retried after a failed task creation: the first call fails,
      the second reports success although no print task exists. */
  method InitRetry() returns (first: bool, second: bool, printing: bool)
    ensures !first && second && !printing
  {
    var log := new Logger();
    first := log.Init(true, false);
    second := log.Init(true, true);
    printing := log.printTaskCreated;
  }

  /** Calls before debug_init leave the logger as it was; debug_init with the
      default arguments makes a queue of 32 and a task of 512 words. */
  method DefaultInit() returns (queued: nat, capacity: nat, stackWords: nat)
    ensures queued == 0 && capacity == 32 && stackWords == 512
  {
    var log := new Logger();
    log.Debug("early\n", 0, 0, 0, 0);
    log.DebugFromIsr("early\n", 0, 0, 0, 0);
    var ok := log.Init(true, true);
    queued, capacity, stackWords := |log.queue|, log.capacity, log.printTaskStackWords;
  }
}
