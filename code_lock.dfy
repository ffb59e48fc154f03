/** The code lock: three buttons enter the digits 0, 1 and 2, a reader task per
    button turns presses into digits on a shared queue, and the processing task
    runs a state machine that opens the lock on the code 0 0 2 1 2. */
module CodeLock {

  import opened CTypes
  import BoundedQueue
  import opened Seqs

  /** The button pins, for the digits 0, 1 and 2 */
  const BUTTON_PINS: seq<u32> := [7, 8, 9]

  /** Length of the press queue */
  const BUTTON_QUEUE_LEN: nat := 10

  /** The code, one digit per state that waits for it */
  const CODE: seq<u32> := [0, 0, 2, 1, 2]

  datatype LockState = Start | W1 | W2 | W3 | W4 | Open

  /** The lines the processing task prints */
  datatype Message =
    | Entered(state: LockState)
    | WrongDigitStaying
    | WrongDigitReturning
    | LockOpened
    | ReturningToStart
    | TimedOut

  /** The text of each line */
  function MessageText(m: Message): string
  {
    match m
    case Entered(s) =>
      "State: " + (match s
                   case W1 => "W1" case W2 => "W2" case W3 => "W3" case W4 => "W4"
                   case Start => "START" case Open => "OPEN") + "\n"
    case WrongDigitStaying => "Wrong digit, staying in START\n"
    case WrongDigitReturning => "Wrong digit, returning to START\n"
    case LockOpened => "LOCK OPENED!\n"
    case ReturningToStart => "Returning to START\n"
    case TimedOut => "Timeout, returning to START\n"
  }

  datatype Option<T> = None | Some(value: T)

  // ---------------------------------------------------------------------------
  // Button reader

  /** A sampled pin level: 1 is released (pull-up), 0 is pressed. */
  type Level = x: nat | x <= 1

  /** buttonPin - BUTTON_PINS[0], in 32-bit unsigned arithmetic */
  function PinToDigit(pin: u32): (digit: u32)
    ensures (digit as int + BUTTON_PINS[0] as int) % 0x1_0000_0000 == pin as int
  {
    ((pin as int - BUTTON_PINS[0] as int) % 0x1_0000_0000) as u32
  }

  /** The three buttons give the digits 0, 1 and 2. */
  lemma PinsGiveDigits()
    ensures forall i :: 0 <= i < |BUTTON_PINS| ==> PinToDigit(BUTTON_PINS[i]) == i as u32
  {
  }

  /** A press is reported when the level goes from 1 to 0. */
  predicate IsPress(last: Level, level: Level)
  {
    level == 0 && last == 1
  }

  /** The number of presses a reader reports over successive samples, starting
      from the level `last`. */
  function Presses(last: Level, levels: seq<Level>): (n: nat)
    ensures n <= (|levels| + last) / 2
    decreases |levels|
  {
    if levels == [] then 0
    else (if IsPress(last, levels[0]) then 1 else 0) + Presses(levels[0], levels[1..])
  }

  /** The level remembered after a run of samples */
  function LastLevel(last: Level, levels: seq<Level>): Level
  {
    if levels == [] then last else levels[|levels| - 1]
  }

  /** Holding a button down produces exactly one press, and none when it was
      already down. */
  lemma {:induction false} HeldDownOnce(last: Level, levels: seq<Level>)
    requires levels != [] && forall i :: 0 <= i < |levels| ==> levels[i] == 0
    ensures Presses(last, levels) == if last == 1 then 1 else 0
    decreases |levels|
  {
    if |levels| > 1 {
      HeldDownOnce(levels[0], levels[1..]);
    }
  }

  /** A released button produces no press. */
  lemma {:induction false} ReleasedNone(last: Level, levels: seq<Level>)
    requires forall i :: 0 <= i < |levels| ==> levels[i] == 1
    ensures Presses(last, levels) == 0
    decreases |levels|
  {
    if levels != [] {
      ReleasedNone(levels[0], levels[1..]);
    }
  }

  /** Presses add up over consecutive runs of samples. */
  lemma {:induction false} PressesSplit(last: Level, a: seq<Level>, b: seq<Level>)
    ensures Presses(last, a + b) == Presses(last, a) + Presses(LastLevel(last, a), b)
    decreases |a|
  {
    if a == [] {
      assert a + b == b;
    } else {
      assert (a + b)[0] == a[0] && (a + b)[1..] == a[1..] + b;
      PressesSplit(a[0], a[1..], b);
      assert LastLevel(a[0], a[1..]) == LastLevel(last, a);
    }
  }

  /** The press queue, shared by the three readers and the processing task. */
  class PressQueue {
    var items: seq<u32>

    ghost predicate Valid()
      reads this
    {
      |items| <= BUTTON_QUEUE_LEN
    }

    constructor ()
      ensures Valid() && items == []
    {
      items := [];
    }

    /** xQueueSend with zero wait: the digit is appended, or dropped when ten
        are already waiting. */
    method Send(digit: u32) returns (ok: bool)
      requires Valid()
      modifies this
      ensures Valid() && ok == (|old(items)| < BUTTON_QUEUE_LEN)
      ensures items == if ok then old(items) + [digit] else old(items)
    {
      BoundedQueue.SendBounded(items, BUTTON_QUEUE_LEN, digit);
      var (q, sent) := BoundedQueue.Send(items, BUTTON_QUEUE_LEN, digit);
      items, ok := q, sent;
    }

    /** xQueueReceive: the oldest digit, or None when the wait ran out. */
    method Receive() returns (r: Option<u32>)
      requires Valid()
      modifies this
      ensures Valid()
      ensures old(items) == [] ==> r == None && items == []
      ensures old(items) != [] ==> r == Some(old(items)[0]) && items == old(items)[1..]
    {
      if items == [] {
        return None;
      }
      r := Some(items[0]);
      items := items[1..];
    }
  }

  /** One button reader task: its pin and the level it saw last. */
  class ButtonReader {
    const buttonPin: u32
    var lastButtonState: Level

    /** A reader starts assuming the button is up. */
    constructor (pin: u32)
      ensures buttonPin == pin && lastButtonState == 1
    {
      buttonPin := pin;
      lastButtonState := 1;
    }

    /** One sample: on a 1 to 0 change the button's digit is sent to the queue;
        the sampled level is remembered either way. */
    method Poll(level: Level, queue: PressQueue)
      requires queue.Valid()
      modifies this, queue
      ensures queue.Valid() && lastButtonState == level
      ensures IsPress(old(lastButtonState), level) && |old(queue.items)| < BUTTON_QUEUE_LEN ==>
        queue.items == old(queue.items) + [PinToDigit(buttonPin)]
      ensures !IsPress(old(lastButtonState), level) || |old(queue.items)| >= BUTTON_QUEUE_LEN ==>
        queue.items == old(queue.items)
    {
      if level == 0 && lastButtonState == 1 {
        var sent := queue.Send(PinToDigit(buttonPin));
      }
      lastButtonState := level;
    }
  }

  // ---------------------------------------------------------------------------
  // The state machine

  /** What one press does: the state after the switch, whether the lock was
      opened on the way, and the text printed. */
  datatype Outcome = Outcome(state: LockState, unlocked: bool, output: seq<Message>)

  /** The switch of the processing task on a received digit. OPEN is left for
      START within the same case, after the lock has been held open. */
  function Transition(s: LockState, digit: u32): (r: Outcome)
    ensures r.state != Open
    ensures r.unlocked ==> s == W4
  {
    match s
    case Start =>
      if digit == 0 then Outcome(W1, false, [Entered(W1)])
      else Outcome(Start, false, [WrongDigitStaying])
    case W1 =>
      if digit == 0 then Outcome(W2, false, [Entered(W2)])
      else Outcome(Start, false, [WrongDigitReturning])
    case W2 =>
      if digit == 2 then Outcome(W3, false, [Entered(W3)])
      else Outcome(Start, false, [WrongDigitReturning])
    case W3 =>
      if digit == 1 then Outcome(W4, false, [Entered(W4)])
      else Outcome(Start, false, [WrongDigitReturning])
    case W4 =>
      if digit == 2 then Outcome(Start, true, [LockOpened, ReturningToStart])
      else Outcome(Start, false, [WrongDigitReturning])
    case Open =>
      Outcome(Start, false, [])
  }

  /** How many digits of the code a state has seen */
  function Progress(s: LockState): nat
  {
    match s
    case Start => 0
    case W1 => 1
    case W2 => 2
    case W3 => 3
    case W4 => 4
    case Open => 5
  }

  /** The state that has seen k digits of the code */
  function Waiting(k: nat): LockState
    requires k <= 4
  {
    [Start, W1, W2, W3, W4][k]
  }

  /** The switch agrees with the code: the right digit advances by one (the
      fifth opens the lock and goes back to START), any other digit goes back
      to START; an OPEN state goes to START whatever the digit. */
  lemma TransitionFollowsCode(s: LockState, digit: u32)
    ensures s != Open ==>
      var k := Progress(s);
      && Transition(s, digit).unlocked == (k == 4 && digit == CODE[4])
      && Transition(s, digit).state == if k < 4 && digit == CODE[k] then Waiting(k + 1) else Start
    ensures s == Open ==> Transition(s, digit).state == Start && !Transition(s, digit).unlocked
  {
  }

  /** The state after a run of digits */
  function Run(s: LockState, digits: seq<u32>): LockState
    decreases |digits|
  {
    if digits == [] then s
    else Transition(Run(s, digits[..|digits| - 1]), digits[|digits| - 1]).state
  }

  /** From START, the state has seen the last Progress digits pressed, and they
      are the beginning of the code. */
  lemma {:induction false} RunRemembersCode(digits: seq<u32>)
    ensures var k := Progress(Run(Start, digits));
      k <= 4 && k <= |digits| && digits[|digits| - k..] == CODE[..k]
    decreases |digits|
  {
    if digits != [] {
      var init := digits[..|digits| - 1];
      RunRemembersCode(init);
      var s := Run(Start, init);
      var d := digits[|digits| - 1];
      var k := Progress(s);
      TransitionFollowsCode(s, d);
      if k < 4 && d == CODE[k] {
        assert digits[|digits| - (k + 1)..] == init[|init| - k..] + [d];
        assert CODE[..k + 1] == CODE[..k] + [CODE[k]];
      }
    }
  }

  /** The lock opens only when the last five digits pressed are the code. */
  lemma OpensOnlyOnCode(digits: seq<u32>, d: u32)
    requires Transition(Run(Start, digits), d).unlocked
    ensures |digits| >= 4 && digits[|digits| - 4..] + [d] == CODE
  {
    RunRemembersCode(digits);
    TransitionFollowsCode(Run(Start, digits), d);
  }

  /** Entering the code from START goes through W1, W2, W3 and W4, opens the
      lock on the last digit and ends in START. */
  lemma CodeOpens()
    ensures Run(Start, CODE[..1]) == W1 && Run(Start, CODE[..2]) == W2
    ensures Run(Start, CODE[..3]) == W3 && Run(Start, CODE[..4]) == W4
    ensures Transition(W4, CODE[4]).unlocked && Run(Start, CODE) == Start
  {
    assert CODE[..4][..3] == CODE[..3] && CODE[..3][..2] == CODE[..2] && CODE[..2][..1] == CODE[..1];
    assert CODE[..4] == CODE[..|CODE| - 1];
  }

  // ---------------------------------------------------------------------------
  // The processing task

  /** The processing task's state: the lock state and whether the current
      timeout has been reported. */
  datatype Processing = Processing(state: LockState, timeoutReported: bool)

  /** One turn of the processing loop on what the receive gave: a digit goes
      through the switch and re-arms the timeout report; a timeout, the first
      time only, forces START and is reported. */
  function React(p: Processing, received: Option<u32>): (r: (Processing, seq<Message>))
    ensures received.Some? || !p.timeoutReported ==> r.0.state != Open
    ensures r.0.timeoutReported <==> received.None?
    ensures received.None? && p.timeoutReported ==> r == (p, [])
  {
    match received
    case Some(digit) =>
      var o := Transition(p.state, digit);
      (Processing(o.state, false), o.output)
    case None =>
      if !p.timeoutReported then (Processing(Start, true), [TimedOut])
      else (p, [])
  }

  /** After a first turn the task is never in OPEN, and a reported timeout
      means it is in START. */
  ghost predicate Settled(p: Processing)
  {
    p.state != Open && (p.timeoutReported ==> p.state == Start)
  }

  lemma ReactSettles(p: Processing, received: Option<u32>)
    requires Settled(p) || received.Some?
    ensures Settled(React(p, received).0)
  {
  }

  /** The number of timeouts reported over a run of receives */
  function TimeoutReports(p: Processing, rs: seq<Option<u32>>): nat
    decreases |rs|
  {
    if rs == [] then 0
    else (if rs[0] == None && !p.timeoutReported then 1 else 0) + TimeoutReports(React(p, rs[0]).0, rs[1..])
  }

  /** With no digit arriving, a timeout is reported once at most; exactly once
      when it had not been reported yet. */
  lemma {:induction false} TimeoutReportedOnce(p: Processing, rs: seq<Option<u32>>)
    requires forall i :: 0 <= i < |rs| ==> rs[i] == None
    ensures TimeoutReports(p, rs) == if rs != [] && !p.timeoutReported then 1 else 0
    decreases |rs|
  {
    if rs != [] {
      var p' := React(p, rs[0]).0;
      assert p'.timeoutReported;
      TimeoutReportedOnce(p', rs[1..]);
    }
  }

  /** A digit re-arms the report: the next timeout is reported again. */
  lemma DigitRearmsTimeout(p: Processing, digit: u32)
    ensures TimeoutReports(React(p, Some(digit)).0, [None]) == 1
  {
  }

  /** The processing task, with the text it prints. */
  class Processor {
    var currentState: LockState
    var timeoutReported: bool
    /** the lines printed so far */
    var stdout: seq<Message>

    ghost function Snapshot(): Processing
      reads this
    {
      Processing(currentState, timeoutReported)
    }

    constructor ()
      ensures currentState == Start && !timeoutReported && stdout == []
    {
      currentState, timeoutReported, stdout := Start, false, [];
    }

    /** One turn of the while(true) loop, given what xQueueReceive with its
        5-second wait returned (None: it timed out). */
    method Step(received: Option<u32>)
      modifies this
      ensures Snapshot() == React(old(Snapshot()), received).0
      ensures stdout == old(stdout) + React(old(Snapshot()), received).1
    {
      if received.Some? {
        timeoutReported := false;
        var o := Transition(currentState, received.value);
        currentState := o.state;
        stdout := stdout + o.output;
      } else {
        if !timeoutReported {
          currentState := Start;
          stdout := stdout + [TimedOut];
          timeoutReported := true;
        }
      }
    }

    /** The loop over a run of receive results, one Step each. */
    method RunAll(rs: seq<Option<u32>>)
      modifies this
      ensures Snapshot() == ReactAll(old(Snapshot()), rs).0
      ensures stdout == old(stdout) + ReactAll(old(Snapshot()), rs).1
    {
      ghost var p0, out0 := Snapshot(), stdout;
      ghost var done := ReactAll(p0, []);
      assert rs[..0] == [];
      for i := 0 to |rs|
        invariant done == ReactAll(p0, rs[..i])
        invariant Snapshot() == done.0 && stdout == out0 + done.1
      {
        ReactAllStep(p0, rs, i);
        AppendAssoc(out0, done.1, React(done.0, rs[i]).1);
        Step(rs[i]);
        done := ReactAll(p0, rs[..i + 1]);
      }
      assert rs[..|rs|] == rs;
    }
  }

  /** The state and text after a run of receive results */
  function ReactAll(p: Processing, rs: seq<Option<u32>>): (Processing, seq<Message>)
    decreases |rs|
  {
    if rs == [] then (p, [])
    else
      var (q, out) := ReactAll(p, rs[..|rs| - 1]);
      var (r, more) := React(q, rs[|rs| - 1]);
      (r, out + more)
  }

  lemma ReactAllStep(p: Processing, rs: seq<Option<u32>>, i: nat)
    requires i < |rs|
    ensures ReactAll(p, rs[..i + 1]).0 == React(ReactAll(p, rs[..i]).0, rs[i]).0
    ensures ReactAll(p, rs[..i + 1]).1 == ReactAll(p, rs[..i]).1 + React(ReactAll(p, rs[..i]).0, rs[i]).1
  {
    assert rs[..i + 1][..i] == rs[..i];
  }
}
