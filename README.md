# RP2040 FreeRTOS exercises: logger, code lock and UART console

This project models three pieces of logic from a set of FreeRTOS programs for the
Raspberry Pi RP2040, and proves properties of them in Dafny.

- **Deferred debug logger** (`ex4`). Producers call `debug` from tasks or
  `debug_from_isr` from interrupt handlers. Each call captures a template, three
  numbers and the tick count into a `DebugEvent` and queues it without blocking.
  A single print task takes events in order and renders each into a 256-byte line:
  first `"[ticks] "`, then the message, then a newline and a NUL. It is the only
  code that writes to stdout. `debug_init` creates the queue and the print task.
  - `DebugLog.Logger` is a class whose fields are the queue handle, the queued
    events, the print task and stdout.
  - The line buffer is an `array<char>` of 256 bytes. Models of `snprintf` fill it,
    `strnlen` reads its length, and the newline fix-up writes its end. The
    `snprintf` model follows ISO C11 section 7.21.6.5.
  - The FreeRTOS queue is reduced to the two behaviours the code relies on, in
    `BoundedQueue`:
    - a zero-wait send to the back fails when the queue is full;
    - a receive takes the oldest item.
- **Code lock** (`ex1`). Three button reader tasks each detect falling edges
  on their pin. They send the button's digit (0, 1 or 2) to a queue of 10. The
  processing task runs the lock state machine START, W1, W2, W3, W4, OPEN on the
  code 0 0 2 1 2. When no press arrives for 5 seconds it goes back to START,
  and reports that timeout only once.
- **UART console** (`ex3`). Bytes read from the UART are echoed and edited into
  a command line of at most 100 printable characters. CR or LF hands the line
  to `processCommand`, which recognises `help`, `interval <sec>` and `time`. An
  inactivity timer clears the line.

Everything that comes from the environment is a parameter of the model:
- the tick count;
- whether `xQueueCreate` and `xTaskCreate` succeed;
- the sampled pin level;
- the bytes a UART read returns;
- whether a receive got an item or timed out.

The text each program writes is a field of the model. For `ex4` it is a string.
For `ex1` and `ex3` it is a sequence of message values, whose exact text is
given by `CodeLock.MessageText` and `UartConsole.OutText`.

Two details of the code shape the model:
- A rendered line always ends in a newline. Newlines inside the message are
  kept, so a line may hold more than one.
- `iss >> word >> value` stores 0 only when the conversion of `value` actually
  runs. A non-number after the word, as in `"interval abc"`, is read as 0 and
  refused. When nothing but white space follows the word, as in `"interval5"`,
  the stream is already at its end and `value` is not written at all (see
  Findings).

## Model

| member | source | states |
|---|---|---|
| DebugLog.Logger.constructor | ex4/debug_log.cpp:11 | Before `debug_init` there is no queue and no print task, and nothing has been printed. |
| DebugLog.Logger.Init | ex4/debug_log.cpp:61-78 | Once the queue exists, the call returns true and changes nothing. If queue creation fails, it returns false and the logger stays uninitialised. Otherwise the queue is created empty with the requested length. The call returns true exactly when the print task was created; if task creation failed, the queue is kept without a print task. |
| DebugLog.InitRetry | ex4/debug_log.cpp:63-77 | A first `debug_init` whose task creation fails returns false. The retry returns true although no print task exists. |
| DebugLog.DefaultInit | ex4/debug_log.h:10-18 | Calls made before init queue nothing. The default arguments make a queue of 32 and a task stack of 512 words. |
| DebugLog.Logger.Debug | ex4/debug_log.cpp:80-94 | Before init it changes nothing. After init it appends the event (format, d1, d2, d3 in order, and the tick count at the call) when there is room, and leaves the queue as it was when the queue is full. It never writes to stdout, and the print task and its stack size stay as they were. |
| DebugLog.Logger.DebugFromIsr | ex4/debug_log.cpp:96-108 | The same contract as `Debug`, with the tick count read at the interrupt-safe call. |
| DebugLog.Logger.PrintNext | ex4/debug_log.cpp:14-59 | A failed receive changes nothing. Otherwise the oldest event leaves the queue, and stdout grows by exactly `RenderLine` of that event. The queue length and the print task's stack size are unchanged. |
| DebugLog.WriteMessage | ex4/debug_log.cpp:29-40 | The prefix length is clamped into [0, 255] and the message is written at `line + n` into the remaining `256 - n` bytes. The line then holds the whole message, cut to 255 characters, followed by a NUL. |
| DebugLog.TerminateLine | ex4/debug_log.cpp:42-53 | After `strnlen` and the fix-up, a line that held `s` and a NUL holds `EnsureNewline(s)` and a NUL. |
| DebugLog.FormatLine | ex4/debug_log.cpp:29-53 | After one rendering the array holds exactly `RenderLine(e)` followed by a NUL. |
| DebugLog.Snprintf | ex4/debug_log.cpp:30-40 | Writes at most `size - 1` characters of the text, then a NUL, and no other byte. It returns the full length of the text. |
| DebugLog.StrNLen | ex4/debug_log.cpp:43 | Returns the index of the first NUL within the first `maxLen` bytes, or `maxLen` if there is none. |
| DebugLog.Fit | ex4/debug_log.cpp:39-40 | What `snprintf` keeps of a text in `size` bytes: a prefix of length `min(length, size - 1)`. |
| DebugLog.Prefix | ex4/debug_log.cpp:30-32 | The `"[%lu] "` prefix of a 32-bit tick count is 4 to 13 characters long and contains no NUL. |
| DebugLog.Interpolate | ex4/debug_log.cpp:39-40 | The rendered user message contains no NUL. |
| DebugLog.LineIsTerminated | ex4/debug_log.cpp:42-53 | Every rendered line is 1 to 255 characters long, ends in `'\n'` and contains no NUL, so with its NUL it fits in 256 bytes. |
| DebugLog.LongLineIsCut | ex4/debug_log.cpp:48-52 | A message that fills the buffer keeps its first 254 characters, with `'\n'` at index 254 (the NUL is at 255). |
| DebugLog.ShortLineIsWhole | ex4/debug_log.cpp:44-52 | A message of at most 254 characters is printed whole: unchanged when it already ends in `'\n'`, otherwise with one `'\n'` added. A message of exactly 255 characters without a final newline loses its last character to the newline. |
| DebugLog.LineStartsWithTimestamp | ex4/debug_log.h:20-29 | Every line starts with `"[" + ticks + "] "`, where ticks is the count captured at enqueue. |
| DebugLog.PlainTemplate | ex4/debug_log.cpp:39-40 | A template with no `%` and no NUL is printed as it is. |
| DebugLog.SingleField | ex4/debug_log.cpp:39-40 | In a template with one `%u`, the `%u` is replaced by the decimal text of the first number. |
| DebugLog.LeadingField | ex4/debug_log.cpp:39-40 | Plain text followed by `%u` is copied, and the `%u` takes the first number; the rest of the template continues with the remaining numbers. |
| DebugLog.ThreeFields | ex4/debug_log.cpp:36-40 | In the documented template shape with three `%u`, the numbers d1, d2 and d3 appear in that order between the plain texts. |
| DebugLog.EnsureNewline | ex4/debug_log.cpp:44-53 | After the fix-up, the line is 1 to 255 characters long and ends in `'\n'`. Everything before that newline is a prefix of the line it was given. |
| DebugLog.Message | ex4/debug_log.cpp:29-40 | The message starts with the timestamp prefix and contains no NUL. |
| DebugLog.RenderLine | ex4/debug_log.cpp:29-53 | The printed line is 1 to 255 characters long and ends in `'\n'`. What precedes the newline is a prefix of the message. |
| DebugLog.ScenarioLineX | ex4/debug_log.cpp:29-56 | The event ("x=%u\n", 5, ticks 10) prints as "[10] x=5\n". |
| DebugLog.ScenarioLineY | ex4/debug_log.cpp:29-56 | The event ("y=%u\n", 7, ticks 11) prints as "[11] y=7\n". |
| DebugLog.DropWhenFull | ex4/debug_log.h:27 | Three events are sent back to back to a queue of length 2. The third is dropped, and the first two wait in the order they were sent. |
| BoundedQueue.Send | ex4/debug_log.cpp:93 | A zero-wait send succeeds exactly when there is room. It never reorders or removes what is queued, adds at most one item, and never takes the queue past its length. |
| BoundedQueue.SendBounded | ex4/debug_log.cpp:93 | A zero-wait send succeeds exactly when there is room. It then appends to the back; otherwise the queue is unchanged. The length never exceeds the capacity. |
| BoundedQueue.RunIsFifo | ex4/debug_log.cpp:25-27 | For any mix of sends and receives, the items delivered followed by those still queued equal the items queued at the start followed by those accepted, in the same order. The length stays within capacity. |
| BoundedQueue.SendAllKeepsRoom | ex4/debug_log.h:27-29 | A burst with no receiver keeps its first items, as many as there is room for, in order, and drops the rest. |
| Decimal.Text | ex4/debug_log.cpp:30-32 | The decimal text that `%lu` and `%u` print is at least one digit long, made only of digits, and has no leading zero. |
| Decimal.ValueOfText | ex4/debug_log.cpp:30-32 | The decimal text printed for a number reads back as that number. |
| Decimal.TextLength | ex4/debug_log.cpp:30-34 | A number below 10^k prints in at most k digits. |
| Decimal.TextLength32 | ex4/debug_log.cpp:30-34 | A 32-bit number prints in at most 10 digits. |
| CodeLock.PinToDigit | ex1/main.cpp:45 | The unsigned subtraction is undone by adding `BUTTON_PINS[0]` back modulo 2^32. |
| CodeLock.Presses | ex1/main.cpp:39-51 | Presses are separated by releases: n samples give at most (n + 1) / 2 presses from a high level and n / 2 from a low one. |
| CodeLock.PinsGiveDigits | ex1/main.cpp:45 | Pins 7, 8 and 9 map to the digits 0, 1 and 2 by `pin - BUTTON_PINS[0]`. |
| CodeLock.ButtonReader.constructor | ex1/main.cpp:36-37 | A reader starts with its pin and assumes the level is high. |
| CodeLock.ButtonReader.Poll | ex1/main.cpp:40-49 | A digit is sent only on a 1 to 0 change, and only when the queue has room. The sampled level is remembered either way. |
| CodeLock.HeldDownOnce | ex1/main.cpp:43-49 | Holding a button down for any number of samples produces exactly one press, and none if it was already down. |
| CodeLock.ReleasedNone | ex1/main.cpp:43-49 | A released button produces no press. |
| CodeLock.PressesSplit | ex1/main.cpp:39-51 | Presses add up over consecutive runs of samples. |
| CodeLock.PressQueue.Send | ex1/main.cpp:46 | A zero-wait send appends the digit when fewer than 10 are waiting, and otherwise drops it. |
| CodeLock.PressQueue.Receive | ex1/main.cpp:61 | A receive returns the oldest digit, or nothing when the queue is empty. |
| CodeLock.Transition | ex1/main.cpp:66-127 | After any press the state is never OPEN. The lock opens only from W4. |
| CodeLock.TransitionFollowsCode | ex1/main.cpp:66-127 | The right digit moves from the state that has seen k digits to the one that has seen k + 1. The fifth right digit opens the lock and returns to START. Any wrong digit returns to START, or stays there from START. OPEN goes to START whatever the digit. |
| CodeLock.RunRemembersCode | ex1/main.cpp:66-127 | Starting from START, the state that has seen k digits was reached because the last k digits pressed are the first k digits of the code. |
| CodeLock.OpensOnlyOnCode | ex1/main.cpp:106-117 | The lock opens only when the last five digits pressed are 0 0 2 1 2. |
| CodeLock.CodeOpens | ex1/main.cpp:66-117 | From START, 0 0 2 1 2 goes through W1, W2, W3 and W4, opens the lock on the last digit and ends in START. |
| CodeLock.React | ex1/main.cpp:61-137 | After a press, or the first timeout, the state is not OPEN. The flag is set exactly when the turn was a timeout. A timeout that was already reported changes nothing and prints nothing. |
| CodeLock.ReactSettles | ex1/main.cpp:59-138 | After a turn of the loop the state is never OPEN, and a reported timeout implies START. |
| CodeLock.TimeoutReportedOnce | ex1/main.cpp:128-137 | Without presses, a timeout is reported at most once: exactly once if it had not been reported yet. |
| CodeLock.DigitRearmsTimeout | ex1/main.cpp:63 | After a press, the next timeout is reported again. |
| CodeLock.Processor.constructor | ex1/main.cpp:25 | The processing task starts in START with no timeout reported. |
| CodeLock.Processor.Step | ex1/main.cpp:59-138 | On a press the flag is cleared and the switch applies. On a timeout that was not yet reported, the state becomes START and the timeout is reported; otherwise nothing happens. |
| CodeLock.Processor.RunAll | ex1/main.cpp:59-138 | Over any run of receive results, the loop ends in the state and printed text that the per-turn specification gives. |
| UartConsole.Classify | ex3/main.cpp:48-75 | With `value` initialised to 0, the interval it reads is within int's range. |
| UartConsole.ClassifyAsWritten | ex3/main.cpp:48-75 | As written, the command agrees with `Classify` whenever `value` is written. For an interval command that gives no number, it carries the uninitialised `value`. |
| UartConsole.Execute | ex3/main.cpp:49-74 | Every command sends one reply. The interval changes only on an interval command with a positive value, which it takes, replying "Interval updated". |
| UartConsole.ExtractValue | ex3/main.cpp:55-58 | A value that `>> value` stores is within int's range. |
| UartConsole.Step | ex3/main.cpp:90-121 | One byte only adds to what was sent, and keeps the line printable and at most 100 characters. |
| UartConsole.Dispatch | ex3/main.cpp:48-75 | The dispatch order, each case in both directions: exactly "help"; then any line starting with "interval"; then exactly "time"; anything else is unknown. |
| UartConsole.IntervalOnlyPositive | ex3/main.cpp:54-65 | The interval changes only to a positive value, with "Interval updated". Any other value leaves it unchanged and answers "Invalid interval". |
| UartConsole.IntervalRoundTrip | ex3/main.cpp:54-62 | "interval " followed by the decimal text of any n in 1..INT_MAX sets the interval to n. |
| UartConsole.ConvertText | ex3/main.cpp:58 | `>> value` reads the decimal text of any n >= 0 as n when n is at most INT_MAX, and as INT_MAX beyond. |
| UartConsole.ConvertNegativeText | ex3/main.cpp:58 | `>> value` reads "-" followed by the decimal text of n as -n when that is at least INT_MIN, and as INT_MIN beyond. |
| UartConsole.ExtractAfterWord | ex3/main.cpp:55-58 | After a word and a space, the value is read from the rest of the command, or is not read at all when only white space is left. |
| UartConsole.FusedNumberIsUnset | ex3/main.cpp:55-58 | With no white space after "interval" (e.g. "interval5"), `value` is never written. |
| UartConsole.NonNumberRefused | ex3/main.cpp:55-64 | A word that is not a number after "interval " is read as 0, so the interval is kept and "Invalid interval" is sent. |
| UartConsole.MissingNumberAsWritten | ex3/main.cpp:57-62 | As written, "interval" sets the interval to whatever the uninitialised `value` held (7 here) and reports success. |
| UartConsole.MissingNumberRefused | ex3/main.cpp:57-64 | With `value` initialised to 0, a command that gives no number keeps the interval and answers "Invalid interval". |
| UartConsole.IntervalValue | ex3/main.cpp:57-58 | The number read is within int's range, and is 0 when nothing was extracted. |
| UartConsole.ConvertInt | ex3/main.cpp:58 | The converted value lies in [INT_MIN, INT_MAX]. |
| UartConsole.ClampToInt | ex3/main.cpp:58 | An out-of-range number becomes INT_MAX or INT_MIN; an in-range one is kept. |
| UartConsole.EchoesAllButLineEnds | ex3/main.cpp:96-99 | Every byte other than CR and LF is echoed, including ignored control bytes. |
| UartConsole.LineEndDispatches | ex3/main.cpp:101-108 | With a non-empty line, CR or LF dispatches exactly that line, clears it and sends the prompt. With an empty line it does nothing. |
| UartConsole.BackspaceErases | ex3/main.cpp:109-115 | On a non-empty line, backspace or DEL removes exactly the last character and sends "\b \b". On an empty line it only echoes. |
| UartConsole.PrintableAppends | ex3/main.cpp:116-121 | Bytes 32..126 are appended while the line is shorter than 100. Other bytes leave the line unchanged. |
| UartConsole.StepAllKeepsInvariant | ex3/main.cpp:89-122 | Over any run of bytes, the line holds only printable ASCII and at most 100 characters. |
| UartConsole.UartTask.constructor | ex3/main.cpp:22-25 | The line starts empty and the interval is 5 seconds. |
| UartConsole.UartTask.Start | ex3/main.cpp:81-82 | The task sends its banner and prompt before the first read. |
| UartConsole.UartTask.ProcessCommand | ex3/main.cpp:48-75 | The new interval and the reply are those of the recognised command, and the line is unchanged. |
| UartConsole.UartTask.HandleByte | ex3/main.cpp:90-121 | The task state after one byte is the editing step's result, and the line invariant is kept. |
| UartConsole.UartTask.HandleRead | ex3/main.cpp:86-123 | After a read of up to 64 bytes, the state is the editing steps applied in order, and the invariant is kept. |
| UartConsole.UartTask.InactivityCallback | ex3/main.cpp:34-37 | The callback sends "[Inactive]\r\n" and empties the line. The interval is unchanged. |

## Left out

- Board set-up, GPIO, the LED, `sleep_ms` and `vTaskDelay`, including the LED being held on for 5 seconds when the lock opens: these are hardware I/O.
- Task creation details (priorities, the `"debug"` task name), `vTaskStartScheduler`, and the timers (`xTimerCreate`, `xTimerReset`, `xTimerChangePeriod`): these are scheduler plumbing. The `ledIntervalSec * 1000` period conversion is also left out; it overflows `int` for intervals above 2147483 seconds.
- The `pxHigherPriorityTaskWoken` hint of `debug_from_isr`: it depends on scheduler state that is not visible here.
- Concurrency: producer calls, interrupt handlers and the tasks are sequential atomic operations on the model's state.
- `read_runtime_ctr` in ex1 and ex3: a clock read with no logic.
- The `time` command's reply: float arithmetic and `%.1f` formatting. The command is recognised (`TimeReport`) and changes no state.
- `PicoOsUart` is not part of this model. UART and stdout output are sequences appended to; the boot banner of ex1 is not modelled.
- DebugLog.Interpolate: only `%u` conversions are modelled. Any other `%` is copied as text, which printf does not do. A `%u` beyond the three numbers prints nothing here; in C that is undefined behaviour.
- DebugLog.Logger.PrintNext: models one turn of the print task's endless loop. The order of many turns is covered by `BoundedQueue.RunIsFifo`. The receive waits forever in the source; here a receive that finds the queue empty is a turn that changes nothing.
- DebugLog.Logger.Init: the created task is a flag and its stack size; the task's code is `PrintNext`.
- CodeLock.Transition: the momentary OPEN state between the two lines printed on the fifth digit is the `unlocked` flag of the outcome, because nothing can observe the state during the 5-second delay.
- CodeLock.Processor.Step: the 5-second receive timeout is a receive result of None.
- CodeLock.MessageText: the lines `std::cout` prints are message values. Their text is given by this function and not by a character stream.
- UartConsole.OutText: the time report has no text in the model.
- UartConsole.UartTask.ProcessCommand: models the corrected program with `int value = 0` (see Findings). For an interval command that gives no number, it refuses, where the code as written branches on an uninitialised `value`. `ClassifyAsWritten` states the as-written behaviour.
- UartConsole.Step: dispatches with the corrected `Classify`, as `UartTask.ProcessCommand` does.
- UartConsole.UartTask.HandleByte: dispatches with the corrected `Classify`, as `UartTask.ProcessCommand` does.
- UartConsole.UartTask.HandleRead: dispatches with the corrected `Classify`, as `UartTask.ProcessCommand` does.

## Findings

| source | as written | input that shows it | evidently intended | confidence | as-written member | corrected member |
|---|---|---|---|---|---|---|
| ex3/main.cpp:57-59 | `int value;` is never initialised. When only white space (or nothing) follows the word, `iss >> word` leaves the stream at its end, so `>> value` fails before converting and does not store 0 (ISO C++ formatted input: the sentry fails). Line 59 then reads an indeterminate value. | `"interval"` (also `"interval5"`, `"interval "`) | such a command is refused with "Invalid interval" and keeps the interval, as with `int value = 0;` | high; not executed | UartConsole.MissingNumberAsWritten | UartConsole.MissingNumberRefused |
