# ODMS (Onboard Data Management System) in Dafny

A model of the acquisition, estimation and logging core of ODMS. ODMS is a Processing sketch. It reads one-byte flip counts from an Arduino over a serial port and keeps the newest 80 in a sliding deque. From the two newest it estimates the speed in knots and colours the background by that speed. Under control of three on-screen buttons it writes timestamped `elapsed,knots` rows to a log file.

Modules:

- `SampleWindow` (window.dfy): the deque as a `seq<int>`, the `Byte.toUnsignedInt` conversion, a push (add, then poll), and the flip sum of `updateKnots`. The sum is computed by a loop that walks the deque newest first.
- `Speed` (speed.dfy): the knots formula and the two-segment colour rule around `MIDDLE_BOUND`, over `real`. The colour is the unclamped (r, g, b) triple that is passed to Processing's `color()`.
- `Widgets` (widgets.dfy): the `Button` class. Its fields are the rectangle, text and handler, plus the mutable `visible` flag. It has the hit test `MouseOver`, the visibility gate `Click` and `SetVisibility`.
- `LoggingSession` (session.dfy): the logging state as a value. It holds the `logging` flag, the `logger` (null, or a log of lines with an open flag), `timer`, `timerOffset` and the visibility of the three buttons. It has one function per transition, the visibility invariant `Coherent`, and `Run` over traces of events. Lemmas give the promised behaviour and the quirks of the code.
- `Odms` (odms.dfy): the `ODMS` class. Its fields are those of the sketch. Each handler is a method, proved to change the logging state exactly as the matching `LoggingSession` function does.

Quirks of the code, each stated as a lemma:

- If the first chosen file fails to open, the start button is shown anyway while no logger exists. Clicking start then ends the handler before it writes any field. It fails its `assert(logger != null)` when assertions are enabled, and otherwise throws a NullPointerException at the first `println`. Because the select button is hidden, no event can ever change the state again (`FailedFirstOpenIsStuck`).
- If reopening after a stop fails, the closed writer of the previous session is kept. A PrintWriter on a closed stream silently drops what is printed, so the new session logs nothing (`FailedReopenWritesNothing`).
- `timer` is not reset when logging starts, and a received byte is handled before `draw` refreshes the timer. So a row logged in the first frame of a new session carries the elapsed time of the previous session (`FirstRowAfterRestartUsesStaleTimer`).
- The colour rule does not clamp. A speed above `UPPER_BOUND` gives a negative red component (`SpeedColorUnclampedAboveUpper`). Two full-scale bytes give 28.3 knots.

Where the design description and the code disagree, the model follows the code:

- The description says a failed open leaves the session idle. The code shows the start button and keeps the old logger.
- The description says the log is closed on exit. The code's `exit()` closes only the serial port.
- The description says each row's elapsed time is taken at the time of the sample. The code logs the `timer` value set by the previous frame.
- The description asks that handlers be serialised with the sampling path. The code runs each handler on its own thread without any lock. Here each handler runs atomically (see Left out).

## Model

| member | source | states |
|---|---|---|
| Widgets.Button.constructor | src/odms/ui/Button.java:25-35 | position, size, text, handler and initial visibility are stored exactly as given |
| Widgets.Button.MouseOver | src/odms/ui/Button.java:38-40 | the hit test is strict: points on the border are outside, and a button less than 2 pixels wide or high is never hovered; it reads and changes no field |
| Widgets.Button.Click | src/odms/ui/Button.java:70-73 | a handler is dispatched exactly when the button is visible, and it is the button's own handler |
| Widgets.Button.SetVisibility | src/odms/ui/Button.java:76-78 | afterwards `visible == v`; only `visible` may change |
| Widgets.SharedRectangleSameHit | src/odms/ODMS.java:126-160 | buttons with one rectangle agree on every hit test, so visibility alone decides which one fires |
| SampleWindow.ToUnsignedInt | src/odms/ODMS.java:238 | the result is in [0,255], congruent to the byte modulo 256, and equal to it for non-negative bytes |
| SampleWindow.ToUnsignedIntInjective | src/odms/ODMS.java:238 | different bytes give different samples |
| SampleWindow.Zeros | src/odms/ODMS.java:116-117 | the pre-filled deque has `DEQUE_SIZE` elements, all zero and all valid samples |
| SampleWindow.Shift | src/odms/ODMS.java:238-239 | add-then-poll keeps the length; the new value is the newest; exactly the oldest leaves and the rest keep their order; valid samples stay valid |
| SampleWindow.Slide | src/odms/ODMS.java:237-239 | any run of pushes keeps the length and the sample range |
| SampleWindow.SlideIsSuffix | src/odms/ODMS.java:237-239 | after any run of pushes the window is the newest `DEQUE_SIZE` values of the old window followed by the run |
| SampleWindow.SlideForgetsOldWindow | src/odms/ODMS.java:237-239 | after at least `DEQUE_SIZE` pushes the window is exactly the newest `DEQUE_SIZE` pushed values (FIFO) |
| SampleWindow.SumBounds | src/odms/ODMS.java:260-263 | a sum of n samples lies in [0, 255·n] |
| SampleWindow.NewestSumIsLastTwo | src/odms/ODMS.java:261-263 | the flip count is the sum of the two newest elements and nothing else |
| SampleWindow.NewestSumBounds | src/odms/ODMS.java:260-263 | the flip count lies in [0, 510] |
| SampleWindow.NewestSumAfterShift | src/odms/ODMS.java:238-242 | after a push the flip count is the previous newest sample plus the one received |
| SampleWindow.CountFlips | src/odms/ODMS.java:260-263 | the descending-iterator loop sums exactly the `SAMPLE_SIZE` newest elements, and over valid samples the sum is in [0,510] |
| Speed.KnotsFor | src/odms/ODMS.java:266 | knots × SAMPLE_SIZE = flips × CONVERSION_CONSTANT; zero exactly for zero flips; never negative for non-negative flips |
| Speed.KnotsStrictlyMonotone | src/odms/ODMS.java:266 | more flips give strictly more knots |
| Speed.KnotsRange | src/odms/ODMS.java:260-266 | over a window of valid samples the estimate lies in [0, 28.316475] |
| Speed.KnotsOfTwiceEightyOne | src/odms/ODMS.java:266 | 81 + 81 flips read as 8.994645 knots |
| Speed.Map | src/odms/ODMS.java:246-248 | Processing's `map` is the affine map sending the source range onto the target range: the endpoints go to the endpoints, and the offset in the target is proportional to the offset in the source |
| Speed.SpeedColor | src/odms/ODMS.java:245-248 | blue is 0; below 9 red is 127 and green is knots·127/9; from 9 green is 127 and red is (18 − knots)·127/9; on [0,18] both lie in [0,127] |
| Speed.SpeedColorContinuousAtMiddle | src/odms/ODMS.java:245-248 | both branches give (127,127,0) at 9, and the low branch approaches it linearly from the left |
| Speed.SpeedColorEnds | src/odms/ODMS.java:245-248 | 0 knots is (127,0,0) and 18 knots is (0,127,0) |
| Speed.SpeedColorMonotone | src/odms/ODMS.java:245-248 | green never falls with speed below 9; red never rises with speed from 9 |
| Speed.SpeedColorUnclampedAboveUpper | src/odms/ODMS.java:248 | above 18 knots red is negative: the rule does not clamp |
| LoggingSession.Println | src/odms/ODMS.java:252 | a println keeps what was written and the open flag; an open writer adds exactly the new line at the end, a closed one adds nothing |
| LoggingSession.Close | src/odms/ODMS.java:154 | a closed writer keeps its lines and swallows every later println |
| LoggingSession.SelectFileStep | src/odms/ODMS.java:164-178 | no file: nothing changes; a file: start shown and select hidden; the logger is a new empty open log when the open succeeds and the old one otherwise, and is never cleared; `logging` and the clocks are untouched |
| LoggingSession.StartStep | src/odms/ODMS.java:128-146 | logging on, `timerOffset = now`, timer untouched, stop replaces start; an open logger gains exactly the timestamp line and the column header, a closed one nothing |
| LoggingSession.StopStep | src/odms/ODMS.java:149-159 | logging off, clocks untouched; with a logger it is closed keeping its lines and select replaces stop; with none only `logging` changes before the throw |
| LoggingSession.RecordStep | src/odms/ODMS.java:251-253 | nothing changes unless logging; while logging an open logger gains exactly the row `timer,knots`; flag, clocks and buttons are untouched |
| LoggingSession.TickStep | src/odms/ODMS.java:188-189 | while logging timer + timerOffset = now; otherwise nothing changes; the flag, logger and buttons are untouched |
| LoggingSession.HandlerStep | src/odms/ODMS.java:120-160 | running the visible button's handler keeps the visibility invariant; a start handler with no logger changes nothing; no handler touches the timer |
| LoggingSession.ReleaseStep | src/odms/ODMS.java:271-279 | a release away from the buttons, or with none visible, changes nothing; a release keeps the visibility invariant and leaves the timer alone |
| LoggingSession.ReleaseRunsVisibleHandler | src/odms/ODMS.java:271-279 | in a coherent session a release away from the buttons changes nothing, and one over them runs exactly the visible button's handler |
| LoggingSession.Apply | src/odms/ODMS.java:128-189 | every transition (mouse release, timer refresh, logged sample) keeps exactly one button visible, `logging` true exactly while stop is visible, and a logger present then |
| LoggingSession.Run | src/odms/ODMS.java:120-189 | every trace of events from a coherent session stays coherent |
| LoggingSession.InitialCoherent | src/odms/ODMS.java:126-160 | the state after setup (select shown, start and stop hidden, not logging) is coherent |
| LoggingSession.SelectNothingChangesNothing | src/odms/ODMS.java:164-167 | `selectFile(null)` changes nothing |
| LoggingSession.SelectFileShowsStart | src/odms/ODMS.java:164-178 | choosing a file when idle shows only start; the logger is a new empty open log if the open succeeded and the old one otherwise; logging and clocks are unchanged |
| LoggingSession.StartWritesHeader | src/odms/ODMS.java:128-146 | start appends exactly the timestamp line and the column header, sets `logging` and `timerOffset = now`, and swaps start for stop |
| LoggingSession.StopClosesLogger | src/odms/ODMS.java:149-159 | stop clears `logging`, closes the logger keeping its lines, and swaps stop for select |
| LoggingSession.RecordOnlyWhileLogging | src/odms/ODMS.java:251-253 | a sample appends one `timer,knots` row exactly while logging, and never changes `logging`, the clocks or the buttons |
| LoggingSession.TimerFrozenUnlessLogging | src/odms/ODMS.java:188-189 | the timer becomes now − timerOffset while logging and is frozen otherwise |
| LoggingSession.OneRowSession | src/odms/ODMS.java:128-253 | select, start, timer at +1000 ms, one sample, stop: the file holds the two header lines and the single row `1000,knots`, and is closed |
| LoggingSession.FailedFirstOpenShowsStartWithoutLogger | src/odms/ODMS.java:164-178 | a failed first open shows the start button while the logger is still null |
| LoggingSession.FailedFirstOpenIsStuck | src/odms/ODMS.java:128-178 | from there no event changes the state again |
| LoggingSession.FailedReopenWritesNothing | src/odms/ODMS.java:128-178 | after a failed reopen, start and a sample turn logging on but the closed logger receives nothing |
| LoggingSession.FirstRowAfterRestartUsesStaleTimer | src/odms/ODMS.java:184-189 | a row logged right after start carries the timer value from before the start |
| Odms.ODMS.constructor | src/odms/ODMS.java:114-160 | setup leaves 80 zeros, knots 0, select shown, start and stop hidden, not logging, no logger |
| Odms.ODMS.UpdateKnots | src/odms/ODMS.java:258-267 | knots becomes the estimate of the flip count of the two newest samples |
| Odms.ODMS.DataReceived | src/odms/ODMS.java:233-255 | the deque is pushed with the unsigned byte; knots and colour are computed from the new window; the session takes the logged-row step; the object invariant is kept |
| Odms.ODMS.SelectFile | src/odms/ODMS.java:164-178 | performs exactly the selectFile transition and leaves the samples alone |
| Odms.ODMS.StartLogging | src/odms/ODMS.java:128-146 | with a logger present, performs exactly the start transition |
| Odms.ODMS.StopLogging | src/odms/ODMS.java:149-159 | performs exactly the stop transition |
| Odms.ODMS.RunHandler | src/odms/ODMS.java:120-160 | runs the dispatched handler; a start handler finding no logger changes nothing |
| Odms.ODMS.MouseReleased | src/odms/ODMS.java:270-279 | performs the release transition for the shared rectangle and keeps the session coherent |
| Odms.ODMS.Draw | src/odms/ODMS.java:182-189 | a pending byte is received first, then the timer refreshes while logging; coherence is kept |
| Odms.KnotsReflectNewSample | src/odms/ODMS.java:238-242 | the estimate after a push is computed from the sample just received and the previous newest one |
| Odms.TwoSamplesOfEightyOne | src/odms/ODMS.java:238-248 | from the zero-filled deque, two samples of 81 give 8.994645 knots, in the segment below 9 where red is 127 |
| Odms.ZeroSamplesZeroKnots | src/odms/ODMS.java:260-266 | two zero newest samples give 0 knots |

## Left out

- Serial transport (jSerialComm: port lookup, `openPort`, `bytesAvailable`, `readBytes`, `closePort`). The byte read is a parameter of `DataReceived`, and a pending byte is an `Option` passed to `Draw`.
- The "Arduino not detected" branch of `setup`. It only draws a screen; the constructor models the path where a port exists.
- Processing rendering: `settings`, the rest of `draw` (graph, ticks, text, `nf`), `Button.draw`, and the clamping and packing of `color()`. `color` holds the unclamped (r, g, b) triple. Before the first sample it is (0,0,0), standing for the packed int 0.
- Floating point: `knots`, `CONVERSION_CONSTANT` and `map` are `real`. Single-precision rounding is not modelled.
- Java `long`/`int` widths of `timer`, `timerOffset` and `millis()`: they are unbounded integers. Overflow would take about 24 days of uptime.
- Concurrency: `Button.click` starts each handler on a new thread, which can race `dataReceived` and the other handlers. Each handler here runs to completion when clicked, after all three clicks of a release have read the visibility.
- File dialog: `selectOutput` is modelled together with its `selectFile` callback as one atomic step of the select handler. The dialog's answer and whether the file opened are parameters. A second dialog opened before the first is answered is not modelled.
- File I/O: the log is a sequence of line values plus an open flag. The rendering of lines as text (`Float.toString`, the unpadded date) and the buffering and `flush` of the PrintWriter are not modelled. An `IOException` on open appears only as "open failed, logger unchanged".
- Clocks: `millis()` and `year()` … `second()` are parameters.
- Entry points `main` and `exit`.
