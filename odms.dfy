/**
 * The ODMS sketch: one object whose handlers update its fields.  The serial
 * port, the clock and the file dialog are replaced by method parameters: the
 * byte read, the value of millis(), the date fields, the dialog's answer and
 * whether opening the chosen file succeeded.
 */
module Odms {
  import opened Wrappers
  import opened Widgets
  import opened SampleWindow
  import opened Speed
  import opened LoggingSession

  /** Window size set in settings(). */
  const WIDTH: int := 640
  const HEIGHT: int := 360

  class ODMS {
    /** Raw flip counts, oldest first. */
    var data: seq<int>
    /** The current speed estimate. */
    var knots: real
    /** The background colour, before packing. */
    var color: Rgb
    var timer: int
    var timerOffset: int
    var logging: bool
    /** The PrintWriter; None while it is null. */
    var logger: Option<Log>
    const selectButton: Button<Action>
    const startButton: Button<Action>
    const stopButton: Button<Action>

    ghost predicate Valid()
      reads this, selectButton, startButton, stopButton
    {
      |data| == DEQUE_SIZE && AllSamples(data) &&
      knots == KnotsFor(NewestSum(data)) &&
      selectButton != startButton && startButton != stopButton && selectButton != stopButton &&
      // the three buttons share one rectangle
      startButton.x == selectButton.x && startButton.y == selectButton.y &&
      startButton.w == selectButton.w && startButton.h == selectButton.h &&
      stopButton.x == selectButton.x && stopButton.y == selectButton.y &&
      stopButton.w == selectButton.w && stopButton.h == selectButton.h &&
      selectButton.onClick == SelectAction && startButton.onClick == StartAction &&
      stopButton.onClick == StopAction &&
      // rows and the stop handler never meet a null logger
      ((logging || stopButton.visible) ==> logger.Some?)
    }

    /** The logging state of the object. */
    function State(): Session
      reads this, selectButton, startButton, stopButton
    {
      Session(logging, logger, timer, timerOffset,
                             Shown(selectButton.visible, startButton.visible, stopButton.visible))
    }

    /** setup(), on the path where the serial port was found. */
    constructor ()
      ensures Valid()
      ensures fresh(selectButton) && fresh(startButton) && fresh(stopButton)
      ensures data == Zeros(DEQUE_SIZE) && knots == 0.0 && color == Rgb(0.0, 0.0, 0.0)
      ensures State() == Initial
    {
      var d: seq<int> := [];
      var i := 0;
      while i < DEQUE_SIZE
        invariant 0 <= i <= DEQUE_SIZE
        invariant d == Zeros(i)
      {
        d := d + [0];
        i := i + 1;
      }
      data := d;
      knots := 0.0;
      color := Rgb(0.0, 0.0, 0.0);
      timer, timerOffset := 0, 0;
      logging := false;
      logger := None;
      var left, top := (WIDTH - 350) / 2, 43 * (HEIGHT - 75) / 48;
      selectButton := new Button(left, top, 350, 75, "Select a File", SelectAction, true);
      startButton := new Button(left, top, 350, 75, "Start Logging", StartAction, false);
      stopButton := new Button(left, top, 350, 75, "Stop Logging", StopAction, false);
      new;
      NewestSumIsLastTwo(data);
    }

    /** updateKnots: the estimate from the SAMPLE_SIZE newest samples. */
    method UpdateKnots()
      requires |data| >= SAMPLE_SIZE
      modifies this`knots
      ensures knots == KnotsFor(NewestSum(data))
    {
      var sumFlips := CountFlips(data);
      knots := (sumFlips as real) * CONVERSION_CONSTANT / (SAMPLE_SIZE as real);
    }

    /**
     * dataReceived: push the byte as an unsigned sample and drop the oldest,
     * then recompute the speed and the colour from the new window, then log
     * a row if logging.
     */
    method DataReceived(raw: JByte)
      requires Valid()
      modifies this
      ensures Valid()
      ensures data == Shift(old(data), ToUnsignedInt(raw))
      ensures knots == KnotsFor(NewestSum(data)) && color == SpeedColor(knots)
      ensures State() == RecordStep(old(State()), knots)
    {
      data := data + [ToUnsignedInt(raw)];
      data := data[1..];
      UpdateKnots();
      if knots < MIDDLE_BOUND {
        color := Rgb(127.0, Map(knots, LOWER_BOUND, MIDDLE_BOUND, 0.0, 127.0), 0.0);
      } else {
        color := Rgb(Map(knots, MIDDLE_BOUND, UPPER_BOUND, 127.0, 0.0), 127.0, 0.0);
      }
      if logging {
        logger := Some(Println(logger.value, Row(timer, knots)));
      }
    }

    /** The callback of the file dialog. */
    method SelectFile(file: Option<string>, openOk: bool)
      requires Valid()
      modifies this, selectButton, startButton
      ensures Valid()
      ensures State() == SelectFileStep(old(State()), file, openOk)
      ensures data == old(data) && knots == old(knots) && color == old(color)
    {
      if file.Some? {
        if openOk {
          logger := Some(Opened);
        }
        // otherwise the IOException's stack trace is printed and the old logger stays
        startButton.SetVisibility(true);
        selectButton.SetVisibility(false);
      }
    }

    /** The start handler; its assertion that a logger exists is the precondition. */
    method StartLogging(now: int, at: Stamp)
      requires Valid() && logger.Some?
      modifies this, startButton, stopButton
      ensures Valid()
      ensures State() == StartStep(old(State()), now, at)
      ensures data == old(data) && knots == old(knots) && color == old(color)
    {
      logger := Some(Println(logger.value, TimestampLine(at)));
      logger := Some(Println(logger.value, ColumnHeader));
      logging := true;
      timerOffset := now;
      stopButton.SetVisibility(true);
      startButton.SetVisibility(false);
    }

    /** The stop handler. */
    method StopLogging()
      requires Valid()
      modifies this, selectButton, stopButton
      ensures Valid()
      ensures State() == StopStep(old(State()))
      ensures data == old(data) && knots == old(knots) && color == old(color)
    {
      logging := false;
      if logger.Some? {
        logger := Some(Close(logger.value));
        selectButton.SetVisibility(true);
        stopButton.SetVisibility(false);
      }
      // with no logger, close() throws and the handler ends here
    }

    /** Runs the handler a click dispatched, if any, to completion. */
    method RunHandler(fired: Option<Action>, now: int, at: Stamp, answer: Option<string>, openOk: bool)
      requires Valid()
      modifies this, selectButton, startButton, stopButton
      ensures Valid()
      ensures State() == if fired.None? then old(State())
                           else HandlerStep(old(State()), fired.value, now, at, answer, openOk)
      ensures data == old(data) && knots == old(knots) && color == old(color)
    {
      if fired.Some? {
        match fired.value
        case SelectAction =>
          SelectFile(answer, openOk);
        case StartAction =>
          if logger.Some? {
            StartLogging(now, at);
          }
          // otherwise the assertion fails before the handler writes any field
        case StopAction =>
          StopLogging();
      }
    }

    /**
     * mouseReleased: each button under the mouse is clicked in turn; the
     * handlers of those that were visible then run.
     */
    method MouseReleased(mouseX: int, mouseY: int, now: int, at: Stamp, answer: Option<string>, openOk: bool)
      requires Valid()
      modifies this, selectButton, startButton, stopButton
      ensures Valid()
      ensures State() == ReleaseStep(old(State()), selectButton.MouseOver(mouseX, mouseY), now, at, answer, openOk)
      ensures Coherent(old(State())) ==> Coherent(State())
      ensures data == old(data) && knots == old(knots) && color == old(color)
    {
      ghost var s := State();
      SharedRectangleSameHit(selectButton, startButton, mouseX, mouseY);
      SharedRectangleSameHit(selectButton, stopButton, mouseX, mouseY);
      var firedSelect, firedStart, firedStop := None, None, None;
      if selectButton.MouseOver(mouseX, mouseY) {
        firedSelect := selectButton.Click();
      }
      if startButton.MouseOver(mouseX, mouseY) {
        firedStart := startButton.Click();
      }
      if stopButton.MouseOver(mouseX, mouseY) {
        firedStop := stopButton.Click();
      }
      RunHandler(firedSelect, now, at, answer, openOk);
      RunHandler(firedStart, now, at, answer, openOk);
      RunHandler(firedStop, now, at, answer, openOk);
      if Coherent(s) {
        ReleaseRunsVisibleHandler(s, selectButton.MouseOver(mouseX, mouseY), now, at, answer, openOk);
      }
    }

    /** One frame of draw() up to the timer refresh: a pending byte is received, then the timer updated. */
    method Draw(received: Option<JByte>, now: int)
      requires Valid()
      modifies this
      ensures Valid()
      ensures data == if received.Some? then Shift(old(data), ToUnsignedInt(received.value)) else old(data)
      ensures received.None? ==> knots == old(knots) && color == old(color)
      ensures received.Some? ==> color == SpeedColor(knots)
      ensures State() == TickStep(if received.Some? then RecordStep(old(State()), knots) else old(State()), now)
      ensures Coherent(old(State())) ==> Coherent(State())
    {
      if received.Some? {
        DataReceived(received.value);
      }
      if logging {
        timer := now - timerOffset;
      }
    }
  }

  /**
   * The knots and colour a sample leaves behind depend on that sample: the
   * new estimate is computed from the previous newest sample and the one
   * just received.
   */
  lemma KnotsReflectNewSample(w: seq<int>, u: int)
    requires |w| == DEQUE_SIZE
    ensures KnotsFor(NewestSum(Shift(w, u))) == KnotsFor(w[|w| - 1] + u)
  {
    NewestSumAfterShift(w, u);
  }

  /**
   * From the zero-filled deque, two samples of 81 flips give 8.994645 knots,
   * in the red-to-yellow segment below MIDDLE_BOUND.
   */
  lemma TwoSamplesOfEightyOne()
    ensures var w := Slide(Zeros(DEQUE_SIZE), [81, 81]);
      KnotsFor(NewestSum(w)) == 8.994645 &&
      SpeedColor(KnotsFor(NewestSum(w))).r == 127.0 &&
      LOWER_BOUND <= KnotsFor(NewestSum(w)) < MIDDLE_BOUND
  {
    var w := Slide(Zeros(DEQUE_SIZE), [81, 81]);
    SlideIsSuffix(Zeros(DEQUE_SIZE), [81, 81]);
    NewestSumIsLastTwo(w);
    assert w[|w| - 1] == 81 && w[|w| - 2] == 81;
  }

  /** Two newest samples of zero give a standstill reading. */
  lemma ZeroSamplesZeroKnots(w: seq<int>)
    requires |w| >= SAMPLE_SIZE && w[|w| - 1] == 0 && w[|w| - 2] == 0
    ensures KnotsFor(NewestSum(w)) == 0.0
  {
    NewestSumIsLastTwo(w);
  }
}
