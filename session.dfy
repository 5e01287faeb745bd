/**
 * The logging state of ODMS as a value: the `logging` flag, the PrintWriter
 * `logger` (absent, or a log with an open flag), the `timer` and
 * `timerOffset` fields and the visibility of the three buttons.  Each
 * function below is one transition of the source; the class in module Odms
 * is proved to perform exactly these transitions on its fields.
 */
module LoggingSession {
  import opened Wrappers

  /** The wall-clock reading printed as the first header line. */
  datatype Stamp = Stamp(year: int, month: int, day: int, hour: int, minute: int, second: int)

  /** One printed line of the log file. */
  datatype Line =
    | TimestampLine(at: Stamp)
    | ColumnHeader  // the line `Time Elapsed (ms),Speed (kts)`
    | Row(elapsed: int, knots: real)

  /** What a PrintWriter has written to its file, and whether it is still open. */
  datatype Log = Log(lines: seq<Line>, open: bool)

  /** A freshly opened FileWriter truncates the file. */
  const Opened: Log := Log([], true)

  /** println: a PrintWriter whose stream is closed swallows the write and only records an error. */
  function Println(log: Log, line: Line): (r: Log)
    ensures r.open == log.open
    // what was written stays; an open writer adds exactly the new line at the end
    ensures |r.lines| == |log.lines| + (if log.open then 1 else 0)
    ensures r.lines[..|log.lines|] == log.lines
    ensures log.open ==> r.lines[|log.lines|] == line
  {
    if log.open then log.(lines := log.lines + [line]) else log
  }

  /** close(): the writer stops accepting lines and keeps what it wrote. */
  function Close(log: Log): (r: Log)
    ensures !r.open && r.lines == log.lines
    // every later println is swallowed
    ensures forall line :: Println(r, line) == r
  {
    log.(open := false)
  }

  /** Visibility of the select, start and stop buttons. */
  datatype Shown = Shown(select: bool, start: bool, stop: bool)

  datatype Session = Session(logging: bool, logger: Option<Log>, timer: int, timerOffset: int, shown: Shown)

  /** The three handlers the buttons carry. */
  datatype Action = SelectAction | StartAction | StopAction

  /** After setup: nothing selected, only the select button shown. */
  const Initial: Session := Session(false, None, 0, 0, Shown(true, false, false))

  function VisibleCount(v: Shown): nat {
    (if v.select then 1 else 0) + (if v.start then 1 else 0) + (if v.stop then 1 else 0)
  }

  /**
   * The visibility invariant: exactly one button is shown, logging happens
   * exactly while the stop button is shown, and then a logger exists.
   */
  predicate Coherent(s: Session) {
    VisibleCount(s.shown) == 1 &&
    (s.logging <==> s.shown.stop) &&
    (s.shown.stop ==> s.logger.Some?)
  }

  /**
   * selectFile: for a chosen file, try to open a writer on it (`openOk` is
   * the outcome); on failure the old logger stays.  Either way the start
   * button replaces the select button.  No file chosen: nothing happens.
   */
  function SelectFileStep(s: Session, file: Option<string>, openOk: bool): (r: Session)
    ensures file.None? ==> r == s
    ensures file.Some? ==> r.shown.start && !r.shown.select && r.shown.stop == s.shown.stop
    // a logger, once set, is never cleared; a failed open keeps the old one
    ensures s.logger.Some? ==> r.logger.Some?
    ensures file.Some? && openOk ==> r.logger == Some(Log([], true))
    ensures !openOk ==> r.logger == s.logger
    // the flag and the clocks are never touched
    ensures r.logging == s.logging && r.timer == s.timer && r.timerOffset == s.timerOffset
  {
    if file.None? then s
    else s.(logger := if openOk then Some(Opened) else s.logger,
            shown := s.shown.(start := true, select := false))
  }

  /** The start handler: header lines, logging on, clock offset taken, stop replaces start. */
  function StartStep(s: Session, now: int, at: Stamp): (r: Session)
    requires s.logger.Some?
    ensures r.logging && r.timerOffset == now && r.timer == s.timer
    ensures r.shown == Shown(s.shown.select, false, true)
    ensures r.logger.Some? && r.logger.value.open == s.logger.value.open
    // an open logger gains exactly the timestamp line and the column header
    ensures s.logger.value.open ==>
      r.logger.value.lines == s.logger.value.lines + [TimestampLine(at), ColumnHeader]
    ensures !s.logger.value.open ==> r.logger == s.logger
  {
    s.(logger := Some(Println(Println(s.logger.value, TimestampLine(at)), ColumnHeader)),
       logging := true,
       timerOffset := now,
       shown := s.shown.(stop := true, start := false))
  }

  /**
   * The stop handler: logging off, logger closed, select replaces stop.  With
   * no logger the close throws after `logging` was already cleared.
   */
  function StopStep(s: Session): (r: Session)
    ensures !r.logging && r.timer == s.timer && r.timerOffset == s.timerOffset
    ensures s.logger.Some? ==> r.logger == Some(Log(s.logger.value.lines, false))
    ensures s.logger.Some? ==> r.shown == Shown(true, s.shown.start, false)
    ensures s.logger.None? ==> r.logger.None? && r.shown == s.shown
  {
    if s.logger.Some? then
      s.(logging := false, logger := Some(Close(s.logger.value)),
         shown := s.shown.(select := true, stop := false))
    else
      s.(logging := false)
  }

  /** The tail of dataReceived: while logging, one `timer,knots` row. */
  function RecordStep(s: Session, knots: real): (r: Session)
    requires s.logging ==> s.logger.Some?
    ensures r.logging == s.logging && r.timer == s.timer && r.timerOffset == s.timerOffset
    ensures r.shown == s.shown
    ensures !s.logging ==> r == s
    ensures s.logging && s.logger.value.open ==>
      r.logger == Some(Log(s.logger.value.lines + [Row(s.timer, knots)], true))
  {
    if s.logging then s.(logger := Some(Println(s.logger.value, Row(s.timer, knots)))) else s
  }

  /** The timer refresh of draw: elapsed time while logging, frozen otherwise. */
  function TickStep(s: Session, now: int): (r: Session)
    ensures r.logging == s.logging && r.logger == s.logger && r.shown == s.shown
    ensures r.timerOffset == s.timerOffset
    ensures s.logging ==> r.timer + s.timerOffset == now
    ensures !s.logging ==> r == s
  {
    if s.logging then s.(timer := now - s.timerOffset) else s
  }

  /**
   * One handler run to completion.  The select handler is the file dialog
   * followed by its selectFile callback.  A start handler that finds no
   * logger fails its assertion when assertions are enabled, and otherwise
   * throws at the first println, before writing any field.
   */
  function HandlerStep(s: Session, a: Action, now: int, at: Stamp, answer: Option<string>, openOk: bool): (r: Session)
    // running the visible button's handler keeps the visibility invariant
    ensures Coherent(s) && a == VisibleAction(s) ==> Coherent(r)
    // the start handler needs a logger; without one nothing changes
    ensures a == StartAction && s.logger.None? ==> r == s
    ensures r.timer == s.timer
  {
    match a
    case SelectAction => SelectFileStep(s, answer, openOk)
    case StartAction => if s.logger.Some? then StartStep(s, now, at) else s
    case StopAction => StopStep(s)
  }

  /**
   * mouseReleased: all three buttons share one rectangle, so `over` says
   * whether the mouse is over each of them.  The three clicks read the
   * visibility before any handler thread runs; the handlers of the buttons
   * that were visible then run in turn.
   */
  function ReleaseStep(s: Session, over: bool, now: int, at: Stamp, answer: Option<string>, openOk: bool): (r: Session)
    ensures !over ==> r == s
    // a release with every button hidden does nothing
    ensures !s.shown.select && !s.shown.start && !s.shown.stop ==> r == s
    ensures Coherent(s) ==> Coherent(r)
    ensures r.timer == s.timer
  {
    if !over then s
    else
      var s1 := if s.shown.select then HandlerStep(s, SelectAction, now, at, answer, openOk) else s;
      var s2 := if s.shown.start then HandlerStep(s1, StartAction, now, at, answer, openOk) else s1;
      if s.shown.stop then HandlerStep(s2, StopAction, now, at, answer, openOk) else s2
  }

  /** The handler of the one visible button of a coherent session. */
  function VisibleAction(s: Session): Action {
    if s.shown.select then SelectAction else if s.shown.start then StartAction else StopAction
  }

  /** In a coherent session a release over the buttons runs exactly the visible button's handler. */
  lemma ReleaseRunsVisibleHandler(s: Session, over: bool, now: int, at: Stamp, answer: Option<string>, openOk: bool)
    requires Coherent(s)
    ensures !over ==> ReleaseStep(s, over, now, at, answer, openOk) == s
    ensures over ==> ReleaseStep(s, over, now, at, answer, openOk) == HandlerStep(s, VisibleAction(s), now, at, answer, openOk)
  {
  }

  /** What can happen to the session, one event at a time. */
  datatype Event =
    | Release(over: bool, now: int, at: Stamp, answer: Option<string>, openOk: bool)
    | Frame(now: int)
    | Sample(knots: real)

  function Apply(s: Session, e: Event): (r: Session)
    requires Coherent(s)
    ensures Coherent(r)
  {
    match e
    case Release(over, now, at, answer, openOk) => ReleaseStep(s, over, now, at, answer, openOk)
    case Frame(now) => TickStep(s, now)
    case Sample(knots) => RecordStep(s, knots)
  }

  /** A trace of events from a coherent session stays coherent throughout. */
  function Run(s: Session, events: seq<Event>): (r: Session)
    requires Coherent(s)
    ensures Coherent(r)
    decreases |events|
  {
    if events == [] then s else Run(Apply(s, events[0]), events[1..])
  }

  lemma InitialCoherent()
    ensures Coherent(Initial)
  {
  }

  /** selectFile(null) changes nothing. */
  lemma SelectNothingChangesNothing(s: Session, openOk: bool)
    ensures SelectFileStep(s, None, openOk) == s
  {
  }

  /** Choosing a file from a coherent idle session: start shown, the logger new when it openOk, old otherwise. */
  lemma SelectFileShowsStart(s: Session, f: string, openOk: bool)
    requires Coherent(s) && !s.logging
    ensures var r := SelectFileStep(s, Some(f), openOk);
      Coherent(r) && r.shown == Shown(false, true, false) && !r.logging &&
      r.logger == (if openOk then Some(Opened) else s.logger) &&
      r.timer == s.timer && r.timerOffset == s.timerOffset
  {
  }

  /** Start on an open logger appends exactly the two header lines, turns logging on and takes the offset. */
  lemma StartWritesHeader(s: Session, now: int, at: Stamp)
    requires s.logger.Some? && s.logger.value.open
    ensures var r := StartStep(s, now, at);
      r.logger == Some(Log(s.logger.value.lines + [TimestampLine(at), ColumnHeader], true)) &&
      r.logging && r.timerOffset == now && r.timer == s.timer &&
      r.shown.stop && !r.shown.start && r.shown.select == s.shown.select
  {
    var lines := s.logger.value.lines;
    assert lines + [TimestampLine(at)] + [ColumnHeader] == lines + [TimestampLine(at), ColumnHeader];
  }

  /** Stop turns logging off and closes the logger, keeping what it wrote. */
  lemma StopClosesLogger(s: Session)
    requires s.logger.Some?
    ensures var r := StopStep(s);
      !r.logging && r.logger == Some(Log(s.logger.value.lines, false)) &&
      r.shown.select && !r.shown.stop && r.shown.start == s.shown.start &&
      r.timer == s.timer && r.timerOffset == s.timerOffset
  {
  }

  /** A sample writes a row only while logging, and never touches the flag, the clocks or the buttons. */
  lemma RecordOnlyWhileLogging(s: Session, knots: real)
    requires s.logging ==> s.logger.Some?
    ensures var r := RecordStep(s, knots);
      r.logging == s.logging && r.timer == s.timer && r.timerOffset == s.timerOffset && r.shown == s.shown &&
      (!s.logging ==> r == s) &&
      (s.logging && s.logger.value.open ==> r.logger == Some(Log(s.logger.value.lines + [Row(s.timer, knots)], true)))
  {
  }

  /** The timer reads now - offset while logging and is frozen otherwise. */
  lemma TimerFrozenUnlessLogging(s: Session, now: int)
    ensures var r := TickStep(s, now);
      (s.logging ==> r.timer == now - s.timerOffset) &&
      (!s.logging ==> r.timer == s.timer) &&
      r.logging == s.logging && r.logger == s.logger && r.shown == s.shown
  {
  }

  /**
   * A whole session: choose a file that opens, start at t0, let the timer
   * reach t0 + 1000, take one sample, stop.  The file then holds the two
   * header lines and exactly one row, and is closed.
   */
  lemma {:induction false} OneRowSession(f: string, t0: int, at: Stamp, knots: real, t1: int)
    ensures Run(Initial, [Release(true, 0, at, Some(f), true), Release(true, t0, at, None, false),
                          Frame(t0 + 1000), Sample(knots), Release(true, t1, at, None, false)]).logger
            == Some(Log([TimestampLine(at), ColumnHeader, Row(1000, knots)], false))
  {
    var s1 := Apply(Initial, Release(true, 0, at, Some(f), true));
    var s2 := Apply(s1, Release(true, t0, at, None, false));
    var s3 := Apply(s2, Frame(t0 + 1000));
    var s4 := Apply(s3, Sample(knots));
    var s5 := Apply(s4, Release(true, t1, at, None, false));
    var evs := [Release(true, 0, at, Some(f), true), Release(true, t0, at, None, false),
                Frame(t0 + 1000), Sample(knots), Release(true, t1, at, None, false)];
    assert Run(Initial, evs) == Run(s1, evs[1..]);
    assert Run(s1, evs[1..]) == Run(s2, evs[2..]);
    assert Run(s2, evs[2..]) == Run(s3, evs[3..]);
    assert Run(s3, evs[3..]) == Run(s4, evs[4..]);
    assert Run(s4, evs[4..]) == Run(s5, []);
    assert s1.logger == Some(Opened);
    assert [] + [TimestampLine(at)] + [ColumnHeader] == [TimestampLine(at), ColumnHeader];
    assert s2.logger == Some(Log([TimestampLine(at), ColumnHeader], true));
    assert s3.timer == 1000;
    assert [TimestampLine(at), ColumnHeader] + [Row(1000, knots)] == [TimestampLine(at), ColumnHeader, Row(1000, knots)];
    assert s4.logger == Some(Log([TimestampLine(at), ColumnHeader, Row(1000, knots)], true));
  }

  /** The session after the first file choice failed to open. */
  const AfterFailedFirstOpen: Session := Session(false, None, 0, 0, Shown(false, true, false))

  lemma FailedFirstOpenShowsStartWithoutLogger(f: string, at: Stamp, now: int)
    ensures Apply(Initial, Release(true, now, at, Some(f), false)) == AfterFailedFirstOpen
    ensures AfterFailedFirstOpen.shown.start && AfterFailedFirstOpen.logger.None?
  {
  }

  /**
   * From there the program is stuck: the only button shown is start, whose
   * handler fails for want of a logger, so no event ever changes the state.
   */
  lemma {:induction false} FailedFirstOpenIsStuck(events: seq<Event>)
    ensures Run(AfterFailedFirstOpen, events) == AfterFailedFirstOpen
    decreases |events|
  {
    if events != [] {
      assert Apply(AfterFailedFirstOpen, events[0]) == AfterFailedFirstOpen;
      FailedFirstOpenIsStuck(events[1..]);
    }
  }

  /**
   * When reopening after a stop fails, the closed writer of the last session
   * stays: the next session starts, but neither its header nor its rows reach
   * any file.
   */
  lemma FailedReopenWritesNothing(s: Session, f: string, now: int, at: Stamp, knots: real)
    requires Coherent(s) && s.shown.select && s.logger.Some? && !s.logger.value.open
    ensures var r := Apply(Apply(Apply(s, Release(true, now, at, Some(f), false)),
                                 Release(true, now, at, None, false)), Sample(knots));
      r.logging && r.logger == s.logger
  {
  }

  /**
   * The timer is not reset when logging starts and dataReceived runs before
   * the refresh in draw, so a sample in the first frame of a new session is
   * logged with the elapsed time the previous session ended on.
   */
  lemma FirstRowAfterRestartUsesStaleTimer(s: Session, now: int, at: Stamp, knots: real)
    requires Coherent(s) && s.shown.start && s.logger.Some? && s.logger.value.open
    ensures var r := Apply(Apply(s, Release(true, now, at, None, false)), Sample(knots));
      r.logger.Some? && r.logger.value.lines[|r.logger.value.lines| - 1] == Row(s.timer, knots)
  {
  }
}
