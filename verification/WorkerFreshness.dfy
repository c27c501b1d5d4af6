/** The freshness watchdog agrees with what the panel shows, over every run of the worker. */
module WorkerFreshness {
  import opened Basics
  import opened Commands
  import opened DeviceWorkers
  import opened FrameWatchdogs
  import opened Panels
  import opened WorkerFencing

  /**
   * The freshness deadline the history calls for: armed by the start of the
   * worker and by each frame written, disarmed by each clear, and untouched by
   * lamps, refused commands, resets and notices.
   */
  function Armed(es: seq<Event>, start: Time): Option<Time> {
    if es == [] then Some(start)
    else
      match es[|es| - 1]
      case WriteFrame(_, _, at, true) => Some(at)
      case WriteBlank(_, true) => None
      case _ => Armed(es[..|es| - 1], start)
  }

  /** The last frame written. */
  function LastFrame(es: seq<Event>): Option<Event> {
    if es == [] then None
    else
      match es[|es| - 1]
      case WriteFrame(_, _, _, true) => Some(es[|es| - 1])
      case _ => LastFrame(es[..|es| - 1])
  }

  function Notices(es: seq<Event>): nat {
    if es == [] then 0 else Notices(es[..|es| - 1]) + if es[|es| - 1] == ShowNotice(true) then 1 else 0
  }

  /** Frames and clears written. */
  function ScreenWrites(es: seq<Event>): nat {
    if es == [] then 0
    else
      var e := es[|es| - 1];
      ScreenWrites(es[..|es| - 1]) + if (e.WriteFrame? || e.WriteBlank?) && e.ok then 1 else 0
  }

  /** The screen, the watch and the history tell one story while the worker runs. */
  ghost predicate Agrees(s: State, start: Time) {
    && (s.watch.noticeShown <==> s.panel.screen.Notice?)
    && s.watch.lastFrame == Armed(s.events, start)
    && (s.panel.screen.Frame? ==>
          && LastFrame(s.events).Some?
          && LastFrame(s.events).value.WriteFrame?
          && LastFrame(s.events).value.image == s.panel.screen.image
          && LastFrame(s.events).value.context == s.panel.screen.writer
          && s.watch.lastFrame == Some(LastFrame(s.events).value.at))
    && Notices(s.events) <= ScreenWrites(s.events) + s.resets + (if s.watch.noticeShown then 1 else 0)
    && (s.watch.noticeShown ==> Overdue(s))
    && (s.phase.Reading? && Overdue(s) ==> s.watch.noticeShown)
  }

  /** The deadline is armed and has passed. */
  ghost predicate Overdue(s: State) {
    s.watch.lastFrame.Some? && Elapsed(s.watch.lastFrame.value, s.clock) >= s.watch.timeout
  }

  ghost predicate FreshnessInv(s: State, start: Time) {
    !s.phase.Exited? ==> Agrees(s, start)
  }

  lemma Appended(es: seq<Event>, e: Event)
    ensures (es + [e])[..|es + [e]| - 1] == es
  {
  }

  /** A step that keeps panel, watch, resets and history, or adds an event the watch ignores. */
  ghost predicate Unwatched(e: Event) {
    !(e.WriteFrame? && e.ok) && !(e.WriteBlank? && e.ok) && e != ShowNotice(true)
  }

  lemma UnwatchedKeepsHistory(es: seq<Event>, e: Event, start: Time)
    requires Unwatched(e)
    ensures Armed(es + [e], start) == Armed(es, start)
    ensures LastFrame(es + [e]) == LastFrame(es)
    ensures Notices(es + [e]) == Notices(es) && ScreenWrites(es + [e]) == ScreenWrites(es)
  {
    Appended(es, e);
  }

  /** A step outside the watch: one event it ignores, the deadline kept, a notice only ever taken down by a reset. */
  ghost predicate Aside(s: State, s': State, e: Event) {
    && Unwatched(e) && s'.events == s.events + [e]
    && s'.watch.lastFrame == s.watch.lastFrame && s'.watch.timeout == s.watch.timeout && s'.clock == s.clock
    && !s'.phase.Reading? && (s'.watch.noticeShown ==> s.watch.noticeShown)
    && (s'.watch.noticeShown <==> s'.panel.screen.Notice?)
    && (s'.panel.screen.Frame? ==> s'.panel.screen == s.panel.screen)
    && s.resets + (if s.watch.noticeShown then 1 else 0) <= s'.resets + (if s'.watch.noticeShown then 1 else 0)
  }

  lemma AsideAgrees(s: State, s': State, e: Event, start: Time)
    requires Agrees(s, start) && Aside(s, s', e)
    ensures Agrees(s', start)
  {
    UnwatchedKeepsHistory(s.events, e, start);
  }

  lemma CheckAgrees(s: State, start: Time)
    requires Agrees(s, start)
    ensures s.phase.Holding? ==> Agrees(FirstCheck(s, s.phase.output, s.phase.context, s.phase.done), start)
    ensures s.phase.Decoded? ==> Agrees(SecondCheck(s, s.phase.image, s.phase.context, s.phase.done), start)
  {
    if s.phase.Holding? || s.phase.Decoded? {
      var s' := if s.phase.Holding? then FirstCheck(s, s.phase.output, s.phase.context, s.phase.done)
                else SecondCheck(s, s.phase.image, s.phase.context, s.phase.done);
      AsideAgrees(s, s', Check(s.phase.context, s.phase.context !in s.revoked), start);
    }
  }

  lemma LedAgrees(s: State, a: Answer, start: Time)
    requires WellFormed(s.panel) && s.phase.Permitted? && s.phase.output.SetLed? && Agrees(s, start)
    ensures FreshnessInv(ExecuteOutput(s, s.phase.output, s.phase.context, s.phase.done, a), start)
  {
    var index := LedIndex(s.phase.output.control);
    if index.Some? && a.ok {
      AsideAgrees(s, ExecuteOutput(s, s.phase.output, s.phase.context, s.phase.done, a),
                  WriteLamp(s.phase.context, index.value, s.phase.output.on, a.ok), start);
    }
  }

  lemma RasterAgrees(s: State, a: Answer, start: Time)
    requires WellFormed(s.panel) && s.phase.Permitted? && s.phase.output.SetRasterFrame? && Agrees(s, start)
    ensures FreshnessInv(ExecuteOutput(s, s.phase.output, s.phase.context, s.phase.done, a), start)
  {
    var s' := ExecuteOutput(s, s.phase.output, s.phase.context, s.phase.done, a);
    if s'.phase.Decoded? {
      AsideAgrees(s, s', Convert(s.phase.context, s.phase.output.image, true), start);
    }
  }

  lemma ClearAgrees(s: State, a: Answer, start: Time)
    requires WellFormed(s.panel) && s.phase.Permitted? && s.phase.output.ClearRaster? && Agrees(s, start)
    ensures FreshnessInv(ExecuteOutput(s, s.phase.output, s.phase.context, s.phase.done, a), start)
  {
    Appended(s.events, WriteBlank(s.phase.context, a.ok));
  }

  lemma ExecuteAgrees(s: State, a: Answer, start: Time)
    requires WellFormed(s.panel) && s.phase.Permitted? && Agrees(s, start)
    ensures FreshnessInv(ExecuteOutput(s, s.phase.output, s.phase.context, s.phase.done, a), start)
  {
    match s.phase.output {
      case SetLed(_, _) => LedAgrees(s, a, start);
      case SetRasterFrame(_, _, _) => RasterAgrees(s, a, start);
      case ClearRaster(_) => ClearAgrees(s, a, start);
    }
  }

  lemma FrameAgrees(s: State, a: Answer, start: Time)
    requires s.phase.Writing? && Agrees(s, start)
    ensures FreshnessInv(SendFrame(s, s.phase.image, s.phase.context, s.phase.done, a), start)
  {
    Appended(s.events, WriteFrame(s.phase.context, s.phase.image, s.clock, a.ok));
  }

  lemma ResetAgrees(s: State, a: Answer, start: Time)
    requires WellFormed(s.panel) && s.phase.Resetting? && Agrees(s, start)
    ensures var p := s.phase; FreshnessInv(ResetStep(s, p.next, p.ledsOk, p.leaving, p.done, a), start)
  {
    var p := s.phase;
    var s' := ResetStep(s, p.next, p.ledsOk, p.leaving, p.done, a);
    if !s'.phase.Exited? {
      AsideAgrees(s, s', if 1 <= p.next <= LAMPS && p.ledsOk then DarkenLamp(p.next, a.ok) else BlankScreen(a.ok), start);
    }
  }

  lemma WatchdogAgrees(s: State, a: Answer, start: Time)
    requires s.phase.Watching? && Agrees(s, start)
    ensures FreshnessInv(Watchdog(s, a), start)
  {
    Appended(s.events, ShowNotice(a.ok));
  }

  lemma WorkAgrees(s: State, a: Answer, start: Time)
    requires WellFormed(s.panel) && FreshnessInv(s, start)
    ensures FreshnessInv(WorkStep(s, a), start)
  {
    var timed := if a.now < s.clock then s else s.(clock := a.now);
    match s.phase {
      case Polling(_) =>
      case Holding(_, _, _) => CheckAgrees(timed, start);
      case Permitted(_, _, _) => ExecuteAgrees(timed, a, start);
      case Decoded(_, _, _) => CheckAgrees(timed, start);
      case Writing(_, _, _) => FrameAgrees(timed, a, start);
      case Resetting(_, _, _, _) => ResetAgrees(timed, a, start);
      case Watching => WatchdogAgrees(timed, a, start);
      case Reading =>
      case Exited(_) =>
    }
  }

  lemma StepAgrees(s: State, l: Label, start: Time)
    requires WellFormed(s.panel) && FreshnessInv(s, start)
    ensures FreshnessInv(Step(s, l), start)
  {
    if l.Work? {
      WorkAgrees(s, l.answer, start);
    }
  }

  lemma {:induction false} RunAgrees(s: State, labels: seq<Label>, start: Time)
    requires Inv(s) && FreshnessInv(s, start)
    ensures FreshnessInv(Run(s, labels), start)
    decreases |labels|
  {
    if labels != [] {
      StepKeepsInv(s, labels[0]);
      StepAgrees(s, labels[0], start);
      RunAgrees(Step(s, labels[0]), labels[1..], start);
    }
  }

  /**
   * At every moment of a running worker: the notice flag says whether the
   * notice is on the screen; the deadline is the one the history calls for; a
   * visible frame is the last one written; the notice is up only past the
   * deadline, and always when a check past the deadline has just succeeded; and
   * notices number at most one more than the frames, clears and resets.
   */
  lemma WatchdogAgreesWithPanel(s: State, labels: seq<Label>)
    requires Initial(s)
    ensures FreshnessInv(Run(s, labels), s.clock)
  {
    InitialInv(s);
    RunAgrees(s, labels, s.clock);
  }

  /** What a user sees right after a check: no old frame, and the notice exactly past an armed deadline. */
  lemma NoOldFrameLooksLive(s: State, labels: seq<Label>)
    requires Initial(s) && Run(s, labels).phase.Reading?
    ensures var s' := Run(s, labels);
            var armed := Armed(s'.events, s.clock);
            && (s'.panel.screen.Notice? <==> armed.Some? && s'.clock >= armed.value + s.watch.timeout)
            && (s'.panel.screen.Frame? ==>
                  && LastFrame(s'.events).Some? && LastFrame(s'.events).value.WriteFrame?
                  && LastFrame(s'.events).value.image == s'.panel.screen.image
                  && s'.clock < LastFrame(s'.events).value.at + s.watch.timeout)
  {
    WatchdogAgreesWithPanel(s, labels);
    TimeoutFixed(s, labels);
    var s' := Run(s, labels);
    if s'.watch.lastFrame.Some? {
      ElapsedOnTheClock(s'.watch.lastFrame.value, s'.clock, s.watch.timeout);
    }
  }

  lemma WorkKeepsTimeout(s: State, a: Answer)
    requires WellFormed(s.panel)
    ensures WorkStep(s, a).watch.timeout == s.watch.timeout
  {
    if s.phase.Permitted? {
      OutputKeepsTimeout(if a.now < s.clock then s else s.(clock := a.now), a);
    }
  }

  lemma OutputKeepsTimeout(s: State, a: Answer)
    requires WellFormed(s.panel) && s.phase.Permitted?
    ensures ExecuteOutput(s, s.phase.output, s.phase.context, s.phase.done, a).watch.timeout == s.watch.timeout
  {
  }

  lemma {:induction false} TimeoutFixed(s: State, labels: seq<Label>)
    requires WellFormed(s.panel)
    ensures Run(s, labels).watch.timeout == s.watch.timeout
    decreases |labels|
  {
    if labels != [] {
      StepKeepsPanelShape(s, labels[0]);
      if labels[0].Work? {
        WorkKeepsTimeout(s, labels[0].answer);
      }
      TimeoutFixed(Step(s, labels[0]), labels[1..]);
    }
  }
}
