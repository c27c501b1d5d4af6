/** Errors are not swallowed: the first thing that goes wrong ends the worker, over every run. */
module WorkerErrors {
  import opened Basics
  import opened Commands
  import opened CommandQueues
  import opened DeviceWorkers
  import opened FrameWatchdogs
  import opened Panels
  import opened WorkerFailures
  import opened WorkerFencing

  /** A device call that failed, or something read or received that cannot be used. */
  predicate Bad(e: Event) {
    match e
    case Check(_, _) => false
    case Convert(_, _, ok) => !ok
    case WriteLamp(_, _, _, ok) => !ok
    case WriteFrame(_, _, _, ok) => !ok
    case WriteBlank(_, ok) => !ok
    case DarkenLamp(_, ok) => !ok
    case BlankScreen(ok) => !ok
    case ShowNotice(ok) => !ok
    case Unsupported(_) => true
    case BadHidRead(_) => true
  }

  ghost predicate AllGood(es: seq<Event>) {
    forall k :: 0 <= k < |es| ==> !Bad(es[k])
  }

  /** Good up to a last event that went wrong, outside the lamps of a reset. */
  ghost predicate EndsBadly(es: seq<Event>) {
    es != [] && Bad(es[|es| - 1]) && !es[|es| - 1].DarkenLamp? && AllGood(es[..|es| - 1])
  }

  /** Good up to a reset that has just lost a lamp. */
  ghost predicate LosesLamp(es: seq<Event>) {
    LampFailed(es) && AllGood(es[..|es| - 1])
  }

  /** A reset that has lost a lamp has tried the screen as well, and nothing else. */
  ghost predicate EndsInLostReset(es: seq<Event>) {
    es != [] && es[|es| - 1].BlankScreen? && LosesLamp(es[..|es| - 1])
  }

  /** Only a failed worker, or a reset about to fail, has seen anything go wrong, and has seen it last. */
  ghost predicate StopsAtFailure(s: State) {
    match s.phase
    case Exited(clean) => if clean then AllGood(s.events) else EndsBadly(s.events) || EndsInLostReset(s.events)
    case Resetting(_, ledsOk, _, _) => if ledsOk then AllGood(s.events) else LosesLamp(s.events)
    case _ => AllGood(s.events)
  }

  lemma Appended(es: seq<Event>, e: Event)
    ensures (es + [e])[..|es|] == es
    ensures AllGood(es) && !Bad(e) ==> AllGood(es + [e])
    ensures AllGood(es) && Bad(e) && !e.DarkenLamp? ==> EndsBadly(es + [e])
    ensures AllGood(es) && Bad(e) && e.DarkenLamp? ==> LosesLamp(es + [e])
    ensures LosesLamp(es) && e.BlankScreen? ==> EndsInLostReset(es + [e])
  {
    assert (es + [e])[..|es|] == es;
  }

  lemma AppendedLast(es: seq<Event>, es': seq<Event>)
    requires Extends(es, es') && es' != es
    ensures es' != [] && es' == es + [es'[|es'| - 1]]
  {
  }

  /** How one event ends a step: something bad ends the worker, or spoils the reset. */
  ghost predicate EventFits(s: State, s': State, e: Event) {
    && s'.events == s.events + [e]
    && (match s'.phase
        case Exited(clean) => clean <==> !Bad(e) && !(s.phase.Resetting? && !s.phase.ledsOk)
        case Resetting(_, ledsOk, _, _) => e.DarkenLamp? && (ledsOk <==> !Bad(e))
        case _ => !Bad(e))
    && (s.phase.Resetting? && !s.phase.ledsOk ==> e.BlankScreen? && s'.phase.Exited?)
    && (e.DarkenLamp? ==> s'.phase.Resetting?)
  }

  lemma EventKeepsStops(s: State, s': State, e: Event)
    requires StopsAtFailure(s) && !s.phase.Exited? && EventFits(s, s', e)
    ensures StopsAtFailure(s')
  {
    Appended(s.events, e);
  }

  lemma ExecuteFits(s: State, a: Answer)
    requires WellFormed(s.panel) && s.phase.Permitted?
    ensures var s' := ExecuteOutput(s, s.phase.output, s.phase.context, s.phase.done, a);
            if s'.events == s.events then s'.phase.Polling? else EventFits(s, s', s'.events[|s'.events| - 1])
  {
  }

  lemma ResetFits(s: State, a: Answer)
    requires WellFormed(s.panel) && s.phase.Resetting?
    requires 1 <= s.phase.next <= LAMPS + 1 && (!s.phase.ledsOk ==> s.phase.next == LAMPS + 1)
    ensures var p := s.phase;
            var s' := ResetStep(s, p.next, p.ledsOk, p.leaving, p.done, a);
            s'.events != [] && EventFits(s, s', s'.events[|s'.events| - 1])
  {
  }

  /** A step without an event keeps the worker going, and starts no reset on the wrong foot. */
  ghost predicate Quiet(s: State, s': State) {
    s'.events == s.events && !s'.phase.Exited? && (s'.phase.Resetting? ==> s'.phase.ledsOk) && !s.phase.Resetting?
  }

  /** A step that adds no event is quiet, and the event of any other step fits. */
  ghost predicate Fits(s: State, s': State) {
    if s'.events == s.events then Quiet(s, s') else s'.events != [] && EventFits(s, s', s'.events[|s'.events| - 1])
  }

  lemma CommandFits(s: State, a: Answer)
    ensures s.phase.Holding? ==> Fits(s, FirstCheck(s, s.phase.output, s.phase.context, s.phase.done))
    ensures s.phase.Decoded? ==> Fits(s, SecondCheck(s, s.phase.image, s.phase.context, s.phase.done))
    ensures s.phase.Writing? ==> Fits(s, SendFrame(s, s.phase.image, s.phase.context, s.phase.done, a))
  {
  }

  lemma PassFits(s: State, a: Answer)
    ensures s.phase.Polling? ==> Fits(s, Poll(s, s.phase.done)) && Fits(s, s.(phase := Watching))
    ensures s.phase.Watching? ==> Fits(s, Watchdog(s, a))
    ensures s.phase.Reading? ==> Fits(s, ReadHid(s, a))
  {
  }

  lemma OtherWorkFits(s: State, a: Answer)
    requires WellFormed(s.panel) && !s.phase.Permitted? && !s.phase.Resetting? && !s.phase.Exited?
    ensures Fits(if a.now < s.clock then s else s.(clock := a.now), WorkStep(s, a))
  {
    var timed := if a.now < s.clock then s else s.(clock := a.now);
    CommandFits(timed, a);
    PassFits(timed, a);
  }

  lemma WorkStops(s: State, a: Answer)
    requires Inv(s) && StopsAtFailure(s)
    ensures StopsAtFailure(WorkStep(s, a))
  {
    var s' := WorkStep(s, a);
    var timed := if s.phase.Exited? || a.now < s.clock then s else s.(clock := a.now);
    if s.phase.Permitted? {
      ExecuteFits(timed, a);
    } else if s.phase.Resetting? {
      ResetFits(timed, a);
    } else if !s.phase.Exited? {
      OtherWorkFits(s, a);
    }
    if !s.phase.Exited? && s'.events != s.events {
      EventKeepsStops(timed, s', s'.events[|s'.events| - 1]);
    }
  }

  lemma {:induction false} RunStops(s: State, labels: seq<Label>)
    requires Inv(s) && StopsAtFailure(s)
    ensures StopsAtFailure(Run(s, labels))
    decreases |labels|
  {
    if labels != [] {
      StepKeepsInv(s, labels[0]);
      if labels[0].Work? {
        WorkStops(s, labels[0].answer);
      }
      RunStops(Step(s, labels[0]), labels[1..]);
    }
  }

  /** Where the bad event is in a history that stops at failure. */
  lemma BadIsLast(es: seq<Event>, k: nat)
    requires k < |es| && Bad(es[k])
    ensures !AllGood(es)
    ensures EndsBadly(es) ==> k == |es| - 1 && !es[k].DarkenLamp?
    ensures LosesLamp(es) ==> k == |es| - 1 && es[k].DarkenLamp?
    ensures EndsInLostReset(es) ==>
              if es[k].DarkenLamp? then k == |es| - 2 && es[k + 1].BlankScreen? else k == |es| - 1
  {
    GoodPrefix(es, |es| - 1, k);
    if k < |es| - 1 {
      GoodPrefix(es[..|es| - 1], |es| - 2, k);
    }
  }

  lemma GoodPrefix(es: seq<Event>, n: nat, k: nat)
    requires n <= |es| && k < |es| && Bad(es[k])
    ensures AllGood(es[..n]) ==> k >= n
  {
    assert k < n ==> es[..n][k] == es[k];
  }

  /**
   * Over every run, nothing happens after something has gone wrong: it is the
   * last event and the worker has failed, except that a reset that loses a lamp
   * still tries the screen, once. And the worker has failed only if something
   * has gone wrong.
   */
  lemma FailureIsTheEnd(s: State, labels: seq<Label>, k: nat)
    requires Initial(s) && k < |Run(s, labels).events| && Bad(Run(s, labels).events[k])
    ensures var s' := Run(s, labels);
            var es := s'.events;
            if es[k].DarkenLamp? then
              || (k == |es| - 1 && s'.phase.Resetting? && !s'.phase.ledsOk)
              || (k == |es| - 2 && es[k + 1].BlankScreen? && s'.phase == Exited(false))
            else k == |es| - 1 && s'.phase == Exited(false)
  {
    InitialInv(s);
    RunStops(s, labels);
    BadIsLast(Run(s, labels).events, k);
  }

  lemma FailedIffSomethingWentWrong(s: State, labels: seq<Label>)
    requires Initial(s)
    ensures var s' := Run(s, labels);
            s'.phase == Exited(false) <==>
            !AllGood(s'.events) && !(s'.phase.Resetting? && LampFailed(s'.events))
  {
    InitialInv(s);
    RunStops(s, labels);
  }

  // ---------------------------------------------------------------- one failed call

  /** The worker's next step makes a call to the device; `now` is the time it is made. */
  ghost predicate CallsDevice(s: State, now: Time) {
    match s.phase
    case Permitted(SetLed(control, _), _, _) => control in LAMP_CONTROLS
    case Permitted(ClearRaster(control), _, _) => control == SCREEN
    case Writing(_, _, _) => true
    case Resetting(_, _, _, _) => true
    case Watching =>
      !s.watch.noticeShown && s.watch.lastFrame.Some? && now >= s.clock && now >= s.watch.lastFrame.value + s.watch.timeout
    case Reading => true
    case _ => false
  }

  /**
   * A call that fails ends the worker at once. Only a reset goes on, to the
   * screen, and fails after that, however the screen answers.
   */
  lemma FailedCallEnds(s: State, a: Answer)
    requires Inv(s) && s.watch.timeout > 0
    ensures var s' := WorkStep(s, a);
            && (CallsDevice(s, a.now) && !a.ok ==>
                  || s'.phase == Exited(false)
                  || (s.phase.Resetting? && s.phase.next <= LAMPS
                      && s'.phase == Resetting(LAMPS + 1, false, s.phase.leaving, s.phase.done)))
            && (s.phase.Resetting? && !s.phase.ledsOk ==> s'.phase == Exited(false))
            && (s.phase.Reading? && !a.whole ==> s'.phase == Exited(false))
  {
    if s.phase.Permitted? && CallsDevice(s, a.now) && !a.ok {
      FailedOutputEnds(if a.now < s.clock then s else s.(clock := a.now), a);
    }
  }

  lemma FailedOutputEnds(s: State, a: Answer)
    requires WellFormed(s.panel) && s.phase.Permitted? && !a.ok
    requires match s.phase.output
             case SetLed(control, _) => control in LAMP_CONTROLS
             case ClearRaster(control) => control == SCREEN
             case _ => false
    ensures ExecuteOutput(s, s.phase.output, s.phase.context, s.phase.done, a).phase == Exited(false)
  {
  }
}
