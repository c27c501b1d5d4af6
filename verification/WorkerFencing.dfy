/** Authority fencing: which writes a context can still cause, and when. */
module WorkerFencing {
  import opened Basics
  import opened Commands
  import opened DeviceWorkers
  import opened Panels

  predicate IsOutput(e: Event) {
    e.WriteLamp? || e.WriteFrame? || e.WriteBlank?
  }

  /**
   * A write for a hardware command directly follows a granted check of that
   * command's context; a frame's last check comes after its conversion, and
   * the conversion itself directly follows a granted check.
   */
  ghost predicate FencedAt(es: seq<Event>, k: nat)
    requires k < |es|
  {
    && (IsOutput(es[k]) ==> k >= 1 && es[k - 1] == Check(es[k].context, true))
    && (es[k].Convert? ==> k >= 1 && es[k - 1] == Check(es[k].context, true))
    && (es[k].WriteFrame? ==> k >= 2 && es[k - 2] == Convert(es[k].context, es[k].image, true))
  }

  ghost predicate Fenced(es: seq<Event>) {
    forall k :: 0 <= k < |es| ==> FencedAt(es, k)
  }

  /** The phase remembers the end of the history. */
  ghost predicate PhaseBacked(s: State) {
    var n := |s.events|;
    match s.phase
    case Permitted(_, context, _) => n >= 1 && s.events[n - 1] == Check(context, true)
    case Decoded(image, context, _) => n >= 1 && s.events[n - 1] == Convert(context, image, true)
    case Writing(image, context, _) =>
      n >= 2 && s.events[n - 1] == Check(context, true) && s.events[n - 2] == Convert(context, image, true)
    case _ => true
  }

  ghost predicate Extends(es: seq<Event>, es': seq<Event>) {
    es' == es || (es' != [] && es' == es + [es'[|es'| - 1]])
  }

  lemma ExecuteAddsOneEvent(s: State, a: Answer)
    requires WellFormed(s.panel) && s.phase.Permitted?
    ensures Extends(s.events, ExecuteOutput(s, s.phase.output, s.phase.context, s.phase.done, a).events)
  {
  }

  lemma CommandAddsOneEvent(s: State, a: Answer)
    ensures s.phase.Holding? ==> Extends(s.events, FirstCheck(s, s.phase.output, s.phase.context, s.phase.done).events)
    ensures s.phase.Decoded? ==> Extends(s.events, SecondCheck(s, s.phase.image, s.phase.context, s.phase.done).events)
    ensures s.phase.Writing? ==> Extends(s.events, SendFrame(s, s.phase.image, s.phase.context, s.phase.done, a).events)
  {
  }

  lemma ResetAddsOneEvent(s: State, a: Answer)
    requires WellFormed(s.panel) && s.phase.Resetting?
    ensures var p := s.phase; Extends(s.events, ResetStep(s, p.next, p.ledsOk, p.leaving, p.done, a).events)
  {
  }

  lemma PassAddsOneEvent(s: State, a: Answer)
    ensures Extends(s.events, Watchdog(s, a).events) && Extends(s.events, ReadHid(s, a).events)
    ensures forall done :: Poll(s, done).events == s.events
  {
  }

  lemma WorkAddsOneEvent(s: State, a: Answer)
    requires WellFormed(s.panel)
    ensures Extends(s.events, WorkStep(s, a).events)
  {
    var timed := if s.phase.Exited? || a.now < s.clock then s else s.(clock := a.now);
    match s.phase {
      case Permitted(_, _, _) => ExecuteAddsOneEvent(timed, a);
      case Resetting(_, _, _, _) => ResetAddsOneEvent(timed, a);
      case Holding(_, _, _) => CommandAddsOneEvent(timed, a);
      case Decoded(_, _, _) => CommandAddsOneEvent(timed, a);
      case Writing(_, _, _) => CommandAddsOneEvent(timed, a);
      case Exited(_) =>
      case _ => PassAddsOneEvent(timed, a);
    }
  }

  /** A worker step adds at most one event to its history. */
  lemma OneEventPerStep(s: State, l: Label)
    requires WellFormed(s.panel)
    ensures Extends(s.events, Step(s, l).events)
  {
    if l.Work? {
      WorkAddsOneEvent(s, l.answer);
    }
  }

  /** The new event, if any, is fenced by the events the phase remembered, and the new phase is backed. */
  ghost predicate Backs(s: State, s': State) {
    var es := s'.events;
    PhaseBacked(s') && (es != s.events ==> es != [] && FencedAt(es, |es| - 1))
  }

  lemma ExecuteIsFenced(s: State, a: Answer)
    requires WellFormed(s.panel) && s.phase.Permitted? && PhaseBacked(s)
    ensures Backs(s, ExecuteOutput(s, s.phase.output, s.phase.context, s.phase.done, a))
  {
  }

  lemma FrameIsFenced(s: State, a: Answer)
    requires WellFormed(s.panel) && PhaseBacked(s)
    ensures s.phase.Writing? ==> Backs(s, SendFrame(s, s.phase.image, s.phase.context, s.phase.done, a))
    ensures s.phase.Decoded? ==> Backs(s, SecondCheck(s, s.phase.image, s.phase.context, s.phase.done))
  {
  }

  lemma ResetIsUnfenced(s: State, a: Answer)
    requires WellFormed(s.panel) && s.phase.Resetting?
    ensures var p := s.phase; Backs(s, ResetStep(s, p.next, p.ledsOk, p.leaving, p.done, a))
  {
  }

  lemma WatchdogIsUnfenced(s: State, a: Answer)
    requires s.phase.Watching?
    ensures Backs(s, Watchdog(s, a))
  {
  }

  lemma CheckIsBacked(s: State)
    requires s.phase.Holding?
    ensures Backs(s, FirstCheck(s, s.phase.output, s.phase.context, s.phase.done))
  {
  }

  lemma PassIsUnfenced(s: State, a: Answer)
    requires s.phase.Polling? || s.phase.Reading?
    ensures Backs(s, ReadHid(s, a)) && Backs(s, s.(phase := Watching))
    ensures s.phase.Polling? ==> Backs(s, Poll(s, s.phase.done))
  {
  }

  lemma CommandEventFenced(s: State, a: Answer)
    requires WellFormed(s.panel) && PhaseBacked(s)
    requires s.phase.Holding? || s.phase.Permitted? || s.phase.Decoded? || s.phase.Writing?
    ensures Backs(s, WorkStep(s, a))
  {
    var timed := if a.now < s.clock then s else s.(clock := a.now);
    if s.phase.Holding? {
      CheckIsBacked(timed);
    } else if s.phase.Permitted? {
      ExecuteIsFenced(timed, a);
    } else {
      FrameIsFenced(timed, a);
    }
  }

  lemma WorkEventFenced(s: State, a: Answer)
    requires WellFormed(s.panel) && PhaseBacked(s)
    ensures Backs(s, WorkStep(s, a))
  {
    var timed := if s.phase.Exited? || a.now < s.clock then s else s.(clock := a.now);
    match s.phase {
      case Polling(_) => PassIsUnfenced(timed, a);
      case Resetting(_, _, _, _) => ResetIsUnfenced(timed, a);
      case Watching => WatchdogIsUnfenced(timed, a);
      case Reading => PassIsUnfenced(timed, a);
      case Exited(_) =>
      case _ => CommandEventFenced(s, a);
    }
  }

  lemma NewEventFenced(s: State, l: Label)
    requires WellFormed(s.panel) && PhaseBacked(s)
    ensures Backs(s, Step(s, l))
  {
    if l.Work? {
      WorkEventFenced(s, l.answer);
    }
  }

  lemma StepKeepsFenced(s: State, l: Label)
    requires Inv(s) && Fenced(s.events) && PhaseBacked(s)
    ensures Fenced(Step(s, l).events) && PhaseBacked(Step(s, l))
  {
    var es, es' := s.events, Step(s, l).events;
    OneEventPerStep(s, l);
    NewEventFenced(s, l);
    forall k | 0 <= k < |es'| ensures FencedAt(es', k) {
      if k < |es| {
        assert FencedAt(es, k);
      }
    }
  }

  /** Authority fencing over every run. */
  lemma {:induction false} AuthorityFencing(s: State, labels: seq<Label>)
    requires Inv(s) && Fenced(s.events) && PhaseBacked(s)
    ensures Fenced(Run(s, labels).events) && PhaseBacked(Run(s, labels))
    decreases |labels|
  {
    if labels != [] {
      StepKeepsInv(s, labels[0]);
      StepKeepsFenced(s, labels[0]);
      AuthorityFencing(Step(s, labels[0]), labels[1..]);
    }
  }

  lemma EveryOutputIsFenced(s: State, labels: seq<Label>)
    requires Initial(s)
    ensures Fenced(Run(s, labels).events)
  {
    InitialInv(s);
    AuthorityFencing(s, labels);
  }

  // ---------------------------------------------------------------- writes after revocation

  /** How many writes a context has caused. */
  function Writes(es: seq<Event>, context: Context): nat {
    if es == [] then 0
    else
      var e := es[|es| - 1];
      Writes(es[..|es| - 1], context) + if IsOutput(e) && e.context == context then 1 else 0
  }

  /** The one write under a context that has already passed its last check. */
  function InFlight(s: State, context: Context): nat {
    match s.phase
    case Permitted(output, c, _) => if c == context && !output.SetRasterFrame? then 1 else 0
    case Writing(_, c, _) => if c == context then 1 else 0
    case _ => 0
  }

  ghost predicate NewWrite(es: seq<Event>, es': seq<Event>, context: Context) {
    es' != es && es' != [] && IsOutput(es'[|es'| - 1]) && es'[|es'| - 1].context == context
  }

  lemma WritesExtend(es: seq<Event>, es': seq<Event>, context: Context)
    requires Extends(es, es')
    ensures Writes(es', context) == Writes(es, context) + if NewWrite(es, es', context) then 1 else 0
  {
    if es' != es {
      assert es'[..|es'| - 1] == es;
    }
  }

  /** A write under a revoked context uses up the one in flight, and nothing new gets in flight. */
  ghost predicate Spends(s: State, s': State, context: Context) {
    && context in s'.revoked
    && InFlight(s', context) + (if NewWrite(s.events, s'.events, context) then 1 else 0) <= InFlight(s, context)
  }

  lemma ExecuteSpendsInFlight(s: State, a: Answer, context: Context)
    requires WellFormed(s.panel) && context in s.revoked && s.phase.Permitted?
    ensures Spends(s, ExecuteOutput(s, s.phase.output, s.phase.context, s.phase.done, a), context)
  {
  }

  lemma WorkSpendsInFlight(s: State, a: Answer, context: Context)
    requires WellFormed(s.panel) && context in s.revoked
    ensures Spends(s, WorkStep(s, a), context)
  {
    var timed := if s.phase.Exited? || a.now < s.clock then s else s.(clock := a.now);
    if s.phase.Permitted? {
      ExecuteSpendsInFlight(timed, a, context);
    }
  }

  lemma StepSpendsInFlight(s: State, l: Label, context: Context)
    requires WellFormed(s.panel) && context in s.revoked
    ensures context in Step(s, l).revoked
    ensures Writes(Step(s, l).events, context) + InFlight(Step(s, l), context)
            <= Writes(s.events, context) + InFlight(s, context)
  {
    OneEventPerStep(s, l);
    WritesExtend(s.events, Step(s, l).events, context);
    if l.Work? {
      WorkSpendsInFlight(s, l.answer, context);
    }
  }

  /** Once revoked, a context causes at most the single write already past its last check. */
  lemma {:induction false} AtMostOneLateWrite(s: State, labels: seq<Label>, context: Context)
    requires Inv(s) && context in s.revoked
    ensures Writes(Run(s, labels).events, context) <= Writes(s.events, context) + InFlight(s, context)
    decreases |labels|
  {
    if labels != [] {
      StepKeepsInv(s, labels[0]);
      StepSpendsInFlight(s, labels[0], context);
      AtMostOneLateWrite(Step(s, labels[0]), labels[1..], context);
    }
  }
}
