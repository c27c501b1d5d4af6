/** Stop is absorbing: nothing further is applied and the worker leaves within a bounded number of its own steps. */
module WorkerStop {
  import opened Basics
  import opened Commands
  import opened CommandQueues
  import opened DeviceWorkers
  import opened FrameWatchdogs
  import opened Panels
  import opened WorkerFailures
  import opened WorkerFencing

  function WorkCount(labels: seq<Label>): nat
    decreases |labels|
  {
    if labels == [] then 0 else WorkCount(labels[1..]) + if labels[0].Work? then 1 else 0
  }

  /** An upper bound on the worker steps left before it polls the head of its queue. */
  function StepsToPoll(p: Phase): nat {
    match p
    case Polling(done) => if done < BATCH then 0 else 3
    case Watching => 2
    case Reading => 1
    case Writing(_, _, _) => 4
    case Decoded(_, _, _) => 5
    case Permitted(_, _, _) => 6
    case Holding(_, _, _) => 7
    case _ => 3
  }

  function ResetLeft(p: Phase): nat {
    if p.Resetting? && p.next <= LAMPS + 1 then LAMPS + 2 - p.next else 0
  }

  /** An upper bound on the worker steps left once Stop is accepted. */
  function StepsToExit(p: Phase): nat {
    match p
    case Exited(_) => 0
    case Resetting(_, _, leaving, _) => ResetLeft(p) + if leaving then 0 else 3 + LAMPS + 2
    case _ => StepsToPoll(p) + LAMPS + 2
  }

  const STEPS_TO_EXIT := 22

  /** One for a command in the worker's hands that may still write. */
  function Carrying(p: Phase): nat {
    if p.Holding? || p.Permitted? || p.Decoded? || p.Writing? then 1 else 0
  }

  function Outputs(es: seq<Event>): nat {
    if es == [] then 0 else Outputs(es[..|es| - 1]) + if IsOutput(es[|es| - 1]) then 1 else 0
  }

  ghost predicate TakesOnlyStop(s: State, s': State) {
    && |s.taken| <= |s'.taken| && s'.taken[..|s.taken|] == s.taken
    && forall i :: |s.taken| <= i < |s'.taken| ==> s'.taken[i].command.Stop?
  }

  lemma WorkTowardsExit(s: State, a: Answer)
    requires Inv(s) && s.channel.stopping
    ensures var s' := WorkStep(s, a);
            && s'.channel.stopping
            && (StepsToExit(s.phase) > 0 ==> StepsToExit(s'.phase) < StepsToExit(s.phase))
            && TakesOnlyStop(s, s')
  {
    WorkMoves(s, a);
    if s.phase.Polling? && s.phase.done < BATCH {
      PollTakesHead(s, a);
    }
  }

  ghost predicate NewOutput(es: seq<Event>, es': seq<Event>) {
    es' != es && es' != [] && IsOutput(es'[|es'| - 1])
  }

  lemma OutputsExtend(es: seq<Event>, es': seq<Event>)
    requires Extends(es, es')
    ensures Outputs(es') == Outputs(es) + if NewOutput(es, es') then 1 else 0
  {
    if es' != es {
      assert es'[..|es'| - 1] == es;
    }
  }

  lemma ExecuteSpends(s: State, a: Answer)
    requires WellFormed(s.panel) && s.phase.Permitted?
    ensures var s' := ExecuteOutput(s, s.phase.output, s.phase.context, s.phase.done, a);
            Carrying(s'.phase) + (if NewOutput(s.events, s'.events) then 1 else 0) <= 1
  {
  }

  /** Only a step that gives up a carried command adds an output to the history. */
  lemma WorkSpendsCarried(s: State, a: Answer)
    requires WellFormed(s.panel)
    ensures var s' := WorkStep(s, a);
            Carrying(s'.phase) + (if NewOutput(s.events, s'.events) then 1 else 0) <=
            if s.phase.Polling? && s'.phase.Holding? then 1 else Carrying(s.phase)
  {
    var timed := if s.phase.Exited? || a.now < s.clock then s else s.(clock := a.now);
    if s.phase.Permitted? {
      ExecuteSpends(timed, a);
    }
  }

  lemma StepTowardsExit(s: State, l: Label)
    requires Inv(s) && s.channel.stopping
    ensures var s' := Step(s, l);
            && s'.channel.stopping && TakesOnlyStop(s, s')
            && StepsToExit(s'.phase) <= StepsToExit(s.phase)
            && (l.Work? && StepsToExit(s.phase) > 0 ==> StepsToExit(s'.phase) < StepsToExit(s.phase))
            && Outputs(s'.events) + Carrying(s'.phase) <= Outputs(s.events) + Carrying(s.phase)
  {
    OneEventPerStep(s, l);
    OutputsExtend(s.events, Step(s, l).events);
    if l.Work? {
      WorkTowardsExit(s, l.answer);
      WorkSpendsCarried(s, l.answer);
      if s.phase.Polling? && s.phase.done < BATCH {
        PollTakesHead(s, l.answer);
      }
    }
  }

  /**
   * From the moment Stop is accepted, whatever is sent, revoked or dropped:
   * every later dequeue yields Stop; at most the command already in the
   * worker's hands still writes; and after 22 worker steps at the latest the
   * worker has left, through a completed reset or for a recorded cause.
   */
  lemma {:induction false} StopIsAbsorbing(s: State, labels: seq<Label>)
    requires Inv(s) && s.channel.stopping
    ensures var s' := Run(s, labels);
            && s'.channel.stopping && TakesOnlyStop(s, s')
            && Outputs(s'.events) + Carrying(s'.phase) <= Outputs(s.events) + Carrying(s.phase)
            && (WorkCount(labels) >= StepsToExit(s.phase) ==> s'.phase.Exited?)
            && (s'.phase == Exited(true) ==> s'.panel == ResetPanel())
            && (s'.phase == Exited(false) && Accounted(s) ==> FailedForCause(s'))
    decreases |labels|
  {
    if labels == [] {
      RunKeepsInv(s, labels);
    } else {
      StepKeepsInv(s, labels[0]);
      StepTowardsExit(s, labels[0]);
      StopIsAbsorbing(Step(s, labels[0]), labels[1..]);
      var s1, s' := Step(s, labels[0]), Run(s, labels);
      assert s'.taken[..|s.taken|] == s'.taken[..|s1.taken|][..|s.taken|];
      forall i | |s.taken| <= i < |s'.taken| ensures s'.taken[i].command.Stop? {
        if i < |s1.taken| {
          assert s'.taken[i] == s'.taken[..|s1.taken|][i];
        }
      }
      if Accounted(s) {
        RunIsAccounted(s, labels);
      }
    }
  }

  /** A stopped worker leaves: with a reset panel, or for a recorded cause. */
  lemma StopEndsTheWorker(origin: State, before: seq<Label>, after: seq<Label>)
    requires Initial(origin) && WorkCount(after) >= STEPS_TO_EXIT
    ensures var s := Run(Step(Run(origin, before), Submit(Stop)), after);
            || (s.phase == Exited(true) && s.panel == ResetPanel())
            || FailedForCause(s)
  {
    InitialInv(origin);
    RunKeepsInv(origin, before);
    RunIsAccounted(origin, before);
    var s := Run(origin, before);
    StepKeepsInv(s, Submit(Stop));
    var stopped := Step(s, Submit(Stop));
    if s.phase.Exited? {
      ExitedStays(stopped, after);
    } else {
      StopIsAbsorbing(stopped, after);
    }
  }

  lemma {:induction false} ExitedStays(s: State, labels: seq<Label>)
    requires WellFormed(s.panel) && s.phase.Exited?
    ensures var s' := Run(s, labels);
            s'.phase == s.phase && s'.panel == s.panel && s'.resets == s.resets && s'.events == s.events
    decreases |labels|
  {
    if labels != [] {
      ExitedStays(Step(s, labels[0]), labels[1..]);
    }
  }

  // ---------------------------------------------------------------- exactly when Stop ends in a reset

  /** The worker working on undisturbed, every call answered, every report long enough or every report too short. */
  function Quietly(n: nat, whole: bool, now: Time): seq<Label> {
    seq(n, _ => Work(Answer(true, false, whole, now)))
  }

  lemma {:induction false} QuietlyWorks(n: nat, whole: bool, now: Time)
    ensures WorkCount(Quietly(n, whole, now)) == n && Answered(Quietly(n, whole, now), whole)
  {
    if n > 0 {
      assert Quietly(n, whole, now)[1..] == Quietly(n - 1, whole, now);
      QuietlyWorks(n - 1, whole, now);
    }
  }

  lemma RunQuietly(s: State, n: nat, whole: bool, now: Time)
    requires WellFormed(s.panel) && n > 0
    ensures WellFormed(WorkStep(s, Answer(true, false, whole, now)).panel)
    ensures Run(s, Quietly(n, whole, now)) == Run(WorkStep(s, Answer(true, false, whole, now)), Quietly(n - 1, whole, now))
  {
    StepKeepsPanelShape(s, Quietly(n, whole, now)[0]);
    assert Quietly(n, whole, now)[1..] == Quietly(n - 1, whole, now);
  }

  /** One answered step takes a doomed worker out, or past the check it is about to pass. */
  lemma DoomedStep(s: State, whole: bool)
    requires Inv(s) && Doomed(s)
    ensures var s' := WorkStep(s, Answer(true, false, whole, s.clock));
            && s'.resets == s.resets && s'.clock == s.clock
            && (s.phase.Holding? ==> s'.phase.Permitted? && Doomed(s'))
            && (!s.phase.Holding? ==> s'.phase == Exited(false))
  {
    if s.phase.Permitted? {
      ExecuteFailsIffInfeasible(s, Answer(true, false, whole, s.clock));
    }
  }

  /** A doomed worker fails although every call is answered. */
  lemma DoomedFails(s: State, n: nat, whole: bool)
    requires Inv(s) && Doomed(s) && n >= 2
    ensures var s' := Run(s, Quietly(n, whole, s.clock)); s'.phase == Exited(false) && s'.resets == s.resets
  {
    var a := Answer(true, false, whole, s.clock);
    var s1 := WorkStep(s, a);
    RunQuietly(s, n, whole, s.clock);
    DoomedStep(s, whole);
    if s.phase.Holding? {
      RunQuietly(s1, n - 1, whole, s.clock);
      WorkKeepsInv(s, a);
      DoomedStep(s1, whole);
      ExitedStays(WorkStep(s1, a), Quietly(n - 2, whole, s.clock));
    } else {
      ExitedStays(s1, Quietly(n - 1, whole, s.clock));
    }
  }

  /** A worker that reads first fails on a report too short, although every call is answered. */
  lemma {:induction false} ReadsFirstFails(s: State, n: nat)
    requires Inv(s) && ReadsFirst(s.phase) && n >= StepsToRead(s.phase)
    ensures var s' := Run(s, Quietly(n, false, s.clock));
            s'.phase == Exited(false) && (!s.phase.Resetting? ==> s'.resets == s.resets)
    decreases n
  {
    var a := Answer(true, false, false, s.clock);
    var s1 := WorkStep(s, a);
    RunQuietly(s, n, false, s.clock);
    WorkKeepsInv(s, a);
    ReadsFirstProgresses(s);
    if s1.phase == Exited(false) {
      ExitedStays(s1, Quietly(n - 1, false, s.clock));
    } else {
      ReadsFirstFails(s1, n - 1);
    }
  }

  /** A stopped worker that is safe, and polls before it reads unless reports are whole, stays so. */
  lemma {:induction false} AnsweredStopIsSafe(s: State, labels: seq<Label>, whole: bool)
    requires Inv(s) && s.channel.stopping && !Doomed(s) && Answered(labels, whole) && (whole || !ReadsFirst(s.phase))
    ensures !Doomed(Run(s, labels))
    decreases |labels|
  {
    if labels != [] {
      StepKeepsInv(s, labels[0]);
      StepTowardsExit(s, labels[0]);
      AnsweredStepKeepsSafe(s, labels[0], whole);
      if !ReadsFirst(s.phase) {
        StoppedPollsFirst(s, labels[0]);
      }
      AnsweredStopIsSafe(Step(s, labels[0]), labels[1..], whole);
    }
  }

  lemma StoppedPollsFirst(s: State, l: Label)
    requires Inv(s) && s.channel.stopping && !ReadsFirst(s.phase)
    ensures !ReadsFirst(Step(s, l).phase)
  {
    PollsFirstStays(s, l);
    if s.phase.Polling? && l.Work? {
      PollTakesHead(s, l.answer);
    }
  }

  /** However the environment interferes, answered calls take the stopped worker out through a completed reset. */
  ghost predicate AlwaysLeavesClean(s: State, whole: bool)
    requires WellFormed(s.panel)
  {
    forall labels :: Answered(labels, whole) && WorkCount(labels) >= STEPS_TO_EXIT ==> Run(s, labels).phase == Exited(true)
  }

  /**
   * With every USB call and HID read answered, a worker told to stop leaves
   * through a completed reset, in every run, if and only if, when Stop is
   * accepted, it is not already doomed and, unless all reports are long enough,
   * is not due to read one before it polls its queue.
   */
  lemma StopLeavesCleanIff(s: State, whole: bool)
    requires Inv(s) && s.channel.receiverAlive
    ensures AlwaysLeavesClean(Step(s, Submit(Stop)), whole) <==> !Doomed(s) && (whole || !ReadsFirst(s.phase))
  {
    var stopped := Step(s, Submit(Stop));
    StepKeepsInv(s, Submit(Stop));
    QuietlyWorks(STEPS_TO_EXIT, whole, stopped.clock);
    if Doomed(s) {
      DoomedFails(stopped, STEPS_TO_EXIT, whole);
    } else if !whole && ReadsFirst(s.phase) {
      ReadsFirstFails(stopped, STEPS_TO_EXIT);
    } else {
      forall labels | Answered(labels, whole) && WorkCount(labels) >= STEPS_TO_EXIT
        ensures Run(stopped, labels).phase == Exited(true)
      {
        StopIsAbsorbing(stopped, labels);
        AnsweredStopIsSafe(stopped, labels, whole);
      }
    }
  }
}
