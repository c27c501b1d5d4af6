/** Nothing written under a lost claim survives the reset that follows it. */
module WorkerResidue {
  import opened Basics
  import opened Commands
  import opened CommandQueues
  import opened DeviceWorkers
  import opened Panels
  import opened WorkerFailures
  import opened WorkerFencing
  import opened WorkerStop

  /** Revoked, absent from the panel, and with no write still on its way. */
  ghost predicate Gone(s: State, context: Context) {
    context in s.revoked && CleanOf(s.panel, context) && InFlight(s, context) == 0
  }

  lemma ExecuteKeepsGone(s: State, a: Answer, context: Context)
    requires WellFormed(s.panel) && Gone(s, context) && s.phase.Permitted?
    ensures Gone(ExecuteOutput(s, s.phase.output, s.phase.context, s.phase.done, a), context)
  {
  }

  lemma WorkKeepsGone(s: State, a: Answer, context: Context)
    requires WellFormed(s.panel) && Gone(s, context)
    ensures Gone(WorkStep(s, a), context)
  {
    if s.phase.Permitted? {
      ExecuteKeepsGone(if a.now < s.clock then s else s.(clock := a.now), a, context);
    } else {
      OtherWorkKeepsGone(s, a, context);
    }
  }

  lemma OtherWorkKeepsGone(s: State, a: Answer, context: Context)
    requires WellFormed(s.panel) && Gone(s, context) && !s.phase.Permitted?
    ensures Gone(WorkStep(s, a), context)
  {
  }

  lemma StepKeepsGone(s: State, l: Label, context: Context)
    requires WellFormed(s.panel) && Gone(s, context)
    ensures Gone(Step(s, l), context)
  {
    if l.Work? {
      WorkKeepsGone(s, l.answer, context);
    }
  }

  lemma {:induction false} GoneForGood(s: State, labels: seq<Label>, context: Context)
    requires Inv(s) && Gone(s, context)
    ensures Gone(Run(s, labels), context)
    decreases |labels|
  {
    if labels != [] {
      StepKeepsInv(s, labels[0]);
      StepKeepsGone(s, labels[0], context);
      GoneForGood(Step(s, labels[0]), labels[1..], context);
    }
  }

  /** A reset that is waiting at the head of the queue or already under way. */
  ghost predicate ResetOutstanding(s: State) {
    || (s.channel.queue != [] && !s.channel.queue[0].command.Hardware?)
    || s.phase.Resetting?
  }

  /** A reset at the head is overtaken by nothing but Stop or another reset. */
  lemma HeadStays(q: QueueState, c: Command)
    requires Shape(q) && q.queue != [] && !q.queue[0].command.Hardware?
    ensures var q' := Send(q, c).queue; q' != [] && !q'[0].command.Hardware?
  {
    if q.receiverAlive && c.Hardware? && !q.stopping {
      var kept := Retain(q.queue, c.output.control);
      RetainKeeps(q.queue, c.output.control);
      OneEviction(kept);
      assert q.queue[0] in kept;
      var k :| 0 <= k < |kept| && kept[k] == q.queue[0];
      if |kept| == CAPACITY {
        assert MakeRoom(kept)[0] == kept[0];
      }
    }
  }

  /** What holds from the moment a reset is accepted: it is still due, or it has happened, or the worker has failed. */
  ghost predicate ResetSettles(s: State, base: nat, context: Context) {
    && s.resets >= base
    && (s.resets > base ==> Gone(s, context))
    && (s.resets == base ==> ResetOutstanding(s) || s.phase == Exited(false))
  }

  lemma WorkKeepsSettling(s: State, a: Answer, base: nat, context: Context)
    requires Inv(s) && context in s.revoked && ResetSettles(s, base, context)
    requires Gone(s, context) ==> Gone(WorkStep(s, a), context)
    ensures ResetSettles(WorkStep(s, a), base, context)
  {
    if s.phase.Resetting? {
      ResetFinishes(s, a, context);
    } else {
      CountedOnlyByReset(s, a);
      WorkMoves(s, a);
      if s.phase.Polling? && s.phase.done < BATCH && s.channel.queue != [] {
        PollTakesHead(s, a);
      }
    }
  }

  lemma StepKeepsSettling(s: State, l: Label, base: nat, context: Context)
    requires Inv(s) && context in s.revoked && ResetSettles(s, base, context)
    ensures ResetSettles(Step(s, l), base, context)
  {
    if Gone(s, context) {
      StepKeepsGone(s, l, context);
    }
    match l {
      case Submit(c) =>
        if s.channel.queue != [] && !s.channel.queue[0].command.Hardware? {
          HeadStays(s.channel, c);
        }
      case Work(a) => WorkKeepsSettling(s, a, base, context);
      case _ =>
    }
  }

  /** A reset step either completes the reset, leaving the panel as a reset leaves it, or goes on, or fails. */
  lemma ResetFinishes(s: State, a: Answer, context: Context)
    requires Inv(s) && s.phase.Resetting? && context in s.revoked
    ensures var s' := WorkStep(s, a);
            if s'.resets == s.resets then s'.phase.Resetting? || s'.phase == Exited(false)
            else s'.resets == s.resets + 1 && s'.panel == ResetPanel() && Gone(s', context)
  {
    var s' := WorkStep(s, a);
    if s'.resets != s.resets {
      AllDark(s'.panel);
    }
  }

  /** A reset accepted for a revoked context is settling, in a state that can be. */
  ghost predicate Settling(s: State, base: nat, context: Context) {
    Inv(s) && context in s.revoked && ResetSettles(s, base, context)
  }

  lemma StepSettles(s: State, l: Label, base: nat, context: Context)
    requires Settling(s, base, context)
    ensures Settling(Step(s, l), base, context)
  {
    StepKeepsInv(s, l);
    StepKeepsSettling(s, l, base, context);
  }

  lemma {:induction false} RunKeepsSettling(s: State, labels: seq<Label>, base: nat, context: Context)
    requires Settling(s, base, context)
    ensures Settling(Run(s, labels), base, context)
    decreases |labels|
  {
    if labels != [] {
      StepSettles(s, labels[0], base, context);
      RunKeepsSettling(Step(s, labels[0]), labels[1..], base, context);
    }
  }

  lemma {:induction false} RevokedStays(s: State, labels: seq<Label>, context: Context)
    requires WellFormed(s.panel) && context in s.revoked
    ensures context in Run(s, labels).revoked
    decreases |labels|
  {
    if labels != [] {
      StepKeepsPanelShape(s, labels[0]);
      RevokedStays(Step(s, labels[0]), labels[1..], context);
    }
  }

  /**
   * No residue of a lost claim. After any history, revoke a context; after any
   * more steps, let a reset or Stop be accepted; then at every later moment,
   * if a reset has completed since, nothing of the context is on the panel and
   * nothing of it is under way, and until then the reset is still outstanding
   * unless the worker has failed for a recorded cause.
   */
  lemma NoResidue(origin: State, before: seq<Label>, context: Context, between: seq<Label>, c: Command, after: seq<Label>)
    requires Initial(origin) && !c.Hardware?
    requires Run(origin, before + [Revoke(context)] + between).channel.receiverAlive
    ensures var accepted := Run(origin, before + [Revoke(context)] + between);
            var s := Run(origin, before + [Revoke(context)] + between + [Submit(c)] + after);
            && (s.resets > accepted.resets ==> Gone(s, context))
            && (s.resets <= accepted.resets ==> ResetOutstanding(s) || FailedForCause(s))
  {
    InitialInv(origin);
    RunIsAccounted(origin, before + [Revoke(context)] + between + [Submit(c)] + after);
    var prefix := before + [Revoke(context)] + between;
    var accepted := Run(origin, prefix);
    RunKeepsInv(origin, prefix);
    RunConcat(origin, before + [Revoke(context)], between);
    RunConcat(origin, before, [Revoke(context)]);
    var revoked := Run(origin, before + [Revoke(context)]);
    assert revoked == Step(Run(origin, before), Revoke(context)) by {
      assert Run(Run(origin, before), [Revoke(context)]) ==
             Run(Step(Run(origin, before), Revoke(context)), [Revoke(context)][1..]);
    }
    RevokedStays(revoked, between, context);
    RunConcat(origin, prefix + [Submit(c)], after);
    RunConcat(origin, prefix, [Submit(c)]);
    var s := Step(accepted, Submit(c));
    assert Run(accepted, [Submit(c)]) == Run(s, [Submit(c)][1..]);
    StepKeepsInv(accepted, Submit(c));
    assert ResetSettles(s, accepted.resets, context);
    RunKeepsSettling(s, after, accepted.resets, context);
  }

  // ---------------------------------------------------------------- the reset does happen

  /** An upper bound on the worker steps left before an outstanding reset has completed. */
  function StepsToReset(p: Phase): nat {
    if p.Resetting? then ResetLeft(p) else StepsToPoll(p) + LAMPS + 2
  }

  const STEPS_TO_RESET := 17

  lemma StepTowardsReset(s: State, l: Label)
    requires Inv(s) && ResetOutstanding(s) && !s.phase.Exited?
    ensures var s' := Step(s, l);
            || s'.resets > s.resets
            || s'.phase == Exited(false)
            || (ResetOutstanding(s') && !s'.phase.Exited? && s'.resets == s.resets
                && StepsToReset(s'.phase) <= StepsToReset(s.phase) - if l.Work? then 1 else 0)
  {
    match l {
      case Submit(c) =>
        if s.channel.queue != [] && !s.channel.queue[0].command.Hardware? {
          HeadStays(s.channel, c);
        }
      case Work(a) => WorkTowardsReset(s, a);
      case _ =>
    }
  }

  lemma WorkTowardsReset(s: State, a: Answer)
    requires Inv(s) && ResetOutstanding(s) && !s.phase.Exited?
    ensures var s' := WorkStep(s, a);
            || s'.resets > s.resets
            || s'.phase == Exited(false)
            || (ResetOutstanding(s') && !s'.phase.Exited? && s'.resets == s.resets
                && StepsToReset(s'.phase) < StepsToReset(s.phase))
  {
    WorkMoves(s, a);
    if s.phase.Polling? && s.phase.done < BATCH {
      PollTakesHead(s, a);
    }
    if s.phase.Resetting? {
      ResetCounts(s, a);
    } else {
      CountedOnlyByReset(s, a);
    }
  }

  lemma ResetCounts(s: State, a: Answer)
    requires Inv(s) && s.phase.Resetting?
    ensures var s' := WorkStep(s, a);
            s'.resets == s.resets + if s'.phase.Resetting? || s'.phase == Exited(false) then 0 else 1
  {
  }

  lemma CountedOnlyByReset(s: State, a: Answer)
    requires Inv(s) && !s.phase.Resetting?
    ensures WorkStep(s, a).resets == s.resets
  {
  }

  lemma {:induction false} ResetsOnlyGrow(s: State, labels: seq<Label>)
    requires WellFormed(s.panel)
    ensures Run(s, labels).resets >= s.resets
    decreases |labels|
  {
    if labels != [] {
      StepKeepsPanelShape(s, labels[0]);
      ResetsOnlyGrow(Step(s, labels[0]), labels[1..]);
    }
  }

  /** An outstanding reset completes within 17 worker steps, unless the worker fails for a recorded cause. */
  lemma {:induction false} ResetHappens(s: State, labels: seq<Label>)
    requires Inv(s) && ResetOutstanding(s) && !s.phase.Exited?
    requires WorkCount(labels) >= StepsToReset(s.phase)
    ensures var s' := Run(s, labels);
            || s'.resets > s.resets
            || (s'.phase == Exited(false) && (Accounted(s) ==> FailedForCause(s')))
    decreases |labels|
  {
    if Accounted(s) {
      RunIsAccounted(s, labels);
    }
    if labels != [] {
      var s' := Step(s, labels[0]);
      StepKeepsInv(s, labels[0]);
      StepTowardsReset(s, labels[0]);
      if s'.phase == Exited(false) {
        ExitedStays(s', labels[1..]);
      } else if s'.resets > s.resets {
        ResetsOnlyGrow(s', labels[1..]);
      } else {
        ResetHappens(s', labels[1..]);
      }
    }
  }

  /** Revocation followed by an accepted reset removes every trace, for good, after 17 worker steps, or the worker fails. */
  lemma ResetRemovesResidue(s: State, c: Command, labels: seq<Label>, later: seq<Label>, context: Context)
    requires Inv(s) && s.channel.receiverAlive && !c.Hardware? && context in s.revoked
    requires WorkCount(labels) >= STEPS_TO_RESET
    ensures var s' := Run(Run(Step(s, Submit(c)), labels), later);
            Gone(s', context) || (s'.phase == Exited(false) && (Accounted(s) ==> FailedForCause(s')))
  {
    var s1 := Step(s, Submit(c));
    StepKeepsInv(s, Submit(c));
    if Accounted(s) {
      RunIsAccounted(s1, labels);
      RunKeepsInv(s1, labels);
      RunIsAccounted(Run(s1, labels), later);
    }
    var s2 := Run(s1, labels);
    RunKeepsInv(s1, labels);
    ResetHappens(s1, labels);
    RunKeepsSettling(s1, labels, s.resets, context);
    if s2.phase == Exited(false) {
      ExitedStays(s2, later);
    } else {
      GoneForGood(s2, later, context);
    }
  }

  // ---------------------------------------------------------------- exactly when the reset happens

  /** The worker has a reset under way, or polls the one that waits before it reads a report, or reports are whole. */
  predicate ResetsBeforeReading(p: Phase, whole: bool) {
    whole || p.Resetting? || !ReadsFirst(p)
  }

  lemma StillResetsBeforeReading(s: State, l: Label, whole: bool)
    requires Inv(s) && ResetOutstanding(s) && ResetsBeforeReading(s.phase, whole)
    ensures ResetsBeforeReading(Step(s, l).phase, whole) || Step(s, l).resets > s.resets || Step(s, l).phase.Exited?
  {
    if s.phase.Resetting? {
      if l.Work? {
        WorkMovesPhase(s, l.answer);
        ResetCounts(s, l.answer);
      }
    } else if !ReadsFirst(s.phase) {
      PollsFirstStays(s, l);
    }
  }

  lemma {:induction false} AnsweredResetHappens(s: State, labels: seq<Label>, whole: bool)
    requires Inv(s) && ResetOutstanding(s) && !s.phase.Exited? && !Doomed(s)
    requires Answered(labels, whole) && ResetsBeforeReading(s.phase, whole)
    requires WorkCount(labels) >= StepsToReset(s.phase)
    ensures Run(s, labels).resets > s.resets
    decreases |labels|
  {
    if labels != [] {
      var s' := Step(s, labels[0]);
      StepKeepsInv(s, labels[0]);
      StepTowardsReset(s, labels[0]);
      AnsweredStepKeepsSafe(s, labels[0], whole);
      StillResetsBeforeReading(s, labels[0], whole);
      if s'.resets > s.resets {
        ResetsOnlyGrow(s', labels[1..]);
      } else {
        AnsweredResetHappens(s', labels[1..], whole);
      }
    }
  }

  /** However the environment interferes, answered calls complete a reset within the bound. */
  ghost predicate AlwaysResets(s: State, whole: bool)
    requires WellFormed(s.panel)
  {
    forall labels :: Answered(labels, whole) && WorkCount(labels) >= STEPS_TO_RESET ==> Run(s, labels).resets > s.resets
  }

  /**
   * With every USB call and HID read answered, an accepted reset or Stop is
   * carried out within 17 worker steps, in every run, if and only if, when it
   * is accepted, the worker is not already doomed and, unless all reports are
   * long enough, is not due to read one before it polls its queue.
   */
  lemma ResetCompletesIff(s: State, c: Command, whole: bool)
    requires Inv(s) && s.channel.receiverAlive && !c.Hardware?
    ensures AlwaysResets(Step(s, Submit(c)), whole) <==> !Doomed(s) && ResetsBeforeReading(s.phase, whole)
  {
    var accepted := Step(s, Submit(c));
    StepKeepsInv(s, Submit(c));
    QuietlyWorks(STEPS_TO_RESET, whole, accepted.clock);
    if Doomed(s) {
      DoomedFails(accepted, STEPS_TO_RESET, whole);
    } else if !ResetsBeforeReading(s.phase, whole) {
      ReadsFirstFails(accepted, STEPS_TO_RESET);
    } else {
      forall labels | Answered(labels, whole) && WorkCount(labels) >= STEPS_TO_RESET
        ensures Run(accepted, labels).resets > accepted.resets
      {
        AnsweredResetHappens(accepted, labels, whole);
      }
    }
  }
}
