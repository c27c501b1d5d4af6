/** Why a worker failed: every failed exit has a recorded cause, and which causes there are. */
module WorkerFailures {
  import opened Basics
  import opened Commands
  import opened CommandQueues
  import opened DeviceWorkers
  import opened Panels
  import opened WorkerFencing

  datatype Cause =
    | FailedWrite
    | FailedReset
    | UndecodableFrame(image: Image)
    | FailedHidRead
    | ShortHidReport
    | UnsupportedCommand

  /** The cause the end of a history gives for a failed exit, if it gives one. */
  function CauseOf(es: seq<Event>): Option<Cause> {
    if es == [] then None
    else
      match es[|es| - 1]
      case WriteLamp(_, _, _, ok) => if ok then None else Some(FailedWrite)
      case WriteFrame(_, _, _, ok) => if ok then None else Some(FailedWrite)
      case WriteBlank(_, ok) => if ok then None else Some(FailedWrite)
      case ShowNotice(ok) => if ok then None else Some(FailedWrite)
      case BlankScreen(ok) => if ok && !LampFailed(es[..|es| - 1]) then None else Some(FailedReset)
      case Convert(_, image, ok) => if ok then None else Some(UndecodableFrame(image))
      case BadHidRead(short) => Some(if short then ShortHidReport else FailedHidRead)
      case Unsupported(_) => Some(UnsupportedCommand)
      case _ => None
  }

  /** A reset has just given up on its lamps. */
  predicate LampFailed(es: seq<Event>) {
    es != [] && es[|es| - 1].DarkenLamp? && !es[|es| - 1].ok
  }

  /** A failed worker says why, and a reset that has lost a lamp remembers it. */
  ghost predicate Accounted(s: State) {
    && (s.phase == Exited(false) ==>
          CauseOf(s.events).Some? && (CauseOf(s.events).value.UndecodableFrame? ==> CauseOf(s.events).value.image in s.garbled))
    && (s.phase.Resetting? && !s.phase.ledsOk ==> LampFailed(s.events))
  }

  /** Out, without a completed reset, for a recorded cause. */
  predicate FailedForCause(s: State) {
    s.phase == Exited(false) && CauseOf(s.events).Some?
  }

  lemma ExecuteIsAccounted(s: State, a: Answer)
    requires WellFormed(s.panel) && s.phase.Permitted?
    ensures Accounted(ExecuteOutput(s, s.phase.output, s.phase.context, s.phase.done, a))
  {
  }

  lemma ResetIsAccounted(s: State, a: Answer)
    requires WellFormed(s.panel) && s.phase.Resetting? && Accounted(s)
    requires s.phase.ledsOk ==> 1 <= s.phase.next <= LAMPS + 1
    ensures var p := s.phase; Accounted(ResetStep(s, p.next, p.ledsOk, p.leaving, p.done, a))
  {
    var e := BlankScreen(a.ok);
    assert (s.events + [e])[..|s.events|] == s.events;
  }

  lemma WorkIsAccounted(s: State, a: Answer)
    requires Inv(s) && Accounted(s)
    ensures Accounted(WorkStep(s, a))
  {
    var timed := if s.phase.Exited? || a.now < s.clock then s else s.(clock := a.now);
    if s.phase.Permitted? {
      ExecuteIsAccounted(timed, a);
    } else if s.phase.Resetting? {
      ResetIsAccounted(timed, a);
    }
  }

  lemma {:induction false} RunIsAccounted(s: State, labels: seq<Label>)
    requires Inv(s) && Accounted(s)
    ensures Accounted(Run(s, labels))
    decreases |labels|
  {
    if labels != [] {
      StepKeepsInv(s, labels[0]);
      if labels[0].Work? {
        WorkIsAccounted(s, labels[0].answer);
      }
      RunIsAccounted(Step(s, labels[0]), labels[1..]);
    }
  }

  // ---------------------------------------------------------------- parsed commands

  ghost predicate NoneUnsupported(es: seq<Event>) {
    forall k :: 0 <= k < |es| ==> !es[k].Unsupported?
  }

  /** Only parsed commands have reached the worker. */
  ghost predicate ParsedOnly(s: State) {
    && AllParsed(s.channel.queue)
    && NoneUnsupported(s.events)
    && match s.phase
       case Holding(output, context, _) => Parsed(Hardware(output, context))
       case Permitted(output, context, _) => Parsed(Hardware(output, context))
       case _ => true
  }

  lemma ExecuteKeepsParsed(s: State, a: Answer)
    requires WellFormed(s.panel) && s.phase.Permitted? && ParsedOnly(s)
    ensures ParsedOnly(ExecuteOutput(s, s.phase.output, s.phase.context, s.phase.done, a))
  {
  }

  lemma PollKeepsParsed(s: State, done: nat)
    requires ParsedOnly(s)
    ensures ParsedOnly(Poll(s, done))
  {
    if s.channel.queue != [] {
      assert Parsed(s.channel.queue[0].command);
    }
  }

  lemma ResetKeepsParsed(s: State, a: Answer)
    requires WellFormed(s.panel) && s.phase.Resetting? && ParsedOnly(s)
    ensures var p := s.phase; ParsedOnly(ResetStep(s, p.next, p.ledsOk, p.leaving, p.done, a))
  {
  }

  lemma WorkKeepsParsed(s: State, a: Answer)
    requires WellFormed(s.panel) && ParsedOnly(s)
    ensures ParsedOnly(WorkStep(s, a))
  {
    var timed := if s.phase.Exited? || a.now < s.clock then s else s.(clock := a.now);
    match s.phase {
      case Permitted(_, _, _) => ExecuteKeepsParsed(timed, a);
      case Polling(done) => PollKeepsParsed(timed, done);
      case Resetting(_, _, _, _) => ResetKeepsParsed(timed, a);
      case _ =>
    }
  }

  lemma StepKeepsParsed(s: State, l: Label)
    requires Inv(s) && ParsedOnly(s) && (l.Submit? ==> Parsed(l.command))
    ensures ParsedOnly(Step(s, l))
  {
    match l {
      case Submit(c) =>
        SendAddsOnlyItself(s.channel, c);
        var q := Send(s.channel, c).queue;
        forall i | 0 <= i < |q| ensures Parsed(q[i].command) {
          assert q[i] in s.channel.queue || q[i] == Entry(c, s.channel.sent);
        }
      case Work(a) => WorkKeepsParsed(s, a);
      case _ =>
    }
  }

  lemma {:induction false} RunKeepsParsed(s: State, labels: seq<Label>)
    requires Inv(s) && ParsedOnly(s)
    requires forall i :: 0 <= i < |labels| && labels[i].Submit? ==> Parsed(labels[i].command)
    ensures ParsedOnly(Run(s, labels))
    decreases |labels|
  {
    if labels != [] {
      StepKeepsInv(s, labels[0]);
      StepKeepsParsed(s, labels[0]);
      RunKeepsParsed(Step(s, labels[0]), labels[1..]);
    }
  }

  /**
   * Over every run in which controllers' messages are parsed before they are
   * sent, a worker that fails does so for one of five recorded causes: a write
   * that failed, a reset that was tried and failed, a frame that does not
   * decode, a HID read that failed, or a HID report too short to decode.
   */
  lemma EveryFailureHasACause(s: State, labels: seq<Label>)
    requires Initial(s) && AllParsed(s.channel.queue)
    requires forall i :: 0 <= i < |labels| && labels[i].Submit? ==> Parsed(labels[i].command)
    requires Run(s, labels).phase == Exited(false)
    ensures var cause := CauseOf(Run(s, labels).events);
            && cause.Some? && !cause.value.UnsupportedCommand?
            && (cause.value.UndecodableFrame? ==> cause.value.image in Run(s, labels).garbled)
  {
    InitialInv(s);
    RunIsAccounted(s, labels);
    RunKeepsParsed(s, labels);
    var es := Run(s, labels).events;
    assert !es[|es| - 1].Unsupported?;
  }

  // ---------------------------------------------------------------- when nothing can fail

  /** Every USB call and HID read succeeds; with `whole`, every report read is long enough, too. */
  ghost predicate Answered(labels: seq<Label>, whole: bool) {
    forall i :: 0 <= i < |labels| && labels[i].Work? ==> labels[i].answer.ok && (whole ==> labels[i].answer.whole)
  }

  /** The worker cannot carry the output out: an unknown lamp, an unknown encoding, or an image that does not decode. */
  predicate Infeasible(garbled: set<Image>, output: Output) {
    match output
    case SetLed(control, _) => LedIndex(control) == None
    case SetRasterFrame(control, encoding, image) =>
      control == SCREEN && ((encoding != "jpeg" && encoding != "png") || image in garbled)
    case ClearRaster(_) => false
  }

  /**
   * Whatever USB does next, the worker may fail before it serves its queue
   * again: it holds an output it cannot carry out and whose claim stands (or
   * stood at the check already passed), or it has lost a lamp in a reset.
   */
  predicate Doomed(s: State) {
    match s.phase
    case Holding(output, context, _) => context !in s.revoked && Infeasible(s.garbled, output)
    case Permitted(output, _, _) => Infeasible(s.garbled, output)
    case Resetting(_, ledsOk, _, _) => !ledsOk
    case Exited(clean) => !clean
    case _ => false
  }

  /** For parsed commands that leaves one kind of output: a frame for the screen that does not decode. */
  lemma ParsedInfeasibleIsUndecodable(garbled: set<Image>, output: Output, context: Context)
    requires Parsed(Hardware(output, context))
    ensures Infeasible(garbled, output) <==> output.SetRasterFrame? && output.control == SCREEN && output.image in garbled
  {
  }

  lemma ExecuteFailsIffInfeasible(s: State, a: Answer)
    requires WellFormed(s.panel) && s.phase.Permitted? && a.ok
    ensures ExecuteOutput(s, s.phase.output, s.phase.context, s.phase.done, a).phase == Exited(false) <==>
            Infeasible(s.garbled, s.phase.output)
  {
  }

  /** With its calls answered, a worker stays safe until it polls an output, or reads a report too short. */
  lemma AnsweredStepKeepsSafe(s: State, l: Label, whole: bool)
    requires Inv(s) && !Doomed(s) && Answered([l], whole)
    requires l.Work? && s.phase.Polling? && s.phase.done < BATCH ==>
               s.channel.queue != [] && !s.channel.queue[0].command.Hardware?
    requires s.phase.Reading? ==> whole
    ensures !Doomed(Step(s, l))
  {
    assert l.Work? ==> [l][0].answer.ok;
    if l.Work? && s.phase.Permitted? {
      var timed := if l.answer.now < s.clock then s else s.(clock := l.answer.now);
      ExecuteFailsIffInfeasible(timed, l.answer);
    }
  }

  // ---------------------------------------------------------------- when a HID read comes first

  /** The worker will read a HID report before it polls its queue again, unless it fails. */
  predicate ReadsFirst(p: Phase) {
    match p
    case Polling(done) => done >= BATCH
    case Holding(_, _, done) => done + 1 >= BATCH
    case Permitted(_, _, done) => done + 1 >= BATCH
    case Decoded(_, _, done) => done + 1 >= BATCH
    case Writing(_, _, done) => done + 1 >= BATCH
    case Resetting(_, _, leaving, done) => !leaving && done + 1 >= BATCH
    case Watching => true
    case Reading => true
    case Exited(_) => false
  }

  /** A worker due to poll first stays so until it has polled. */
  lemma PollsFirstStays(s: State, l: Label)
    requires Inv(s) && !ReadsFirst(s.phase)
    requires l.Work? && s.phase.Polling? ==> s.channel.queue != [] && !s.channel.queue[0].command.Hardware?
    ensures s.phase.Polling? && l.Work? ==> Step(s, l).phase.Resetting?
    ensures !(s.phase.Polling? && l.Work?) ==> !ReadsFirst(Step(s, l).phase)
  {
    if l.Work? {
      WorkMovesPhase(s, l.answer);
      if s.phase.Polling? {
        PollTakesHead(s, l.answer);
      }
    }
  }

  /** An upper bound on the worker steps before that read is over. */
  function StepsToRead(p: Phase): nat {
    match p
    case Reading => 1
    case Watching => 2
    case Polling(_) => 3
    case Writing(_, _, _) => 4
    case Decoded(_, _, _) => 5
    case Permitted(_, _, _) => 6
    case Holding(_, _, _) => 7
    case Resetting(next, _, _, _) => if next <= LAMPS + 1 then 4 + LAMPS + 1 - next else 4
    case Exited(_) => 0
  }

  /** Every step towards a report that is too short either fails or is one nearer to it. */
  lemma ReadsFirstProgresses(s: State)
    requires Inv(s) && ReadsFirst(s.phase)
    ensures var s' := WorkStep(s, Answer(true, false, false, s.clock));
            && s'.clock == s.clock && (!s.phase.Resetting? ==> s'.resets == s.resets)
            && (s'.phase == Exited(false) ||
                (ReadsFirst(s'.phase) && StepsToRead(s'.phase) < StepsToRead(s.phase)
                 && (s'.phase.Resetting? ==> s.phase.Resetting?)))
  {
    WorkMovesPhase(s, Answer(true, false, false, s.clock));
  }
}
