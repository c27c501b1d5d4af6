/**
 * One device worker, its command queue and its panel as a state machine. The
 * environment revokes contexts, sends commands and clones or drops senders
 * between any two steps of the worker; every USB call may fail, an image may
 * not decode, and a HID report may be too short.
 */
module DeviceWorkers {
  import opened Basics
  import opened Commands
  import opened CommandQueues
  import opened Panels
  import opened FrameWatchdogs

  const BATCH := 4

  /** Where the worker stands; `done` counts the commands of the current batch. */
  datatype Phase =
    | Polling(done: nat)
    | Holding(output: Output, context: Context, done: nat)
    | Permitted(output: Output, context: Context, done: nat)
    | Decoded(image: Image, context: Context, done: nat)
    | Writing(image: Image, context: Context, done: nat)
    | Resetting(next: nat, ledsOk: bool, leaving: bool, done: nat)
    | Watching
    | Reading
    | Exited(clean: bool)

  /** What the worker did: authority checks, conversions, attempted USB writes, and what else can end it. */
  datatype Event =
    | Check(context: Context, granted: bool)
    | Convert(context: Context, image: Image, ok: bool)
    | WriteLamp(context: Context, index: nat, on: bool, ok: bool)
    | WriteFrame(context: Context, image: Image, at: Time, ok: bool)
    | WriteBlank(context: Context, ok: bool)
    | DarkenLamp(index: nat, ok: bool)
    | BlankScreen(ok: bool)
    | ShowNotice(ok: bool)
    | Unsupported(context: Context)
    | BadHidRead(short: bool)

  /**
   * `garbled` holds the images that do not decode, and never changes; the last
   * three fields are history, which no step reads.
   */
  datatype State = State(
    garbled: set<Image>,
    revoked: set<Context>,
    channel: QueueState,
    phase: Phase,
    panel: Panel,
    watch: Watch,
    clock: Time,
    events: seq<Event>,
    taken: seq<Entry>,
    resets: nat)

  /**
   * How the outside world answers one worker step: whether its USB call
   * succeeds, or fails but reaches the panel, and whether a HID report read is
   * long enough to decode.
   */
  datatype Answer = Answer(ok: bool, landed: bool, whole: bool, now: Time)

  datatype Label =
    | Revoke(context: Context)
    | Submit(command: Command)
    | CloneSender
    | DropSender
    | Work(answer: Answer)

  /**
   * A worker that has opened its device, cleared the lamps and reported
   * Connected; its queue may have been filled, or stopped, meanwhile.
   */
  ghost predicate Initial(s: State) {
    && Shape(s.channel) && s.channel.receiverAlive
    && (s.channel.stopping ==> s.channel.queue != [])
    && s.phase == Polling(0)
    && s.panel == Panel(seq(LAMPS, _ => DARK), Unknown)
    && s.watch == Started(s.watch.timeout, s.clock) && s.watch.timeout > 0
    && s.events == [] && s.taken == [] && s.resets == 0
  }

  // ---------------------------------------------------------------- worker steps

  function Fail(s: State): State {
    s.(phase := Exited(false), channel := s.channel.(receiverAlive := false))
  }

  function Conclude(s: State, effect: DisplayEffect, done: nat): State {
    s.(watch := Observed(s.watch, effect, s.clock), phase := Polling(done + 1))
  }

  function Note(s: State, e: Event): State {
    s.(events := s.events + [e])
  }

  function Poll(s: State, done: nat): State {
    var (channel, got) := TryRecv(s.channel);
    match got
    case Empty => s.(phase := Watching)
    case Disconnected => s.(phase := Resetting(1, true, true, done))
    case Got(e) =>
      var next :=
        match e.command
        case Stop => Resetting(1, true, true, done)
        case ResetDevice => Resetting(1, true, false, done)
        case Hardware(output, context) => Holding(output, context, done);
      s.(channel := channel, taken := s.taken + [e], phase := next)
  }

  /** The first authority check: a refused command is dropped, not failed. */
  function FirstCheck(s: State, output: Output, context: Context, done: nat): State {
    var granted := context !in s.revoked;
    var s' := Note(s, Check(context, granted));
    if granted then s'.(phase := Permitted(output, context, done)) else Conclude(s', NoEffect, done)
  }

  function ExecuteOutput(s: State, output: Output, context: Context, done: nat, a: Answer): State
    requires WellFormed(s.panel)
  {
    match output
    case SetLed(control, on) =>
      var index := LedIndex(control);
      if index == None then Fail(Note(s, Unsupported(context)))
      else
        var lit := SetLamp(s.panel, index.value, Lamp(on, Some(context)));
        var s' := Note(s, WriteLamp(context, index.value, on, a.ok)).(panel := if a.ok || a.landed then lit else s.panel);
        if a.ok then Conclude(s', NoEffect, done) else Fail(s')
    case SetRasterFrame(control, encoding, image) =>
      if control != SCREEN then Conclude(s, NoEffect, done)
      else if encoding != "jpeg" && encoding != "png" then Fail(Note(s, Unsupported(context)))
      else if image in s.garbled then Fail(Note(s, Convert(context, image, false)))
      else Note(s, Convert(context, image, true)).(phase := Decoded(image, context, done))
    case ClearRaster(control) =>
      if control != SCREEN then Conclude(s, NoEffect, done)
      else
        var blank := s.panel.(screen := Blank);
        var s' := Note(s, WriteBlank(context, a.ok)).(panel := if a.ok || a.landed then blank else s.panel);
        if a.ok then Conclude(s', ClearEffect, done) else Fail(s')
  }

  /** The second check, after conversion and immediately before the write. */
  function SecondCheck(s: State, image: Image, context: Context, done: nat): State {
    var granted := context !in s.revoked;
    var s' := Note(s, Check(context, granted));
    if granted then s'.(phase := Writing(image, context, done)) else Conclude(s', NoEffect, done)
  }

  function SendFrame(s: State, image: Image, context: Context, done: nat, a: Answer): State {
    var shown := s.panel.(screen := Frame(image, context));
    var s' := Note(s, WriteFrame(context, image, s.clock, a.ok)).(panel := if a.ok || a.landed then shown else s.panel);
    if a.ok then Conclude(s', FrameEffect, done) else Fail(s')
  }

  /** Lamps first, up to the first failure; then the screen, tried in any case. */
  function ResetStep(s: State, next: nat, ledsOk: bool, leaving: bool, done: nat, a: Answer): State
    requires WellFormed(s.panel)
  {
    if 1 <= next <= LAMPS && ledsOk then
      var dark := SetLamp(s.panel, next, DARK);
      Note(s, DarkenLamp(next, a.ok)).(
        panel := if a.ok || a.landed then dark else s.panel,
        phase := Resetting(if a.ok then next + 1 else LAMPS + 1, a.ok, leaving, done))
    else
      var blank := s.panel.(screen := Blank);
      var s' := Note(s, BlankScreen(a.ok)).(panel := if a.ok || a.landed then blank else s.panel);
      if !ledsOk || !a.ok then Fail(s')
      else if leaving then
        s'.(phase := Exited(true), resets := s.resets + 1, channel := s.channel.(receiverAlive := false))
      else Conclude(s'.(resets := s.resets + 1), ResetEffect, done)
  }

  function Watchdog(s: State, a: Answer): State {
    if !Due(s.watch, s.clock) then s.(phase := Reading)
    else
      var notice := s.panel.(screen := Notice);
      var s' := Note(s, ShowNotice(a.ok)).(panel := if a.ok || a.landed then notice else s.panel);
      if a.ok then s'.(watch := s.watch.(noticeShown := true), phase := Reading) else Fail(s')
  }

  /** A timeout or an empty report is no failure; a failed read or a one-byte report ends the worker. */
  function ReadHid(s: State, a: Answer): State {
    if a.ok && a.whole then s.(phase := Polling(0)) else Fail(Note(s, BadHidRead(a.ok)))
  }

  function WorkStep(s0: State, a: Answer): State
    requires WellFormed(s0.panel)
  {
    var s := if s0.phase.Exited? || a.now < s0.clock then s0 else s0.(clock := a.now);
    match s.phase
    case Polling(done) => if done >= BATCH then s.(phase := Watching) else Poll(s, done)
    case Holding(output, context, done) => FirstCheck(s, output, context, done)
    case Permitted(output, context, done) => ExecuteOutput(s, output, context, done, a)
    case Decoded(image, context, done) => SecondCheck(s, image, context, done)
    case Writing(image, context, done) => SendFrame(s, image, context, done, a)
    case Resetting(next, ledsOk, leaving, done) => ResetStep(s, next, ledsOk, leaving, done, a)
    case Watching => Watchdog(s, a)
    case Reading => ReadHid(s, a)
    case Exited(_) => s
  }

  function Step(s: State, l: Label): State
    requires WellFormed(s.panel)
  {
    match l
    case Revoke(context) => s.(revoked := s.revoked + {context})
    case Submit(c) => s.(channel := Send(s.channel, c))
    case CloneSender => s.(channel := s.channel.(senderCount := s.channel.senderCount + 1))
    case DropSender =>
      s.(channel := s.channel.(senderCount := if s.channel.senderCount == 0 then 0 else s.channel.senderCount - 1))
    case Work(a) => WorkStep(s, a)
  }

  lemma StepKeepsPanelShape(s: State, l: Label)
    requires WellFormed(s.panel)
    ensures WellFormed(Step(s, l).panel)
  {
  }

  function Run(s: State, labels: seq<Label>): (r: State)
    requires WellFormed(s.panel)
    ensures WellFormed(r.panel)
    decreases |labels|
  {
    if labels == [] then s
    else
      StepKeepsPanelShape(s, labels[0]);
      Run(Step(s, labels[0]), labels[1..])
  }

  lemma {:induction false} RunConcat(s: State, a: seq<Label>, b: seq<Label>)
    requires WellFormed(s.panel)
    ensures Run(s, a + b) == Run(Run(s, a), b)
    decreases |a|
  {
    if a == [] {
      assert a + b == b;
    } else {
      StepKeepsPanelShape(s, a[0]);
      assert (a + b)[0] == a[0] && (a + b)[1..] == a[1..] + b;
      RunConcat(Step(s, a[0]), a[1..], b);
    }
  }

  lemma RunOne(s: State, l: Label)
    requires WellFormed(s.panel)
    ensures Run(s, [l]) == Step(s, l)
  {
    StepKeepsPanelShape(s, l);
    assert [l][1..] == [];
  }

  lemma RunThen(s: State, labels: seq<Label>, l: Label)
    requires WellFormed(s.panel)
    ensures Run(s, labels + [l]) == Step(Run(s, labels), l)
  {
    RunConcat(s, labels, [l]);
    RunOne(Run(s, labels), l);
  }

  // ---------------------------------------------------------------- the basic invariant

  ghost predicate PhaseBounds(p: Phase) {
    match p
    case Polling(done) => done <= BATCH
    case Holding(_, _, done) => done < BATCH
    case Permitted(_, _, done) => done < BATCH
    case Decoded(_, _, done) => done < BATCH
    case Writing(_, _, done) => done < BATCH
    case Resetting(next, ledsOk, _, done) =>
      1 <= next <= LAMPS + 1 && done < BATCH && (!ledsOk ==> next == LAMPS + 1)
    case _ => true
  }

  /** A reset in progress has darkened every lamp it has passed; a clean exit left the panel reset. */
  ghost predicate ResetProgress(s: State)
    requires WellFormed(s.panel) && PhaseBounds(s.phase)
  {
    && (s.phase.Resetting? && s.phase.ledsOk ==>
          forall i :: 0 <= i < s.phase.next - 1 ==> s.panel.lamps[i] == DARK)
    && (s.phase == Exited(true) ==> s.panel == ResetPanel())
  }

  /** Once Stop is accepted it waits alone at the head until the worker has taken it and is leaving. */
  ghost predicate StopWaits(s: State) {
    s.channel.stopping ==>
      || (s.channel.queue != [] && s.channel.queue[0].command.Stop?)
      || (s.phase.Resetting? && s.phase.leaving)
      || s.phase.Exited?
  }

  ghost predicate Inv(s: State) {
    && WellFormed(s.panel)
    && Shape(s.channel)
    && PhaseBounds(s.phase)
    && (s.channel.receiverAlive <==> !s.phase.Exited?)
    && ResetProgress(s)
    && StopWaits(s)
  }

  lemma AllDark(p: Panel)
    requires WellFormed(p) && p.screen == Blank
    requires forall i :: 0 <= i < LAMPS ==> p.lamps[i] == DARK
    ensures p == ResetPanel()
  {
    assert p.lamps == ResetPanel().lamps;
  }

  lemma PollKeepsInv(s: State, done: nat)
    requires Inv(s) && s.phase == Polling(done) && done < BATCH
    ensures Inv(Poll(s, done))
  {
    var q := s.channel.queue;
    if q != [] {
      assert Shape(s.channel.(queue := q[1..]));
    }
  }

  lemma ResetKeepsInv(s: State, a: Answer)
    requires Inv(s) && s.phase.Resetting?
    ensures var p := s.phase; Inv(ResetStep(s, p.next, p.ledsOk, p.leaving, p.done, a))
  {
    var p := s.phase;
    var s' := ResetStep(s, p.next, p.ledsOk, p.leaving, p.done, a);
    if p.next == LAMPS + 1 && p.ledsOk && a.ok {
      AllDark(s'.panel);
    }
  }

  /** A step that leaves the queue alone, or fails and drops the receiver. */
  ghost predicate QueueKept(s: State, s': State) {
    && WellFormed(s'.panel) && PhaseBounds(s'.phase) && !s'.phase.Resetting?
    && (if s'.phase.Exited? then s'.phase == Exited(false) && s'.channel == s.channel.(receiverAlive := false)
        else s'.channel == s.channel)
  }

  lemma QueueKeptKeepsInv(s: State, s': State)
    requires Inv(s) && !s.phase.Resetting? && !s.phase.Exited? && QueueKept(s, s')
    ensures Inv(s')
  {
    assert Shape(s'.channel);
  }

  lemma ExecuteKeepsQueue(s: State, a: Answer)
    requires WellFormed(s.panel) && PhaseBounds(s.phase) && s.phase.Permitted?
    ensures QueueKept(s, ExecuteOutput(s, s.phase.output, s.phase.context, s.phase.done, a))
  {
  }

  lemma OtherWorkKeepsQueue(s: State, a: Answer)
    requires WellFormed(s.panel) && PhaseBounds(s.phase) && !s.phase.Resetting? && !s.phase.Exited?
    requires !(s.phase.Polling? && s.phase.done < BATCH)
    ensures QueueKept(if a.now < s.clock then s else s.(clock := a.now), WorkStep(s, a))
  {
    if s.phase.Permitted? {
      ExecuteKeepsQueue(if a.now < s.clock then s else s.(clock := a.now), a);
    }
  }

  lemma WorkKeepsInv(s: State, a: Answer)
    requires Inv(s)
    ensures Inv(WorkStep(s, a))
  {
    var timed := if s.phase.Exited? || a.now < s.clock then s else s.(clock := a.now);
    if s.phase.Resetting? {
      ResetKeepsInv(timed, a);
    } else if s.phase.Polling? && s.phase.done < BATCH {
      PollKeepsInv(timed, s.phase.done);
    } else if !s.phase.Exited? {
      OtherWorkKeepsQueue(s, a);
      QueueKeptKeepsInv(timed, WorkStep(s, a));
    }
  }

  lemma {:induction false} StepKeepsInv(s: State, l: Label)
    requires Inv(s)
    ensures Inv(Step(s, l))
  {
    match l {
      case Submit(c) => SendKeepsShape(s.channel, c);
      case Work(a) => WorkKeepsInv(s, a);
      case _ =>
    }
  }

  lemma InitialInv(s: State)
    requires Initial(s)
    ensures Inv(s)
  {
  }

  lemma {:induction false} RunKeepsInv(s: State, labels: seq<Label>)
    requires Inv(s)
    ensures Inv(Run(s, labels))
    decreases |labels|
  {
    if labels != [] {
      StepKeepsInv(s, labels[0]);
      RunKeepsInv(Step(s, labels[0]), labels[1..]);
    }
  }

  // ---------------------------------------------------------------- the worker's control flow

  /** Which phase may follow which. */
  ghost predicate PhaseMoves(p: Phase, p': Phase) {
    match p
    case Polling(done) =>
      if done >= BATCH then p' == Watching
      else p' == Watching || (p'.Resetting? && p'.next == 1 && p'.ledsOk && p'.done == done) || p'.Holding?
    case Holding(output, context, done) => p' == Permitted(output, context, done) || p' == Polling(done + 1)
    case Permitted(output, context, done) =>
      || p' == Exited(false) || p' == Polling(done + 1)
      || (output.SetRasterFrame? && p'.Decoded? && p'.context == context && p'.done == done)
    case Decoded(image, context, done) => p' == Writing(image, context, done) || p' == Polling(done + 1)
    case Writing(_, _, done) => p' == Exited(false) || p' == Polling(done + 1)
    case Resetting(next, ledsOk, leaving, done) =>
      if next <= LAMPS && ledsOk then
        p'.Resetting? && p'.leaving == leaving && p'.done == done && next < p'.next <= LAMPS + 1
      else p' == Exited(false) || p' == if leaving then Exited(true) else Polling(done + 1)
    case Watching => p' == Reading || p' == Exited(false)
    case Reading => p' == Polling(0) || p' == Exited(false)
    case Exited(_) => p' == p
  }

  /** Outside polling the worker touches neither its queue nor its latch. */
  ghost predicate QueueUntouched(s: State, s': State) {
    s'.taken == s.taken && s'.channel.queue == s.channel.queue && s'.channel.stopping == s.channel.stopping
  }

  lemma ExecuteMoves(s: State, a: Answer)
    requires WellFormed(s.panel) && s.phase.Permitted?
    ensures var s' := ExecuteOutput(s, s.phase.output, s.phase.context, s.phase.done, a);
            PhaseMoves(s.phase, s'.phase) && QueueUntouched(s, s')
  {
  }

  lemma WorkMovesPhase(s: State, a: Answer)
    requires WellFormed(s.panel) && PhaseBounds(s.phase)
    ensures PhaseMoves(s.phase, WorkStep(s, a).phase)
  {
    if s.phase.Permitted? {
      ExecuteMoves(if a.now < s.clock then s else s.(clock := a.now), a);
    }
  }

  lemma WorkLeavesQueue(s: State, a: Answer)
    requires WellFormed(s.panel) && !(s.phase.Polling? && s.phase.done < BATCH)
    ensures QueueUntouched(s, WorkStep(s, a))
  {
    if s.phase.Permitted? {
      ExecuteMoves(if a.now < s.clock then s else s.(clock := a.now), a);
    }
  }

  lemma WorkMoves(s: State, a: Answer)
    requires Inv(s)
    ensures PhaseMoves(s.phase, WorkStep(s, a).phase)
    ensures !(s.phase.Polling? && s.phase.done < BATCH) ==> QueueUntouched(s, WorkStep(s, a))
  {
    WorkMovesPhase(s, a);
    if !(s.phase.Polling? && s.phase.done < BATCH) {
      WorkLeavesQueue(s, a);
    }
  }

  /** An empty queue is the end of the batch, or, once no sender is left, of the worker, through a reset. */
  lemma EmptyQueuePolled(s: State, a: Answer)
    requires Inv(s) && s.phase.Polling? && s.phase.done < BATCH && s.channel.queue == []
    ensures var s' := WorkStep(s, a);
            && s'.phase == (if s.channel.senderCount == 0 then Resetting(1, true, true, s.phase.done) else Watching)
            && s'.channel == s.channel && s'.taken == s.taken
  {
  }

  /** Polling takes the head of the queue, whatever it is. */
  lemma PollTakesHead(s: State, a: Answer)
    requires Inv(s) && s.phase.Polling? && s.phase.done < BATCH && s.channel.queue != []
    ensures var s' := WorkStep(s, a);
            && s'.taken == s.taken + [s.channel.queue[0]] && s'.channel == s.channel.(queue := s.channel.queue[1..])
            && (s.channel.queue[0].command.Hardware? <==> s'.phase.Holding?)
            && (s.channel.queue[0].command.Stop? <==> s'.phase.Resetting? && s'.phase.leaving)
  {
  }
}
