/**
 * The worker's sequential code. Every execution, with USB calls failing,
 * images or reports not decoding, and everyone else sending commands and ending
 * claims before each of its steps, is a run of the worker's state machine; the
 * ghost labels each method returns are that run.
 */
module WorkerCode {
  import opened Basics
  import opened Commands
  import opened CommandQueues
  import opened DeviceWorkers
  import opened FrameWatchdogs
  import opened HidEdges
  import opened Panels
  import opened WorkerFailures

  datatype Outcome<+T> = Done(value: T) | Failed

  /** A virtual clock: time passes only inside device calls. */
  class Clock {
    var now: Time

    constructor (start: Time)
      ensures now == start
    {
      now := start;
    }
  }

  /** The claim checks queued commands carry; an ended claim is never granted again. */
  class Authority {
    var ended: set<Context>

    constructor ()
      ensures ended == {}
    {
      ended := {};
    }

    method Authorize(context: Context) returns (granted: bool)
      ensures granted <==> context !in ended
    {
      granted := context !in ended;
    }
  }

  /** The image library; which images it cannot decode is not the worker's doing. */
  class Codec {
    const garbled: set<Image>

    constructor (garbled: set<Image>)
      ensures this.garbled == garbled
    {
      this.garbled := garbled;
    }

    method Decode(image: Image) returns (ok: bool)
      ensures ok <==> image !in garbled
    {
      ok := image !in garbled;
    }
  }

  /**
   * The panel behind one USB handle, which counts the screen writes tried and
   * the calls that failed; a failed call may or may not have reached the panel.
   */
  class PanelHandle {
    const clock: Clock
    ghost var panel: Panel
    ghost var screens: nat
    ghost var failed: nat

    constructor (clock: Clock, ghost panel: Panel)
      ensures this.clock == clock && this.panel == panel && screens == 0 && failed == 0
    {
      this.clock := clock;
      this.panel := panel;
      screens, failed := 0, 0;
    }

    method Transfer(ghost written: Panel) returns (ok: bool, ghost landed: bool)
      modifies this`panel, clock
      ensures panel == if ok || landed then written else old(panel)
      ensures clock.now >= old(clock.now)
    {
      var elapsed: int := *;
      ok := *;
      landed := *;
      if elapsed > 0 {
        clock.now := clock.now + elapsed;
      }
      panel := if ok || landed then written else panel;
    }

    method SetLed(index: nat, on: bool, ghost writer: Option<Context>) returns (ok: bool, ghost landed: bool)
      requires WellFormed(panel) && 1 <= index <= LAMPS
      modifies this, clock
      ensures panel == if ok || landed then SetLamp(old(panel), index, Lamp(on, writer)) else old(panel)
      ensures clock.now >= old(clock.now)
      ensures screens == old(screens) && failed == old(failed) + if ok then 0 else 1
    {
      ok, landed := Transfer(SetLamp(panel, index, Lamp(on, writer)));
      failed := failed + if ok then 0 else 1;
    }

    method SendImage(ghost screen: Screen) returns (ok: bool, ghost landed: bool)
      modifies this, clock
      ensures panel == if ok || landed then old(panel).(screen := screen) else old(panel)
      ensures clock.now >= old(clock.now)
      ensures screens == old(screens) + 1 && failed == old(failed) + if ok then 0 else 1
    {
      ok, landed := Transfer(panel.(screen := screen));
      screens, failed := screens + 1, failed + if ok then 0 else 1;
    }

    method ClearImage() returns (ok: bool, ghost landed: bool)
      modifies this, clock
      ensures panel == if ok || landed then old(panel).(screen := Blank) else old(panel)
      ensures clock.now >= old(clock.now)
      ensures screens == old(screens) + 1 && failed == old(failed) + if ok then 0 else 1
    {
      ok, landed := Transfer(panel.(screen := Blank));
      screens, failed := screens + 1, failed + if ok then 0 else 1;
    }
  }

  /** The interrupt endpoint, with the record of what was read from it; a read that times out brings nothing. */
  class HidEndpoint {
    ghost var heard: seq<Option<seq<byte>>>
    ghost var failed: nat

    constructor ()
      ensures heard == [] && failed == 0
    {
      heard, failed := [], 0;
    }

    method Read() returns (ok: bool, report: Option<seq<byte>>)
      modifies this
      ensures heard == old(heard) + (if ok then [report] else []) && failed == old(failed) + if ok then 0 else 1
    {
      ok := *;
      report := *;
      heard, failed := heard + (if ok then [report] else []), failed + if ok then 0 else 1;
    }
  }

  class FrameWatchdog {
    const timeout: nat
    var lastFrame: Option<Time>
    var noticeShown: bool

    function Current(): Watch
      reads this
    {
      Watch(timeout, lastFrame, noticeShown)
    }

    constructor (timeout: nat, now: Time)
      ensures Current() == Started(timeout, now)
    {
      this.timeout := timeout;
      lastFrame := Some(now);
      noticeShown := false;
    }

    method Observe(effect: DisplayEffect, now: Time)
      modifies this
      ensures Current() == Observed(old(Current()), effect, now)
    {
      match effect {
        case FrameEffect =>
          lastFrame := Some(now);
          noticeShown := false;
        case ClearEffect =>
          lastFrame := None;
          noticeShown := false;
        case ResetEffect =>
          noticeShown := false;
        case NoEffect =>
      }
    }

    /** Shows the notice when it is due; this is the state machine's watchdog step. */
    method CheckFreshness(b: Bench, ghost s: State) returns (ok: bool, ghost labels: seq<Label>)
      requires Along(b, s) && s.phase == Watching && Current() == s.watch
      modifies this, b.channel, b.handle, b.handle.clock, b.authority
      ensures var s' := Run(s, labels);
              && Along(b, s') && s'.taken == s.taken && Current() == s'.watch
              && s'.clock == old(b.handle.clock.now)
              && s'.phase == if ok then Reading else Exited(false)
      ensures b.handle.failed >= old(b.handle.failed) && (ok <==> b.handle.failed == old(b.handle.failed))
      ensures ok && timeout > 0 ==>
                (noticeShown <==> old(noticeShown) || (lastFrame.Some? && old(b.handle.clock.now) >= lastFrame.value + timeout))
      ensures b.handle.screens == old(b.handle.screens) + if !old(noticeShown) && (!ok || noticeShown) then 1 else 0
    {
      labels := OthersAct(b, s);
      var now := b.handle.clock.now;
      ghost var landed := false;
      ok := true;
      if Due(Current(), now) {
        ok, landed := b.handle.SendImage(Notice);
        if ok {
          noticeShown := true;
        }
      }
      ghost var a := Answer(ok, landed, true, now);
      OneMoreStep(s, labels, Work(a));
      NoticeMove(Run(s, labels), a);
      labels := labels + [Work(a)];
    }
  }

  // ---------------------------------------------------------------- the worker among the others

  /** What one worker uses: its queue, its panel, the claim checks and the image library. */
  datatype Bench = Bench(channel: CommandChannel, handle: PanelHandle, authority: Authority, codec: Codec)

  /**
   * The objects are in step with the state machine; a worker on its way out has
   * yet to drop its receiver.
   */
  ghost predicate Along(b: Bench, s: State)
    reads b.channel, b.handle, b.handle.clock, b.authority
  {
    && Inv(s)
    && s.channel == (if s.phase.Exited? then b.channel.State().(receiverAlive := false) else b.channel.State())
    && b.handle.panel == s.panel && b.authority.ended == s.revoked && b.codec.garbled == s.garbled
    && s.clock <= b.handle.clock.now
  }

  /** One more step of the machine keeps the invariant. */
  lemma OneMoreStep(s: State, labels: seq<Label>, l: Label)
    requires WellFormed(s.panel) && Inv(Run(s, labels))
    ensures Run(s, labels + [l]) == Step(Run(s, labels), l) && Inv(Run(s, labels + [l]))
  {
    StepKeepsInv(Run(s, labels), l);
    RunThen(s, labels, l);
  }

  /** The worker has made a step that ends in the given phase and panel, and records the given event. */
  ghost predicate MovedOn(s: State, s': State, a: Answer, phase: Phase, panel: Panel, more: seq<Event>) {
    && s'.phase == phase && s'.panel == panel && s'.events == s.events + more
    && s'.channel == (if phase.Exited? then s.channel.(receiverAlive := false) else s.channel)
    && s'.revoked == s.revoked && s'.garbled == s.garbled && s'.taken == s.taken
    && s'.clock == if a.now < s.clock then s.clock else a.now
  }

  /** What a lamp command's write does: it is made exactly as ordered, and a failed call ends the worker. */
  lemma LampMove(s: State, a: Answer, control: string, on: bool, context: Context, done: nat)
    requires WellFormed(s.panel) && s.phase == Permitted(SetLed(control, on), context, done)
    ensures var s', index := WorkStep(s, a), LedIndex(control);
            && MovedOn(s, s', a,
                       if index.Some? && a.ok then Polling(done + 1) else Exited(false),
                       if index.Some? && (a.ok || a.landed) then SetLamp(s.panel, index.value, Lamp(on, Some(context))) else s.panel,
                       if index.Some? then [WriteLamp(context, index.value, on, a.ok)] else [Unsupported(context)])
            && s'.watch == s.watch
  {
  }

  /** What a clear does: it blanks the screen, disarms the deadline, and passes over any other control. */
  lemma ClearMove(s: State, a: Answer, control: string, context: Context, done: nat)
    requires WellFormed(s.panel) && s.phase == Permitted(ClearRaster(control), context, done)
    ensures var s', screen := WorkStep(s, a), control == SCREEN;
            && MovedOn(s, s', a,
                       if screen && !a.ok then Exited(false) else Polling(done + 1),
                       if screen && (a.ok || a.landed) then s.panel.(screen := Blank) else s.panel,
                       if screen then [WriteBlank(context, a.ok)] else [])
            && (s'.phase.Polling? ==> s'.watch == Observed(s.watch, if screen then ClearEffect else NoEffect, s'.clock))
  {
  }

  /** What converting a frame does: only a frame for the screen, in a known encoding, that decodes goes on. */
  lemma ConvertMove(s: State, a: Answer, control: string, encoding: string, image: Image, context: Context, done: nat)
    requires WellFormed(s.panel) && s.phase == Permitted(SetRasterFrame(control, encoding, image), context, done)
    ensures var s' := WorkStep(s, a);
            && MovedOn(s, s', a,
                       if control != SCREEN then Polling(done + 1)
                       else if (encoding != "jpeg" && encoding != "png") || image in s.garbled then Exited(false)
                       else Decoded(image, context, done),
                       s.panel,
                       if control != SCREEN then []
                       else if encoding != "jpeg" && encoding != "png" then [Unsupported(context)]
                       else [Convert(context, image, image !in s.garbled)])
            && s'.watch == s.watch
  {
  }

  /** What writing a frame does: the image goes to the screen and restarts the deadline. */
  lemma FrameMove(s: State, a: Answer, image: Image, context: Context, done: nat)
    requires WellFormed(s.panel) && s.phase == Writing(image, context, done)
    ensures var s' := WorkStep(s, a);
            && MovedOn(s, s', a, if a.ok then Polling(done + 1) else Exited(false),
                       if a.ok || a.landed then s.panel.(screen := Frame(image, context)) else s.panel,
                       [Event.WriteFrame(context, image, if a.now < s.clock then s.clock else a.now, a.ok)])
            && (s'.phase.Polling? ==> s'.watch == Observed(s.watch, FrameEffect, s'.clock))
  {
  }

  /** What the freshness check does: the notice is called for exactly when it is due. */
  lemma NoticeMove(s: State, a: Answer)
    requires WellFormed(s.panel) && s.phase == Watching && a.now >= s.clock
    ensures var s', due := WorkStep(s, a), Due(s.watch, a.now);
            && MovedOn(s, s', a, if due && !a.ok then Exited(false) else Reading,
                       if due && (a.ok || a.landed) then s.panel.(screen := Notice) else s.panel,
                       if due then [ShowNotice(a.ok)] else [])
            && s'.watch == if due && a.ok then s.watch.(noticeShown := true) else s.watch
  {
  }

  /** What one lamp of a reset does. */
  lemma DarkMove(s: State, a: Answer, index: nat, leaving: bool, done: nat)
    requires WellFormed(s.panel) && s.phase == Resetting(index, true, leaving, done) && 1 <= index <= LAMPS
    ensures var s' := WorkStep(s, a);
            && MovedOn(s, s', a,
                       Resetting(if a.ok then index + 1 else LAMPS + 1, a.ok, leaving, done),
                       if a.ok || a.landed then SetLamp(s.panel, index, DARK) else s.panel,
                       [DarkenLamp(index, a.ok)])
            && s'.watch == s.watch
  {
  }

  /** What the end of a reset does: the screen is tried in any case, and the reset is as good as both. */
  lemma BlankMove(s: State, a: Answer, leds: bool, leaving: bool, done: nat)
    requires WellFormed(s.panel) && s.phase == Resetting(LAMPS + 1, leds, leaving, done)
    ensures var s' := WorkStep(s, a);
            && MovedOn(s, s', a,
                       if !leds || !a.ok then Exited(false) else if leaving then Exited(true) else Polling(done + 1),
                       if a.ok || a.landed then s.panel.(screen := Blank) else s.panel,
                       [BlankScreen(a.ok)])
            && (s'.phase.Polling? ==> s'.watch == Observed(s.watch, ResetEffect, s'.clock))
  {
  }

  /** A reset whose lamps are dark and whose screen is blanked leaves the panel reset. */
  lemma BlankedIsReset(s: State)
    requires Inv(s) && s.phase.Resetting? && s.phase.next == LAMPS + 1 && s.phase.ledsOk
    ensures s.panel.(screen := Blank) == ResetPanel()
  {
    AllDark(s.panel.(screen := Blank));
  }

  /** What one HID read does: only a read that is answered, with nothing too short to decode, keeps the worker going. */
  lemma ReadMove(s: State, a: Answer)
    requires WellFormed(s.panel) && s.phase == Reading
    ensures var s' := WorkStep(s, a);
            && MovedOn(s, s', a, if a.ok && a.whole then Polling(0) else Exited(false), s.panel,
                       if a.ok && a.whole then [] else [BadHidRead(a.ok)])
            && s'.watch == s.watch
  {
  }

  /** Others change the queue and end claims, and touch nothing else. */
  ghost predicate OnlyOthers(s: State, s': State) {
    s' == s.(channel := s'.channel, revoked := s'.revoked)
  }

  /** Everyone else, between two steps of the worker: any senders and any ending claims, in any order. */
  method OthersAct(b: Bench, ghost s: State) returns (ghost labels: seq<Label>)
    requires Along(b, s) && !s.phase.Exited?
    modifies b.channel, b.authority
    ensures Along(b, Run(s, labels)) && OnlyOthers(s, Run(s, labels))
  {
    labels := [];
    var left: int := *;
    while left > 0
      invariant Along(b, Run(s, labels)) && OnlyOthers(s, Run(s, labels))
    {
      left := left - 1;
      var l: Label := *;
      match l {
        case Submit(c) => var _ := b.channel.SendCommand(c);
        case CloneSender => b.channel.CloneSender();
        case DropSender => b.channel.DropSender();
        case Revoke(context) => b.authority.ended := b.authority.ended + {context};
        case Work(_) => continue;
      }
      OneMoreStep(s, labels, l);
      labels := labels + [l];
    }
  }

  /** Turns the lamps off one after the other, up to the first failure. */
  method ClearLeds(b: Bench, ghost s: State) returns (ok: bool, ghost labels: seq<Label>)
    requires Along(b, s) && s.phase.Resetting? && s.phase.next == 1 && s.phase.ledsOk
    modifies b.channel, b.handle, b.handle.clock, b.authority
    ensures var s' := Run(s, labels);
            && Along(b, s') && s'.taken == s.taken && s'.watch == s.watch
            && s'.phase == Resetting(LAMPS + 1, ok, s.phase.leaving, s.phase.done)
    ensures b.handle.screens == old(b.handle.screens)
    ensures b.handle.failed >= old(b.handle.failed) && (ok <==> b.handle.failed == old(b.handle.failed))
  {
    labels := [];
    var index := 1;
    while index <= LAMPS
      invariant 1 <= index <= LAMPS + 1
      invariant var s' := Run(s, labels);
                && Along(b, s') && s'.taken == s.taken && s'.watch == s.watch
                && s'.phase == Resetting(index, true, s.phase.leaving, s.phase.done)
      invariant b.handle.failed == old(b.handle.failed) && b.handle.screens == old(b.handle.screens)
    {
      ghost var moves := OthersAct(b, Run(s, labels));
      RunConcat(s, labels, moves);
      labels := labels + moves;
      ghost var landed;
      ok, landed := b.handle.SetLed(index, false, None);
      ghost var a := Answer(ok, landed, true, b.handle.clock.now);
      OneMoreStep(s, labels, Work(a));
      DarkMove(Run(s, labels), a, index, s.phase.leaving, s.phase.done);
      labels := labels + [Work(a)];
      if !ok {
        return;
      }
      index := index + 1;
    }
    ok := true;
  }

  /** How one command ends in the state machine, given the result the code returns. */
  ghost predicate Ends(s: State, s': State, r: Outcome<DisplayEffect>, done: nat, now: Time) {
    && s'.taken == s.taken
    && (r.Done? ==> s'.phase == Polling(done + 1) && s'.clock == now && s'.watch == Observed(s.watch, r.value, now))
    && (r.Failed? ==> s'.phase == Exited(false))
  }

  /** Lamps, then the screen in any case; fails if either failed. */
  method ResetDevice(b: Bench, ghost s: State) returns (r: Outcome<DisplayEffect>, ghost labels: seq<Label>)
    requires Along(b, s) && s.phase.Resetting? && s.phase.next == 1 && s.phase.ledsOk
    modifies b.channel, b.handle, b.handle.clock, b.authority
    ensures var s' := Run(s, labels);
            && Along(b, s') && (r.Done? ==> r.value == ResetEffect && b.handle.panel == ResetPanel())
            && (!s.phase.leaving ==> Ends(s, s', r, s.phase.done, b.handle.clock.now))
            && (s.phase.leaving ==> s'.taken == s.taken && s'.phase == Exited(r.Done?))
    ensures b.handle.failed >= old(b.handle.failed) && (r.Done? <==> b.handle.failed == old(b.handle.failed))
    ensures b.handle.screens == old(b.handle.screens) + 1
  {
    var leds;
    leds, labels := ClearLeds(b, s);
    ghost var moves := OthersAct(b, Run(s, labels));
    RunConcat(s, labels, moves);
    labels := labels + moves;
    ghost var landed;
    var screen;
    screen, landed := b.handle.ClearImage();
    ghost var a := Answer(screen, landed, true, b.handle.clock.now);
    OneMoreStep(s, labels, Work(a));
    if leds && screen {
      BlankedIsReset(Run(s, labels));
    }
    BlankMove(Run(s, labels), a, leds, s.phase.leaving, s.phase.done);
    labels := labels + [Work(a)];
    r := if leds && screen then Done(ResetEffect) else Failed;
  }

  /** Carries out one output under its context's authority. */
  method ApplyHardwareOutput(b: Bench, output: Output, context: Context, ghost s: State)
    returns (r: Outcome<DisplayEffect>, ghost labels: seq<Label>)
    requires Along(b, s) && s.phase.Holding? && s.phase.output == output && s.phase.context == context
    modifies b.channel, b.handle, b.handle.clock, b.authority
    ensures Along(b, Run(s, labels)) && Ends(s, Run(s, labels), r, s.phase.done, b.handle.clock.now)
    ensures b.handle.failed >= old(b.handle.failed) && (r.Done? ==> b.handle.failed == old(b.handle.failed))
    ensures r.Failed? ==> b.handle.failed > old(b.handle.failed) || Infeasible(b.codec.garbled, output)
  {
    labels := OthersAct(b, s);
    var granted := b.authority.Authorize(context);
    ghost var l := Work(Answer(true, false, true, b.handle.clock.now));
    OneMoreStep(s, labels, l);
    labels := labels + [l];
    if !granted {
      return Done(NoEffect), labels;
    }
    ghost var s1, rest := Run(s, labels), [];
    match output {
      case SetLed(control, on) => r, rest := ApplyLed(b, control, on, context, s1);
      case SetRasterFrame(control, encoding, image) => r, rest := ApplyFrame(b, control, encoding, image, context, s1);
      case ClearRaster(control) => r, rest := ApplyClear(b, control, context, s1);
    }
    RunConcat(s, labels, rest);
    labels := labels + rest;
  }

  method ApplyLed(b: Bench, control: string, on: bool, context: Context, ghost s: State)
    returns (r: Outcome<DisplayEffect>, ghost labels: seq<Label>)
    requires Along(b, s) && s.phase.Permitted? && s.phase.output == SetLed(control, on) && s.phase.context == context
    modifies b.channel, b.handle, b.handle.clock, b.authority
    ensures Along(b, Run(s, labels)) && Ends(s, Run(s, labels), r, s.phase.done, b.handle.clock.now)
    ensures b.handle.failed >= old(b.handle.failed) && (r.Done? ==> b.handle.failed == old(b.handle.failed))
    ensures r.Failed? ==> b.handle.failed > old(b.handle.failed) || LedIndex(control) == None
  {
    labels := OthersAct(b, s);
    var index := LedIndex(control);
    var ok := true;
    ghost var landed := false;
    if index.Some? {
      ok, landed := b.handle.SetLed(index.value, on, Some(context));
    }
    r := if index.Some? && ok then Done(NoEffect) else Failed;
    ghost var a := Answer(ok, landed, true, b.handle.clock.now);
    OneMoreStep(s, labels, Work(a));
    LampMove(Run(s, labels), a, control, on, context, s.phase.done);
    labels := labels + [Work(a)];
  }

  method ApplyClear(b: Bench, control: string, context: Context, ghost s: State)
    returns (r: Outcome<DisplayEffect>, ghost labels: seq<Label>)
    requires Along(b, s) && s.phase.Permitted? && s.phase.output == ClearRaster(control) && s.phase.context == context
    modifies b.channel, b.handle, b.handle.clock, b.authority
    ensures Along(b, Run(s, labels)) && Ends(s, Run(s, labels), r, s.phase.done, b.handle.clock.now)
    ensures b.handle.failed >= old(b.handle.failed) && (r.Done? ==> b.handle.failed == old(b.handle.failed))
    ensures r.Failed? ==> b.handle.failed > old(b.handle.failed)
  {
    labels := OthersAct(b, s);
    var ok := true;
    ghost var landed := false;
    r := Done(NoEffect);
    if control == SCREEN {
      ok, landed := b.handle.ClearImage();
      r := if ok then Done(ClearEffect) else Failed;
    }
    ghost var a := Answer(ok, landed, true, b.handle.clock.now);
    OneMoreStep(s, labels, Work(a));
    ClearMove(Run(s, labels), a, control, context, s.phase.done);
    labels := labels + [Work(a)];
  }

  method ApplyFrame(b: Bench, control: string, encoding: string, image: Image, context: Context, ghost s: State)
    returns (r: Outcome<DisplayEffect>, ghost labels: seq<Label>)
    requires Along(b, s) && s.phase.Permitted? && s.phase.context == context
    requires s.phase.output == SetRasterFrame(control, encoding, image)
    modifies b.channel, b.handle, b.handle.clock, b.authority
    ensures Along(b, Run(s, labels)) && Ends(s, Run(s, labels), r, s.phase.done, b.handle.clock.now)
    ensures b.handle.failed >= old(b.handle.failed) && (r.Done? ==> b.handle.failed == old(b.handle.failed))
    ensures r.Failed? ==> b.handle.failed > old(b.handle.failed) || Infeasible(b.codec.garbled, s.phase.output)
  {
    labels := OthersAct(b, s);
    ghost var a := Answer(true, false, true, b.handle.clock.now);
    OneMoreStep(s, labels, Work(a));
    ConvertMove(Run(s, labels), a, control, encoding, image, context, s.phase.done);
    labels := labels + [Work(a)];
    if control != SCREEN {
      return Done(NoEffect), labels;
    }
    if encoding != "jpeg" && encoding != "png" {
      return Failed, labels;
    }
    var decoded := b.codec.Decode(image);
    if !decoded {
      return Failed, labels;
    }
    ghost var rest;
    r, rest := ShowFrame(b, image, context, Run(s, labels));
    RunConcat(s, labels, rest);
    labels := labels + rest;
  }

  /** The second check and the write it permits. */
  method ShowFrame(b: Bench, image: Image, context: Context, ghost s: State)
    returns (r: Outcome<DisplayEffect>, ghost labels: seq<Label>)
    requires Along(b, s) && s.phase.Decoded? && s.phase.image == image && s.phase.context == context
    modifies b.channel, b.handle, b.handle.clock, b.authority
    ensures Along(b, Run(s, labels)) && Ends(s, Run(s, labels), r, s.phase.done, b.handle.clock.now)
    ensures b.handle.failed >= old(b.handle.failed) && (r.Done? ==> b.handle.failed == old(b.handle.failed))
    ensures r.Failed? ==> b.handle.failed > old(b.handle.failed)
  {
    labels := OthersAct(b, s);
    var granted := b.authority.Authorize(context);
    ghost var l := Work(Answer(true, false, true, b.handle.clock.now));
    OneMoreStep(s, labels, l);
    labels := labels + [l];
    if !granted {
      return Done(NoEffect), labels;
    }
    ghost var rest;
    r, rest := WriteFrame(b, image, context, Run(s, labels));
    RunConcat(s, labels, rest);
    labels := labels + rest;
  }

  method WriteFrame(b: Bench, image: Image, context: Context, ghost s: State)
    returns (r: Outcome<DisplayEffect>, ghost labels: seq<Label>)
    requires Along(b, s) && s.phase.Writing? && s.phase.image == image && s.phase.context == context
    modifies b.channel, b.handle, b.handle.clock, b.authority
    ensures Along(b, Run(s, labels)) && Ends(s, Run(s, labels), r, s.phase.done, b.handle.clock.now)
    ensures b.handle.failed >= old(b.handle.failed) && (r.Done? ==> b.handle.failed == old(b.handle.failed))
    ensures r.Failed? ==> b.handle.failed > old(b.handle.failed)
  {
    labels := OthersAct(b, s);
    var ok;
    ghost var landed;
    ok, landed := b.handle.SendImage(Frame(image, context));
    ghost var a := Answer(ok, landed, true, b.handle.clock.now);
    OneMoreStep(s, labels, Work(a));
    FrameMove(Run(s, labels), a, image, context, s.phase.done);
    labels := labels + [Work(a)];
    r := if ok then Done(FrameEffect) else Failed;
  }

  /** Applies one dequeued command. */
  method ApplyRuntimeCommand(b: Bench, command: Command, ghost s: State)
    returns (r: Outcome<DisplayEffect>, ghost labels: seq<Label>)
    requires Along(b, s)
    requires match command
             case Hardware(output, context) => s.phase.Holding? && s.phase.output == output && s.phase.context == context
             case ResetDevice => s.phase.Resetting? && s.phase == Resetting(1, true, false, s.phase.done)
             case Stop => false
    modifies b.channel, b.handle, b.handle.clock, b.authority
    ensures Along(b, Run(s, labels)) && Ends(s, Run(s, labels), r, s.phase.done, b.handle.clock.now)
    ensures b.handle.failed >= old(b.handle.failed) && (r.Done? ==> b.handle.failed == old(b.handle.failed))
    ensures r.Failed? ==> b.handle.failed > old(b.handle.failed) || (command.Hardware? && Infeasible(b.codec.garbled, command.output))
  {
    match command {
      case Hardware(output, context) => r, labels := ApplyHardwareOutput(b, output, context, s);
      case ResetDevice => r, labels := ResetDevice(b, s);
    }
  }

  /** The watchdog, too, is in step, as long as the worker runs; once it has left, its receiver is gone. */
  ghost predicate InStep(b: Bench, watchdog: FrameWatchdog, s: State)
    reads b.channel, b.handle, b.handle.clock, b.authority, watchdog
  {
    && Along(b, s)
    && (if s.phase.Exited? then !b.channel.receiverAlive else watchdog.Current() == s.watch)
  }

  /** Leaving: the device is reset, and the receiver is dropped either way. */
  method Leave(b: Bench, ghost s: State) returns (clean: bool, ghost labels: seq<Label>)
    requires Along(b, s) && s.phase.Resetting? && s.phase == Resetting(1, true, true, s.phase.done)
    modifies b.channel, b.handle, b.handle.clock, b.authority
    ensures var s' := Run(s, labels);
            && Along(b, s') && s'.taken == s.taken && s'.phase == Exited(clean)
            && !b.channel.receiverAlive && (clean ==> b.handle.panel == ResetPanel())
    ensures b.handle.failed >= old(b.handle.failed) && (clean <==> b.handle.failed == old(b.handle.failed))
  {
    var r;
    r, labels := ResetDevice(b, s);
    b.channel.DropReceiver();
    clean := r.Done?;
  }

  /** What polling the queue does, whatever it holds. */
  lemma PollMove(s: State, a: Answer, done: nat)
    requires Inv(s) && s.phase == Polling(done) && done < BATCH
    ensures var s', q := WorkStep(s, a), s.channel.queue;
            && s' == s.(clock := if a.now < s.clock then s.clock else a.now, phase := s'.phase,
                        channel := s.channel.(queue := if q == [] then [] else q[1..]),
                        taken := if q == [] then s.taken else s.taken + [q[0]])
            && s'.phase == if q == [] && s.channel.senderCount > 0 then Watching
                           else if q == [] || q[0].command.Stop? then Resetting(1, true, true, done)
                           else if q[0].command.ResetDevice? then Resetting(1, true, false, done)
                           else Holding(q[0].command.output, q[0].command.context, done)
  {
  }

  /** Takes a command from the queue, if there is one, once everyone else has acted. */
  method Dequeue(b: Bench, ghost s: State) returns (received: Received, ghost before: seq<Label>, ghost labels: seq<Label>)
    requires Along(b, s) && s.phase.Polling? && s.phase.done < BATCH
    modifies b.channel, b.authority
    ensures before <= labels && OnlyOthers(s, Run(s, before))
    ensures var s0, s' := Run(s, before), Run(s, labels);
            var q := s0.channel.queue;
            && Along(b, s') && s'.watch == s0.watch
            && received == (if q != [] then Got(q[0]) else if s0.channel.senderCount == 0 then Disconnected else Empty)
            && s'.taken == (if q == [] then s.taken else s.taken + [q[0]])
            && s'.phase == if received.Empty? then Watching
                           else if received.Disconnected? || received.entry.command.Stop? then Resetting(1, true, true, s.phase.done)
                           else if received.entry.command.ResetDevice? then Resetting(1, true, false, s.phase.done)
                           else Holding(received.entry.command.output, received.entry.command.context, s.phase.done)
  {
    before := OthersAct(b, s);
    received := b.channel.TryReceive();
    ghost var a := Answer(true, false, true, b.handle.clock.now);
    OneMoreStep(s, before, Work(a));
    PollMove(Run(s, before), a, s.phase.done);
    labels := before + [Work(a)];
  }

  datatype Served = Applied | Idle | Ended(clean: bool)

  /**
   * One round of the batch: take a command, if there is one, and carry it out,
   * with everyone else acting before the dequeue and before each step after it.
   */
  method ServeOne(b: Bench, watchdog: FrameWatchdog, ghost s: State)
    returns (r: Served, ghost before: seq<Label>, ghost labels: seq<Label>)
    requires InStep(b, watchdog, s) && s.phase.Polling? && s.phase.done < BATCH
    modifies b.channel, b.handle, b.handle.clock, b.authority, watchdog
    ensures before <= labels && OnlyOthers(s, Run(s, before))
    ensures var q, s' := Run(s, before).channel.queue, Run(s, labels);
            && InStep(b, watchdog, s')
            && s'.phase == (match r case Applied => Polling(s.phase.done + 1) case Idle => Watching
                                    case Ended(clean) => Exited(clean))
            && s'.taken == (if q == [] then s.taken else s.taken + [q[0]])
            && (r.Applied? ==> q != []) && (r.Idle? ==> q == [])
            && (q == [] ==> if Run(s, before).channel.senderCount == 0 then r.Ended? else r.Idle?)
    ensures b.handle.failed >= old(b.handle.failed) && (r != Ended(false) ==> b.handle.failed == old(b.handle.failed))
  {
    var received;
    received, before, labels := Dequeue(b, s);
    ghost var polled, rest := Run(s, labels), [];
    if received.Empty? {
      return Idle, before, labels;
    }
    if received.Disconnected? || received.entry.command.Stop? {
      var clean;
      clean, rest := Leave(b, polled);
      r := Ended(clean);
    } else {
      r, rest := CarryOut(b, watchdog, received.entry.command, polled);
    }
    RunConcat(s, labels, rest);
    labels := labels + rest;
  }

  /** Carries out one dequeued command and lets the watchdog observe its effect; a failure ends the worker. */
  method CarryOut(b: Bench, watchdog: FrameWatchdog, command: Command, ghost s: State)
    returns (r: Served, ghost labels: seq<Label>)
    requires InStep(b, watchdog, s)
    requires match command
             case Hardware(output, context) => s.phase.Holding? && s.phase.output == output && s.phase.context == context
             case ResetDevice => s.phase.Resetting? && s.phase == Resetting(1, true, false, s.phase.done)
             case Stop => false
    modifies b.channel, b.handle, b.handle.clock, b.authority, watchdog
    ensures var s' := Run(s, labels);
            && InStep(b, watchdog, s') && s'.taken == s.taken
            && s'.phase == (if r.Applied? then Polling(s.phase.done + 1) else Exited(false))
            && (r == Applied || r == Ended(false))
    ensures b.handle.failed >= old(b.handle.failed) && (r.Applied? ==> b.handle.failed == old(b.handle.failed))
    ensures !r.Applied? ==> b.handle.failed > old(b.handle.failed) || (command.Hardware? && Infeasible(b.codec.garbled, command.output))
  {
    var effect;
    effect, labels := ApplyRuntimeCommand(b, command, s);
    if effect.Failed? {
      b.channel.DropReceiver();
      return Ended(false), labels;
    }
    watchdog.Observe(effect.value, b.handle.clock.now);
    r := Applied;
  }

  datatype Pass = Continue | Left(clean: bool)

  ghost predicate EndsReading(s: State, labels: seq<Label>)
    requires WellFormed(s.panel)
  {
    labels != [] && labels[|labels| - 1].Work? && Run(s, labels[..|labels| - 1]).phase == Reading
  }

  lemma EndsReadingConcat(s: State, a: seq<Label>, b: seq<Label>)
    requires WellFormed(s.panel) && EndsReading(Run(s, a), b)
    ensures EndsReading(s, a + b)
  {
    RunConcat(s, a, b[..|b| - 1]);
    assert (a + b)[..|a + b| - 1] == a + b[..|b| - 1];
  }

  lemma ReadEndsPass(s: State, labels: seq<Label>, a: Answer)
    requires WellFormed(s.panel) && Inv(Run(s, labels)) && Run(s, labels).phase == Reading
    ensures var s0, s' := Run(s, labels), Run(s, labels + [Work(a)]);
            && Inv(s') && s'.watch == s0.watch && EndsReading(s, labels + [Work(a)])
            && MovedOn(s0, s', a, if a.ok && a.whole then Polling(0) else Exited(false), s0.panel,
                       if a.ok && a.whole then [] else [BadHidRead(a.ok)])
  {
    OneMoreStep(s, labels, Work(a));
    ReadMove(Run(s, labels), a);
    assert (labels + [Work(a)])[..|labels|] == labels;
  }

  /** The HID side of the worker is in step with the session it has read so far. */
  ghost predicate Reads(reader: HidReader, session: Session)
    reads reader
  {
    !session.failed && reader.previousMask == session.previous && reader.sent == session.inputs
  }

  /**
   * One pass of the worker's loop: at most four commands, the freshness check,
   * one HID read, with everyone else acting before each of its steps. The pass
   * is a run of the state machine from one top of the loop to the next, or to
   * the worker's exit, and one more read of the HID session.
   */
  method ServePass(b: Bench, watchdog: FrameWatchdog, endpoint: HidEndpoint, reader: HidReader, ghost s: State, ghost session: Session)
    returns (r: Pass, ghost labels: seq<Label>, ghost got: Option<seq<byte>>)
    requires InStep(b, watchdog, s) && s.phase == Polling(0) && Reads(reader, session)
    modifies b.channel, b.handle, b.handle.clock, b.authority, watchdog, endpoint, reader
    ensures var s' := Run(s, labels);
            && InStep(b, watchdog, s')
            && s'.phase == (match r case Continue => Polling(0) case Left(clean) => Exited(clean))
            && |s.taken| <= |s'.taken| <= |s.taken| + BATCH
    ensures r.Continue? ==> EndsReading(s, labels) && Reads(reader, Receive(session, got))
    ensures b.handle.failed >= old(b.handle.failed) && (r != Left(false) ==> b.handle.failed == old(b.handle.failed))
    ensures endpoint.failed >= old(endpoint.failed) && (r != Left(false) ==> endpoint.failed == old(endpoint.failed))
    ensures r.Continue? ==> endpoint.heard == old(endpoint.heard) + [got]
  {
    var outputs := 0;
    labels, got := [], None;
    while outputs < BATCH
      invariant 0 <= outputs <= BATCH
      invariant InStep(b, watchdog, Run(s, labels))
      invariant Reads(reader, session) && endpoint.heard == old(endpoint.heard) && endpoint.failed == old(endpoint.failed)
      invariant b.handle.failed == old(b.handle.failed)
      invariant Run(s, labels).phase == Polling(outputs) && |Run(s, labels).taken| == |s.taken| + outputs
    {
      var served;
      ghost var before, moves;
      served, before, moves := ServeOne(b, watchdog, Run(s, labels));
      RunConcat(s, labels, moves);
      labels := labels + moves;
      match served {
        case Applied =>
        case Idle => break;
        case Ended(clean) => return Left(clean), labels, None;
      }
      outputs := outputs + 1;
    }
    if outputs == BATCH {
      ghost var full := Work(Answer(true, false, true, b.handle.clock.now));
      OneMoreStep(s, labels, full);
      labels := labels + [full];
    }
    ghost var rest;
    r, rest, got := FinishPass(b, watchdog, endpoint, reader, Run(s, labels), session);
    RunConcat(s, labels, rest);
    if r.Continue? {
      EndsReadingConcat(s, labels, rest);
    }
    labels := labels + rest;
  }

  /** The second half of a pass: the freshness check, then one HID read. */
  method FinishPass(b: Bench, watchdog: FrameWatchdog, endpoint: HidEndpoint, reader: HidReader, ghost s: State, ghost session: Session)
    returns (r: Pass, ghost labels: seq<Label>, ghost got: Option<seq<byte>>)
    requires InStep(b, watchdog, s) && s.phase == Watching && Reads(reader, session)
    modifies b.channel, b.handle, b.handle.clock, b.authority, watchdog, endpoint, reader
    ensures var s' := Run(s, labels);
            && InStep(b, watchdog, s') && s'.taken == s.taken
            && s'.phase == (match r case Continue => Polling(0) case Left(clean) => Exited(clean))
    ensures r.Continue? ==> EndsReading(s, labels) && Reads(reader, Receive(session, got))
    ensures b.handle.failed >= old(b.handle.failed) && (r != Left(false) ==> b.handle.failed == old(b.handle.failed))
    ensures endpoint.failed >= old(endpoint.failed) && (r != Left(false) ==> endpoint.failed == old(endpoint.failed))
    ensures r.Continue? ==> endpoint.heard == old(endpoint.heard) + [got]
  {
    var current;
    current, labels := watchdog.CheckFreshness(b, s);
    if !current {
      b.channel.DropReceiver();
      return Left(false), labels, None;
    }
    ghost var rest;
    r, rest, got := ReadOnce(b, endpoint, reader, Run(s, labels), session);
    RunConcat(s, labels, rest);
    if r.Continue? {
      EndsReadingConcat(s, labels, rest);
    }
    labels := labels + rest;
  }

  /** Reads the interrupt endpoint and hands over what the report says. */
  method HearReport(endpoint: HidEndpoint, reader: HidReader, ghost session: Session)
    returns (read: bool, whole: bool, ghost got: Option<seq<byte>>)
    requires Reads(reader, session)
    modifies endpoint, reader
    ensures endpoint.failed == old(endpoint.failed) + if read then 0 else 1
    ensures endpoint.heard == old(endpoint.heard) + if read then [got] else []
    ensures read ==> (whole <==> !Receive(session, got).failed)
    ensures read && whole ==> Reads(reader, Receive(session, got))
  {
    var report;
    read, report := endpoint.Read();
    whole, got := true, None;
    if read {
      got := report;
      whole := reader.OnReport(report, session);
    }
  }

  /** One HID read; a failed read, or a report too short to decode, ends the worker. */
  method ReadOnce(b: Bench, endpoint: HidEndpoint, reader: HidReader, ghost s: State, ghost session: Session)
    returns (r: Pass, ghost labels: seq<Label>, ghost got: Option<seq<byte>>)
    requires Along(b, s) && s.phase == Reading && Reads(reader, session)
    modifies b.channel, b.authority, endpoint, reader
    ensures var s' := Run(s, labels);
            && Along(b, s') && s'.taken == s.taken && s'.watch == s.watch
            && (if r.Continue? then s'.phase == Polling(0) else r == Left(false) && s'.phase == Exited(false) && !b.channel.receiverAlive)
    ensures r.Continue? ==> EndsReading(s, labels) && Reads(reader, Receive(session, got))
    ensures endpoint.failed >= old(endpoint.failed) && (r != Left(false) ==> endpoint.failed == old(endpoint.failed))
    ensures r.Continue? ==> endpoint.heard == old(endpoint.heard) + [got]
  {
    labels := OthersAct(b, s);
    var read, whole;
    read, whole, got := HearReport(endpoint, reader, session);
    ghost var a := Answer(read, false, whole, b.handle.clock.now);
    ReadEndsPass(s, labels, a);
    labels := labels + [Work(a)];
    if !read || !whole {
      b.channel.DropReceiver();
      return Left(false), labels, got;
    }
    r := Continue;
  }
}
