/**
 * The two ways out of a reset that involve no failed call: an image that does
 * not decode, in the worker's hands when the reset is accepted, and a HID report
 * too short to decode.
 */
module WorkerEscape {
  import opened Basics
  import opened Commands
  import opened CommandQueues
  import opened DeviceWorkers
  import opened FrameWatchdogs
  import opened Panels
  import opened WorkerFailures
  import opened WorkerFencing

  /** A worker whose panel is dark, in a world with one image that does not decode. */
  function Newborn(image: Image, timeout: nat): State {
    State({image}, {}, FRESH, Polling(0), Panel(seq(LAMPS, _ => DARK), Unknown), Started(timeout, 0), 0, [], [], 0)
  }

  const FINE := Work(Answer(true, false, true, 0))

  function LightS1(context: Context): Command {
    Hardware(SetLed("s1", true), context)
  }

  function Picture(image: Image): Output {
    SetRasterFrame(SCREEN, "png", image)
  }

  /** A controller lights a lamp and sends the image. */
  function Sends(image: Image, context: Context): seq<Label> {
    [Submit(LightS1(context)), Submit(Hardware(Picture(image), context))]
  }

  /** The claim ends, and a reset or Stop is accepted, while the worker is about to convert the image. */
  function Ends(context: Context, c: Command): seq<Label> {
    [Revoke(context), Submit(c), FINE]
  }

  lemma RunTwo(s: State, a: Label, b: Label)
    requires WellFormed(s.panel)
    ensures WellFormed(Step(s, a).panel) && Run(s, [a, b]) == Step(Step(s, a), b)
  {
    RunOne(s, a);
    RunThen(s, [a], b);
    assert [a] + [b] == [a, b];
  }

  lemma RunThree(s: State, a: Label, b: Label, c: Label)
    requires WellFormed(s.panel)
    ensures WellFormed(Step(s, a).panel) && WellFormed(Step(Step(s, a), b).panel)
    ensures Run(s, [a, b, c]) == Step(Step(Step(s, a), b), c)
  {
    RunTwo(s, a, b);
    RunThen(s, [a, b], c);
    assert [a, b] + [c] == [a, b, c];
  }

  lemma BothAreQueued(image: Image, context: Context)
    ensures Send(Send(FRESH, LightS1(context)), Hardware(Picture(image), context)) ==
            QueueState([Entry(LightS1(context), 0), Entry(Hardware(Picture(image), context), 1)], 1, true, false, 2)
  {
    var lamp := Entry(LightS1(context), 0);
    assert [lamp][..0] == [] && Retain([], "s1") == [] && Retain([], SCREEN) == [];
    assert Retain([lamp], SCREEN) == [lamp];
  }

  lemma SendsAreQueued(s: State, image: Image, context: Context)
    requires WellFormed(s.panel) && s.channel == FRESH
    ensures Run(s, Sends(image, context)) ==
            s.(channel := QueueState([Entry(LightS1(context), 0), Entry(Hardware(Picture(image), context), 1)],
                                     1, true, false, 2))
  {
    RunTwo(s, Sends(image, context)[0], Sends(image, context)[1]);
    BothAreQueued(image, context);
  }

  /** Three worker steps light the lamp. */
  lemma LampIsLit(s: State, context: Context)
    requires WellFormed(s.panel) && s.phase == Polling(0) && context !in s.revoked
    requires s.channel.queue != [] && s.channel.queue[0].command == LightS1(context)
    ensures var s' := Run(s, [FINE, FINE, FINE]);
            && s'.phase == Polling(1) && s'.channel == s.channel.(queue := s.channel.queue[1..])
            && s'.events == s.events + [Check(context, true)] + [WriteLamp(context, 1, true, true)]
            && s'.panel.lamps[0] == Lamp(true, Some(context))
            && s'.garbled == s.garbled && s'.revoked == s.revoked && s'.resets == s.resets
  {
    RunThree(s, FINE, FINE, FINE);
    var s1 := Step(s, FINE);
    assert s1.phase == Holding(SetLed("s1", true), context, 0) && s1.panel == s.panel;
    var s2 := Step(s1, FINE);
    assert s2.phase == Permitted(SetLed("s1", true), context, 0) && s2.panel == s.panel;
  }

  /** Two more take the image and let it pass its first check. */
  lemma ImageIsTaken(s: State, image: Image, context: Context)
    requires WellFormed(s.panel) && s.phase == Polling(1) && context !in s.revoked
    requires s.channel.queue != [] && s.channel.queue[0].command == Hardware(Picture(image), context)
    ensures var s' := Run(s, [FINE, FINE]);
            && s'.phase == Permitted(Picture(image), context, 1)
            && s'.channel == s.channel.(queue := s.channel.queue[1..])
            && s'.events == s.events + [Check(context, true)]
            && s'.panel == s.panel && s'.garbled == s.garbled && s'.revoked == s.revoked && s'.resets == s.resets
  {
    RunTwo(s, FINE, FINE);
  }

  /** Whatever has been accepted meanwhile, the conversion ends the worker. */
  lemma ConversionEnds(s: State, image: Image, context: Context, c: Command)
    requires WellFormed(s.panel) && s.phase == Permitted(Picture(image), context, 1) && image in s.garbled
    ensures var s' := Run(s, Ends(context, c));
            && s'.phase == Exited(false) && s'.resets == s.resets && s'.panel == s.panel && context in s'.revoked
            && s'.events == s.events + [Convert(context, image, false)]
  {
    RunThree(s, Revoke(context), Submit(c), FINE);
  }

  /** What the worker does from both commands queued to its end. */
  function Works(context: Context, c: Command): seq<Label> {
    [FINE, FINE, FINE] + [FINE, FINE] + Ends(context, c)
  }

  /** An idle worker with a lamp command and the image waiting, both under a standing claim. */
  ghost predicate BothWaiting(s: State, image: Image, context: Context) {
    && WellFormed(s.panel) && s.phase == Polling(0) && context !in s.revoked && image in s.garbled
    && |s.channel.queue| == 2 && s.channel.queue[0].command == LightS1(context)
    && s.channel.queue[1].command == Hardware(Picture(image), context)
  }

  /** What is seen of the end: two granted checks, the lamp lit, and a failed conversion. */
  function Seen(image: Image, context: Context): seq<Event> {
    [Check(context, true)] + [WriteLamp(context, 1, true, true)] + [Check(context, true)] + [Convert(context, image, false)]
  }

  lemma BothWaitingEnds(s: State, image: Image, context: Context, c: Command)
    requires BothWaiting(s, image, context)
    ensures var s' := Run(s, Works(context, c));
            && s'.phase == Exited(false) && s'.resets == s.resets && context in s'.revoked
            && s'.panel.lamps[0] == Lamp(true, Some(context))
            && s'.events == s.events + Seen(image, context)
  {
    RunConcat(s, [FINE, FINE, FINE] + [FINE, FINE], Ends(context, c));
    RunConcat(s, [FINE, FINE, FINE], [FINE, FINE]);
    LampIsLit(s, context);
    var lit := Run(s, [FINE, FINE, FINE]);
    ImageIsTaken(lit, image, context);
    ConversionEnds(Run(lit, [FINE, FINE]), image, context, c);
  }

  /**
   * A claim ends and a reset, or Stop, is accepted while an image that does not
   * decode is in the worker's hands: the worker ends at the conversion, without
   * trying the reset and without any USB call having failed, and the lamp lit
   * under the ended claim stays lit.
   */
  lemma UndecodableImageSkipsTheReset(origin: State, before: seq<Label>, image: Image, context: Context, c: Command)
    requires Initial(origin) && BothWaiting(Run(origin, before), image, context) && !c.Hardware?
    ensures var s, s' := Run(origin, before), Run(origin, before + Works(context, c));
            && s'.phase == Exited(false) && s'.resets == s.resets && s'.events == s.events + Seen(image, context)
            && CauseOf(s'.events) == Some(UndecodableFrame(image))
            && context in s'.revoked && s'.panel.lamps[0] == Lamp(true, Some(context)) && !CleanOf(s'.panel, context)
  {
    RunConcat(origin, before, Works(context, c));
    BothWaitingEnds(Run(origin, before), image, context, c);
    assert Run(origin, before + Works(context, c)).panel.lamps[0].writer == Some(context);
  }

  /** Such runs exist: a new worker is sent the two commands. */
  lemma NewbornCanBeDoomed(image: Image, context: Context, timeout: nat)
    requires timeout > 0
    ensures Initial(Newborn(image, timeout))
    ensures BothWaiting(Run(Newborn(image, timeout), Sends(image, context)), image, context)
  {
    SendsAreQueued(Newborn(image, timeout), image, context);
  }

  const SHORT := Work(Answer(true, false, false, 0))

  /** A report of one byte, read after the reset is accepted, does the same: no reset, and no USB call has failed. */
  lemma ShortReportSkipsTheReset(origin: State, before: seq<Label>, c: Command)
    requires Initial(origin) && Run(origin, before).phase == Reading && !c.Hardware?
    ensures var s, s' := Run(origin, before), Run(origin, before + [Submit(c), SHORT]);
            && s'.phase == Exited(false) && s'.resets == s.resets && s'.panel == s.panel
            && s'.events == s.events + [BadHidRead(true)] && CauseOf(s'.events) == Some(ShortHidReport)
  {
    RunConcat(origin, before, [Submit(c), SHORT]);
    RunTwo(Run(origin, before), Submit(c), SHORT);
  }

  lemma NewbornCanRead(image: Image, timeout: nat)
    requires timeout > 0
    ensures Run(Newborn(image, timeout), [FINE, FINE]).phase == Reading
  {
    RunTwo(Newborn(image, timeout), FINE, FINE);
    assert Step(Newborn(image, timeout), FINE).phase == Watching;
  }
}
