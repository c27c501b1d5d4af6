/**
 * What the panel of a running worker means. While authority holds, decoding
 * and USB calls succeed and nobody stops the worker, every interleaving of
 * sends with the worker's own steps leads to the panel that replaying every
 * accepted command in order shows, except that the freshness notice may stand
 * in for the screen.
 */
module WorkerMeaning {
  import opened Basics
  import opened Commands
  import opened CommandQueues
  import opened Panels
  import D = DeviceWorkers
  import M = Coalescing

  /** A command that can be carried out: well addressed, and decodable if it is a frame. */
  predicate Feasible(garbled: set<Image>, c: Command) {
    M.WellAddressed(c) && (c.IsRasterFrame() ==> c.output.image !in garbled)
  }

  /** A step that disturbs nothing: no claim ends, no call fails, all is decodable, and the last sender stays. */
  predicate Smooth(s: D.State, l: D.Label) {
    match l
    case Submit(c) => Feasible(s.garbled, c)
    case Work(a) => a.ok && a.whole
    case CloneSender => true
    case DropSender => s.channel.senderCount > 1
    case Revoke(_) => false
  }

  predicate SmoothRun(s: D.State, labels: seq<D.Label>)
    requires WellFormed(s.panel)
    decreases |labels|
  {
    labels == [] ||
    (&& Smooth(s, labels[0])
     && (D.StepKeepsPanelShape(s, labels[0]); SmoothRun(D.Step(s, labels[0]), labels[1..])))
  }

  /** The log after a run: every command sent, in order. */
  function Accepted(log: seq<Command>, labels: seq<D.Label>): seq<Command>
    decreases |labels|
  {
    if labels == [] then log else Accepted(log + Heard(labels[0]), labels[1..])
  }

  function Heard(l: D.Label): seq<Command> {
    if l.Submit? then [l.command] else []
  }

  /** The panel once the command in the worker's hands, if any, is carried out. */
  function Finished(s: D.State): (p: Panel)
    requires WellFormed(s.panel)
    ensures WellFormed(p)
  {
    match s.phase
    case Holding(output, context, _) => Apply(s.panel, Hardware(output, context))
    case Permitted(output, context, _) => Apply(s.panel, Hardware(output, context))
    case Decoded(image, context, _) => s.panel.(screen := Frame(image, context))
    case Writing(image, context, _) => s.panel.(screen := Frame(image, context))
    case Resetting(_, _, _, _) => ResetPanel()
    case _ => s.panel
  }

  /** The same lamps, and the same screen unless the notice covers it. */
  ghost predicate Shows(p: Panel, meant: Panel) {
    WellFormed(p) && WellFormed(meant) && p.lamps == meant.lamps && (p.screen == meant.screen || p.screen == Notice)
  }

  lemma {:induction false} DrainShows(p: Panel, meant: Panel, q: seq<Entry>)
    requires Shows(p, meant)
    ensures Shows(M.Drain(p, q), M.Drain(meant, q))
  {
    if q != [] {
      DrainShows(p, meant, q[..|q| - 1]);
    }
  }

  ghost predicate AllFeasible(garbled: set<Image>, q: seq<Entry>) {
    forall i :: 0 <= i < |q| ==> Feasible(garbled, q[i].command)
  }

  /** Nothing has gone wrong: the worker is neither leaving nor failing, and its commands can be carried out. */
  ghost predicate Undisturbed(s: D.State) {
    && D.Inv(s)
    && s.revoked == {} && s.channel.senderCount > 0 && M.Pending(s.channel) && AllFeasible(s.garbled, s.channel.queue)
    && match s.phase
       case Holding(output, context, _) => Feasible(s.garbled, Hardware(output, context))
       case Permitted(output, context, _) => Feasible(s.garbled, Hardware(output, context))
       case Resetting(_, ledsOk, leaving, _) => ledsOk && !leaving
       case Exited(_) => false
       case _ => true
  }

  /** Finishing the command in hand and draining the queue shows what replaying `log` shows. */
  ghost predicate Meaning(s: D.State, log: seq<Command>, origin: Panel)
    requires WellFormed(origin)
  {
    Undisturbed(s) && Shows(M.Drain(Finished(s), s.channel.queue), M.Replay(origin, log))
  }

  lemma SubmitKeepsUndisturbed(s: D.State, c: Command)
    requires Undisturbed(s) && Feasible(s.garbled, c)
    ensures Undisturbed(D.Step(s, D.Submit(c)))
  {
    D.StepKeepsInv(s, D.Submit(c));
    SendAddsOnlyItself(s.channel, c);
    M.SendKeepsPending(s.channel, c);
    var q := Send(s.channel, c).queue;
    forall i | 0 <= i < |q| ensures Feasible(s.garbled, q[i].command) {
      assert q[i] in s.channel.queue || q[i] == Entry(c, s.channel.sent);
    }
  }

  lemma SubmitKeepsMeaning(s: D.State, c: Command, log: seq<Command>, origin: Panel)
    requires WellFormed(origin) && Meaning(s, log, origin) && Feasible(s.garbled, c)
    ensures Meaning(D.Step(s, D.Submit(c)), log + [c], origin)
  {
    SubmitKeepsUndisturbed(s, c);
    M.WellAddressedSendIsLossless(s.channel, c);
    M.SendPreservesMeaningIff(s.channel, c);
    assert (log + [c])[..|log|] == log;
    assert M.Drain(Finished(s), Send(s.channel, c).queue) == Apply(M.Drain(Finished(s), s.channel.queue), c);
  }

  /** A step of the worker that takes a command moves it from the queue into its hands. */
  lemma PollKeepsMeaning(s: D.State, a: D.Answer)
    requires Undisturbed(s) && s.phase.Polling? && s.phase.done < D.BATCH && s.channel.queue != []
    ensures var s' := D.WorkStep(s, a);
            Undisturbed(s') && M.Drain(Finished(s'), s'.channel.queue) == M.Drain(Finished(s), s.channel.queue)
  {
    D.WorkKeepsInv(s, a);
    M.DrainHead(s.panel, s.channel.queue);
    var s' := D.WorkStep(s, a);
    assert s'.channel == s.channel.(queue := s.channel.queue[1..]);
    assert Feasible(s.garbled, s.channel.queue[0].command);
  }

  lemma ExecuteShows(s: D.State, a: D.Answer)
    requires Undisturbed(s) && s.phase.Permitted? && a.ok
    ensures var s' := D.ExecuteOutput(s, s.phase.output, s.phase.context, s.phase.done, a);
            && !s'.phase.Exited? && !s'.phase.Holding? && !s'.phase.Permitted? && !s'.phase.Resetting?
            && s'.channel == s.channel && s'.revoked == s.revoked && s'.garbled == s.garbled
            && Shows(Finished(s'), Finished(s))
  {
  }

  lemma ResetShows(s: D.State, a: D.Answer)
    requires Undisturbed(s) && s.phase.Resetting? && a.ok
    ensures var p := s.phase;
            var s' := D.ResetStep(s, p.next, p.ledsOk, p.leaving, p.done, a);
            && (s'.phase.Polling? || (s'.phase.Resetting? && s'.phase.ledsOk && !s'.phase.leaving))
            && s'.channel == s.channel && s'.revoked == s.revoked && s'.garbled == s.garbled
            && Finished(s') == Finished(s)
  {
    var p := s.phase;
    if p.next == LAMPS + 1 {
      D.AllDark(D.ResetStep(s, p.next, p.ledsOk, p.leaving, p.done, a).panel);
    }
  }

  /** Any other step carries out what is in hand, or puts up the notice. */
  lemma OtherWorkShows(s: D.State, a: D.Answer)
    requires Undisturbed(s) && a.ok && a.whole
    requires !(s.phase.Polling? && s.phase.done < D.BATCH && s.channel.queue != [])
    ensures var s' := D.WorkStep(s, a);
            Undisturbed(s') && s'.channel == s.channel && Shows(Finished(s'), Finished(s))
  {
    D.WorkKeepsInv(s, a);
    var timed := if a.now < s.clock then s else s.(clock := a.now);
    match s.phase {
      case Permitted(_, _, _) => ExecuteShows(timed, a);
      case Resetting(_, _, _, _) => ResetShows(timed, a);
      case _ =>
    }
  }

  lemma {:induction false} SmoothStepKeepsMeaning(s: D.State, l: D.Label, log: seq<Command>, origin: Panel)
    requires WellFormed(origin) && Meaning(s, log, origin) && Smooth(s, l)
    ensures Meaning(D.Step(s, l), log + Heard(l), origin)
  {
    match l {
      case Submit(c) => SubmitKeepsMeaning(s, c, log, origin);
      case Work(a) =>
        assert log + Heard(l) == log;
        if s.phase.Polling? && s.phase.done < D.BATCH && s.channel.queue != [] {
          PollKeepsMeaning(s, a);
        } else {
          OtherWorkShows(s, a);
          DrainShows(Finished(D.WorkStep(s, a)), Finished(s), s.channel.queue);
        }
      case CloneSender =>
        assert log + Heard(l) == log;
        D.StepKeepsInv(s, l);
      case DropSender =>
        assert log + Heard(l) == log;
        D.StepKeepsInv(s, l);
      case Revoke(_) =>
    }
  }

  lemma {:induction false} SmoothRunKeepsMeaning(s: D.State, labels: seq<D.Label>, log: seq<Command>, origin: Panel)
    requires WellFormed(origin) && Meaning(s, log, origin) && SmoothRun(s, labels)
    ensures Meaning(D.Run(s, labels), Accepted(log, labels), origin)
    decreases |labels|
  {
    if labels != [] {
      SmoothStepKeepsMeaning(s, labels[0], log, origin);
      SmoothRunKeepsMeaning(D.Step(s, labels[0]), labels[1..], log + Heard(labels[0]), origin);
    }
  }

  /**
   * At every moment of every undisturbed run, what the worker has in hand and
   * in its queue leads the panel to what all accepted commands, in order, show.
   */
  lemma WorkerShowsTheLog(s: D.State, labels: seq<D.Label>)
    requires D.Initial(s) && s.revoked == {}
    requires s.channel.queue == [] && !s.channel.stopping && s.channel.senderCount > 0
    requires SmoothRun(s, labels)
    ensures var s' := D.Run(s, labels);
            && !s'.phase.Exited?
            && Shows(M.Drain(Finished(s'), s'.channel.queue), M.Replay(s.panel, Accepted([], labels)))
  {
    D.InitialInv(s);
    SmoothRunKeepsMeaning(s, labels, [], s.panel);
  }
}
