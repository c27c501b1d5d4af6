/**
 * The coalescing queue means the same as the full log: draining it onto the
 * panel shows what replaying every accepted command in order would show.
 */
module Coalescing {
  import opened Basics
  import opened Commands
  import opened CommandQueues
  import opened Panels

  // ---------------------------------------------------------------- two readings of a command list

  function Replay(p: Panel, log: seq<Command>): (r: Panel)
    requires WellFormed(p)
    ensures WellFormed(r)
  {
    if log == [] then p else Apply(Replay(p, log[..|log| - 1]), log[|log| - 1])
  }

  function Drain(p: Panel, q: seq<Entry>): (r: Panel)
    requires WellFormed(p)
    ensures WellFormed(r)
  {
    if q == [] then p else Apply(Drain(p, q[..|q| - 1]), q[|q| - 1].command)
  }

  /** A cell of the panel: lamp 1 to 8, or the screen as 0. */
  type Cell = n: nat | n <= LAMPS

  datatype Content = LampContent(lamp: Lamp) | ScreenContent(screen: Screen)

  function Read(p: Panel, cell: Cell): Content
    requires WellFormed(p)
  {
    if cell == 0 then ScreenContent(p.screen) else LampContent(p.lamps[cell - 1])
  }

  /** What a command puts in a cell, whatever was there before. */
  function Written(c: Command, cell: Cell): Option<Content> {
    match c
    case Hardware(SetLed(control, on), context) =>
      if LedIndex(control) == Some(cell) then Some(LampContent(Lamp(on, Some(context)))) else None
    case Hardware(SetRasterFrame(control, _, image), context) =>
      if control == SCREEN && cell == 0 then Some(ScreenContent(Frame(image, context))) else None
    case Hardware(ClearRaster(control), _) =>
      if control == SCREEN && cell == 0 then Some(ScreenContent(Blank)) else None
    case _ => Some(Cleared(cell))
  }

  function Cleared(cell: Cell): Content {
    if cell == 0 then ScreenContent(Blank) else LampContent(DARK)
  }

  /** The last word on a cell in a queue. */
  function LastWritten(q: seq<Entry>, cell: Cell): Option<Content> {
    if q == [] then None
    else
      var w := Written(q[|q| - 1].command, cell);
      if w.Some? then w else LastWritten(q[..|q| - 1], cell)
  }

  lemma PanelsByCell(p: Panel, p': Panel)
    requires WellFormed(p) && WellFormed(p')
    ensures p == p' <==> forall cell: Cell :: Read(p, cell) == Read(p', cell)
  {
    if forall cell: Cell :: Read(p, cell) == Read(p', cell) {
      assert Read(p, 0) == Read(p', 0);
      forall i | 0 <= i < LAMPS ensures p.lamps[i] == p'.lamps[i] {
        assert Read(p, i + 1) == Read(p', i + 1);
      }
      assert p.lamps == p'.lamps;
    }
  }

  lemma ApplyByCell(p: Panel, c: Command, cell: Cell)
    requires WellFormed(p)
    ensures Read(Apply(p, c), cell) == if Written(c, cell).Some? then Written(c, cell).value else Read(p, cell)
  {
  }

  lemma {:induction false} DrainByCell(p: Panel, q: seq<Entry>, cell: Cell)
    requires WellFormed(p)
    ensures Read(Drain(p, q), cell) ==
            if LastWritten(q, cell).Some? then LastWritten(q, cell).value else Read(p, cell)
  {
    if q != [] {
      DrainByCell(p, q[..|q| - 1], cell);
      ApplyByCell(Drain(p, q[..|q| - 1]), q[|q| - 1].command, cell);
    }
  }

  // ---------------------------------------------------------------- one send

  /** A raster frame for a control other than the screen: accepted by the queue, ignored by the panel. */
  predicate Ignored(e: Entry) {
    e.command.Hardware? && !e.command.output.SetLed? && e.command.output.control != SCREEN
  }

  /** Losing `e` would change nothing: it is ignored, or it blanks a screen the reset at the head blanks. */
  predicate Redundant(q: seq<Entry>, e: Entry) {
    || Ignored(e)
    || (e.command.Hardware? && e.command.output.ClearRaster? && q != [] && q[0].command.ResetDevice?)
  }

  /**
   * The guard under which one send is lossless: a raster command for a lamp's
   * control must not meet a pending lamp command, and a queue that is full
   * after coalescing must have a redundant entry to give up.
   */
  predicate LosslessSend(q: seq<Entry>, c: Command) {
    c.Hardware? ==>
      var kept := Retain(q, c.output.control);
      && (Ignored(Entry(c, 0)) ==>
            forall i :: 0 <= i < |q| && SameControl(q[i], c.output.control) ==> !q[i].command.output.SetLed?)
      && (|kept| >= CAPACITY && Victim(kept) < |kept| ==> Redundant(q, kept[Victim(kept)]))
  }

  /** A queue accepted before Stop: only resets and outputs, well shaped and parsed. */
  ghost predicate Pending(s: QueueState) {
    Shape(s) && s.receiverAlive && !s.stopping && AllParsed(s.queue)
  }

  lemma {:induction false} LastWrittenConcat(a: seq<Entry>, b: seq<Entry>, cell: Cell)
    ensures LastWritten(a + b, cell) ==
            if LastWritten(b, cell).Some? then LastWritten(b, cell) else LastWritten(a, cell)
    decreases |b|
  {
    if b == [] {
      assert a + b == a;
    } else {
      assert (a + b)[..|a + b| - 1] == a + b[..|b| - 1];
      LastWrittenConcat(a, b[..|b| - 1], cell);
    }
  }

  /** Coalescing only removes entries for the control, so cells those entries do not write keep their content. */
  lemma {:induction false} RetainByCell(q: seq<Entry>, control: string, cell: Cell)
    requires forall i :: 0 <= i < |q| && SameControl(q[i], control) ==> Written(q[i].command, cell) == None
    ensures LastWritten(Retain(q, control), cell) == LastWritten(q, cell)
  {
    if q != [] {
      var n := |q| - 1;
      RetainByCell(q[..n], control, cell);
      var rest := Retain(q[..n], control);
      if !SameControl(q[n], control) {
        assert (rest + [q[n]])[..|rest|] == rest;
      }
    }
  }

  /** Two outputs that write one cell have one control. */
  lemma CellHasOneControl(a: Command, b: Command, cell: Cell)
    requires a.Hardware? && b.Hardware? && Parsed(a) && Parsed(b)
    requires Written(a, cell).Some? && Written(b, cell).Some?
    ensures a.output.control == b.output.control
  {
    if a.output.SetLed? {
      LedIndexBijective(a.output.control, b.output.control, cell);
    }
  }

  lemma NoOtherWriter(q: seq<Entry>, k: nat, cell: Cell)
    requires Ordered(q) && AllParsed(q) && k < |q| && q[k].command.Hardware?
    requires Written(q[k].command, cell).Some?
    ensures forall i :: 0 <= i < |q| && i != k && q[i].command.Hardware? ==> Written(q[i].command, cell) == None
  {
    forall i | 0 <= i < |q| && i != k && q[i].command.Hardware? ensures Written(q[i].command, cell) == None {
      if Written(q[i].command, cell).Some? {
        CellHasOneControl(q[i].command, q[k].command, cell);
      }
    }
  }

  /** In an ordered queue, no output but the one at `k` writes the cells that one writes. */
  lemma SoleWriter(q: seq<Entry>, k: nat, cell: Cell)
    requires Ordered(q) && AllParsed(q) && k < |q| && q[k].command.Hardware?
    requires Written(q[k].command, cell).Some?
    requires forall i :: 0 <= i < |q| ==> !q[i].command.Stop?
    ensures LastWritten(q, cell) == Written(q[k].command, cell)
    ensures LastWritten(RemoveAt(q, k), cell) ==
            if q[0].command.ResetDevice? then Some(Cleared(cell)) else None
  {
    NoOtherWriter(q, k, cell);
    LastIsSole(q, k, cell);
    HeadOnly(RemoveAt(q, k), cell);
  }

  lemma LastIsSole(q: seq<Entry>, k: nat, cell: Cell)
    requires k < |q| && Written(q[k].command, cell).Some?
    requires forall i :: k < i < |q| ==> Written(q[i].command, cell) == None
    ensures LastWritten(q, cell) == Written(q[k].command, cell)
  {
    var after := q[k + 1..];
    NoWriter(after, cell);
    assert q == q[..k + 1] + after;
    LastWrittenConcat(q[..k + 1], after, cell);
  }

  lemma {:induction false} NoWriter(q: seq<Entry>, cell: Cell)
    requires forall i :: 0 <= i < |q| ==> Written(q[i].command, cell) == None
    ensures LastWritten(q, cell) == None
  {
    if q != [] {
      NoWriter(q[..|q| - 1], cell);
    }
  }

  /** With no output writing a cell, only a reset at the head has a say on it. */
  lemma {:induction false} HeadOnly(q: seq<Entry>, cell: Cell)
    requires OutputsBehindHead(q)
    requires forall i :: 0 <= i < |q| ==> !q[i].command.Stop?
    requires forall i :: 0 <= i < |q| && q[i].command.Hardware? ==> Written(q[i].command, cell) == None
    ensures LastWritten(q, cell) ==
            if q != [] && q[0].command.ResetDevice? then Some(Cleared(cell)) else None
  {
    if q != [] {
      NoWriter(q[1..], cell);
      assert q == [q[0]] + q[1..];
      LastWrittenConcat([q[0]], q[1..], cell);
    }
  }

  lemma RemoveSilent(q: seq<Entry>, k: nat, cell: Cell)
    requires k < |q| && Written(q[k].command, cell) == None
    ensures LastWritten(RemoveAt(q, k), cell) == LastWritten(q, cell)
  {
    var before, after := q[..k], q[k + 1..];
    assert q == (before + [q[k]]) + after;
    LastWrittenConcat(before + [q[k]], after, cell);
    LastWrittenConcat(before, [q[k]], cell);
    LastWrittenConcat(before, after, cell);
  }

  ghost predicate SameLastWords(q: seq<Entry>, q': seq<Entry>) {
    forall cell: Cell :: LastWritten(q, cell) == LastWritten(q', cell)
  }

  ghost predicate SameMeaning(q: seq<Entry>, q': seq<Entry>) {
    forall p: Panel {:trigger Drain(p, q)} {:trigger Drain(p, q')} :: WellFormed(p) ==> Drain(p, q) == Drain(p, q')
  }

  lemma SameLastWordsMeanTheSame(q: seq<Entry>, q': seq<Entry>)
    requires SameLastWords(q, q')
    ensures SameMeaning(q, q')
  {
    forall p: Panel | WellFormed(p) ensures Drain(p, q) == Drain(p, q') {
      forall cell: Cell ensures Read(Drain(p, q), cell) == Read(Drain(p, q'), cell) {
        DrainByCell(p, q, cell);
        DrainByCell(p, q', cell);
      }
      PanelsByCell(Drain(p, q), Drain(p, q'));
    }
  }

  /** A panel on which two different last words can be told apart. */
  lemma DifferentLastWordsShow(q: seq<Entry>, q': seq<Entry>, cell: Cell)
    requires LastWritten(q, cell) != LastWritten(q', cell)
    ensures !SameMeaning(q, q')
  {
    var off, lit := ResetPanel(), Panel(seq(LAMPS, _ => Lamp(true, None)), Unknown);
    assert Read(off, cell) != Read(lit, cell);
    DrainByCell(off, q, cell);
    DrainByCell(off, q', cell);
    DrainByCell(lit, q, cell);
    DrainByCell(lit, q', cell);
    assert Drain(off, q) != Drain(off, q') || Drain(lit, q) != Drain(lit, q');
  }

  /** The queue after an accepted output, cell by cell. */
  lemma SendByCell(s: QueueState, c: Command, cell: Cell)
    requires Pending(s) && c.Hardware? && Parsed(c)
    ensures LastWritten(Send(s, c).queue, cell) ==
            if Written(c, cell).Some? then Written(c, cell)
            else LastWritten(Survivors(s.queue, c.output.control), cell)
  {
    SurvivorsKeep(s.queue, c.output.control);
    LastWrittenConcat(Survivors(s.queue, c.output.control), [Entry(c, s.sent)], cell);
  }

  lemma LosslessKeepsCell(q: seq<Entry>, c: Command, cell: Cell)
    requires |q| <= CAPACITY && Ordered(q) && AllParsed(q) && StopAlone(q, false)
    requires c.Hardware? && Parsed(c) && LosslessSend(q, c) && Written(c, cell) == None
    ensures LastWritten(Survivors(q, c.output.control), cell) == LastWritten(q, cell)
  {
    var kept := Retain(q, c.output.control);
    forall i | 0 <= i < |q| && SameControl(q[i], c.output.control)
      ensures Written(q[i].command, cell) == None
    {
      if Written(q[i].command, cell).Some? {
        LedIndexBijective(c.output.control, SCREEN, cell);
      }
    }
    RetainByCell(q, c.output.control, cell);
    RetainKeeps(q, c.output.control);
    KeptKeepsHead(q, c.output.control);
    OneEviction(kept);
    if |kept| >= CAPACITY {
      EvictRedundant(q, kept, cell);
    }
  }

  lemma EvictRedundant(q: seq<Entry>, kept: seq<Entry>, cell: Cell)
    requires Ordered(kept) && AllParsed(kept) && StopAlone(kept, false)
    requires Victim(kept) < |kept| && Redundant(q, kept[Victim(kept)])
    requires q != [] && q[0].command.ResetDevice? ==> kept != [] && kept[0] == q[0]
    ensures LastWritten(RemoveAt(kept, Victim(kept)), cell) == LastWritten(kept, cell)
  {
    var k := Victim(kept);
    if Written(kept[k].command, cell).Some? {
      SoleWriter(kept, k, cell);
    } else {
      RemoveSilent(kept, k, cell);
    }
  }

  lemma {:induction false} KeptKeepsHead(q: seq<Entry>, control: string)
    requires Ordered(q) && AllParsed(q) && StopAlone(q, false)
    ensures AllParsed(Retain(q, control)) && StopAlone(Retain(q, control), false)
    ensures q != [] && q[0].command.ResetDevice? ==>
              Retain(q, control) != [] && Retain(q, control)[0] == q[0]
    ensures Retain(q, control) != [] && Retain(q, control)[0].command.ResetDevice? ==>
              q[0].command.ResetDevice?
  {
    RetainKeeps(q, control);
    var kept := Retain(q, control);
    forall i | 0 <= i < |kept| ensures kept[i] in q {
      assert kept[i] in kept;
    }
    if q != [] && q[0].command.ResetDevice? {
      assert q[0] in kept;
    }
  }

  /** An entry for cell `cell` that the send loses, and that `c` does not overwrite, leaves a trace. */
  lemma LossShows(s: QueueState, c: Command, k: nat, cell: Cell)
    requires Pending(s) && c.Hardware? && Parsed(c) && k < |s.queue| && s.queue[k].command.Hardware?
    requires Written(s.queue[k].command, cell).Some? && Written(c, cell) == None
    requires s.queue[k] !in Survivors(s.queue, c.output.control)
    requires !Redundant(s.queue, s.queue[k])
    ensures LastWritten(Survivors(s.queue, c.output.control), cell) != LastWritten(s.queue, cell)
  {
    var q, r := s.queue, Survivors(s.queue, c.output.control);
    SurvivorsKeep(q, c.output.control);
    SoleWriter(q, k, cell);
    forall i | 0 <= i < |r| && r[i].command.Hardware? ensures Written(r[i].command, cell) == None {
      if Written(r[i].command, cell).Some? {
        CellHasOneControl(r[i].command, q[k].command, cell);
      }
    }
    HeadOnly(r, cell);
    assert r != [] && r[0].command.ResetDevice? ==> q[0].command.ResetDevice? by {
      if r != [] && r[0].command.ResetDevice? {
        assert r[0] in q;
      }
    }
  }

  /** A lamp command coalesced away by a raster command for its control leaves its lamp untouched. */
  lemma CancelledLampShows(s: QueueState, c: Command, k: nat)
    requires Pending(s) && c.Hardware? && Parsed(c) && Ignored(Entry(c, 0))
    requires k < |s.queue| && SameControl(s.queue[k], c.output.control) && s.queue[k].command.output.SetLed?
    ensures !SameLastWords(Send(s, c).queue, s.queue + [Entry(c, s.sent)])
  {
    SurvivorsKeep(s.queue, c.output.control);
    SendLosesTrace(s, c, k, LedIndex(c.output.control).value);
  }

  /** An entry evicted although it matters leaves its cell untouched. */
  lemma EvictedEntryShows(s: QueueState, c: Command)
    requires Pending(s) && c.Hardware? && Parsed(c)
    requires var kept := Retain(s.queue, c.output.control);
             |kept| >= CAPACITY && Victim(kept) < |kept| && !Redundant(s.queue, kept[Victim(kept)])
    ensures !SameLastWords(Send(s, c).queue, s.queue + [Entry(c, s.sent)])
  {
    var q, control := s.queue, c.output.control;
    var kept := Retain(q, control);
    var v := kept[Victim(kept)];
    RetainKeeps(q, control);
    OneEviction(kept);
    assert v in kept;
    var k :| 0 <= k < |q| && q[k] == v;
    var cell: Cell := if v.command.output.SetLed? then LedIndex(v.command.output.control).value else 0;
    forall i | 0 <= i < |kept| - 1 ensures RemoveAt(kept, Victim(kept))[i] != v {
    }
    if Written(c, cell).Some? {
      CellHasOneControl(c, v.command, cell);
    }
    SendLosesTrace(s, c, k, cell);
  }

  lemma SendLosesTrace(s: QueueState, c: Command, k: nat, cell: Cell)
    requires Pending(s) && c.Hardware? && Parsed(c) && k < |s.queue| && s.queue[k].command.Hardware?
    requires Written(s.queue[k].command, cell).Some? && Written(c, cell) == None
    requires s.queue[k] !in Survivors(s.queue, c.output.control)
    requires !Redundant(s.queue, s.queue[k])
    ensures !SameLastWords(Send(s, c).queue, s.queue + [Entry(c, s.sent)])
  {
    LossShows(s, c, k, cell);
    SendByCell(s, c, cell);
    LastWrittenConcat(s.queue, [Entry(c, s.sent)], cell);
  }

  lemma LossyKeepsTrace(s: QueueState, c: Command)
    requires Pending(s) && c.Hardware? && Parsed(c) && !LosslessSend(s.queue, c)
    ensures !SameLastWords(Send(s, c).queue, s.queue + [Entry(c, s.sent)])
  {
    var q, control := s.queue, c.output.control;
    if Ignored(Entry(c, 0)) && exists i :: 0 <= i < |q| && SameControl(q[i], control) && q[i].command.output.SetLed? {
      var k :| 0 <= k < |q| && SameControl(q[k], control) && q[k].command.output.SetLed?;
      CancelledLampShows(s, c, k);
    } else {
      EvictedEntryShows(s, c);
    }
  }

  /** Accepting `c` now and draining later shows what draining first and then applying `c` would show. */
  ghost predicate SendPreservesMeaning(s: QueueState, c: Command) {
    forall p: Panel {:trigger Drain(p, s.queue)} {:trigger Drain(p, Send(s, c).queue)} ::
      WellFormed(p) ==> Drain(p, Send(s, c).queue) == Apply(Drain(p, s.queue), c)
  }

  lemma SendMeaningByQueue(s: QueueState, c: Command)
    ensures SendPreservesMeaning(s, c) <==> SameMeaning(Send(s, c).queue, s.queue + [Entry(c, s.sent)])
  {
    var q := s.queue + [Entry(c, s.sent)];
    assert q[..|q| - 1] == s.queue;
    forall p: Panel | WellFormed(p) ensures Drain(p, q) == Apply(Drain(p, s.queue), c) {
    }
  }

  lemma LosslessKeepsLastWords(s: QueueState, c: Command)
    requires Pending(s) && Parsed(c) && !c.Stop? && LosslessSend(s.queue, c)
    ensures SameLastWords(Send(s, c).queue, s.queue + [Entry(c, s.sent)])
  {
    var e := Entry(c, s.sent);
    forall cell: Cell ensures LastWritten(Send(s, c).queue, cell) == LastWritten(s.queue + [e], cell) {
      LastWrittenConcat(s.queue, [e], cell);
      if c.Hardware? {
        SendByCell(s, c, cell);
        if Written(c, cell) == None {
          LosslessKeepsCell(s.queue, c, cell);
          assert LastWritten([e], cell) == LastWritten([e][..0], cell);
        }
      }
    }
  }

  /** One send preserves meaning on every panel exactly under the guard `LosslessSend`. */
  lemma SendPreservesMeaningIff(s: QueueState, c: Command)
    requires Pending(s) && Parsed(c) && !c.Stop?
    ensures SendPreservesMeaning(s, c) <==> LosslessSend(s.queue, c)
  {
    var q, q' := s.queue + [Entry(c, s.sent)], Send(s, c).queue;
    SendMeaningByQueue(s, c);
    if LosslessSend(s.queue, c) {
      LosslessKeepsLastWords(s, c);
      SameLastWordsMeanTheSame(q', q);
    } else {
      LossyKeepsTrace(s, c);
      var cell: Cell :| LastWritten(q', cell) != LastWritten(q, cell);
      DifferentLastWordsShow(q', q, cell);
    }
  }

  /** Why the guard is needed: a raster frame addressed to a lamp's control silently cancels the lamp. */
  lemma RasterOnLampLosesTheLamp(context: Context)
    ensures var lamp := Hardware(SetLed("s1", true), context);
            var stray := Hardware(SetRasterFrame("s1", "png", []), context);
            var s := Send(Send(FRESH, lamp), stray);
            && Drain(ResetPanel(), s.queue).lamps[0] == DARK
            && Replay(ResetPanel(), [lamp, stray]).lamps[0] == Lamp(true, Some(context))
  {
    var lamp := Hardware(SetLed("s1", true), context);
    var stray := Hardware(SetRasterFrame("s1", "png", []), context);
    var first := Send(FRESH, lamp);
    assert Retain([], "s1") == [];
    assert first.queue == [Entry(lamp, 0)];
    assert Retain(first.queue[..0], "s1") == [];
    assert Retain(first.queue, "s1") == [];
    var s := Send(first, stray);
    assert s.queue == [Entry(stray, 1)];
    assert Drain(ResetPanel(), s.queue[..0]) == ResetPanel();
    var log := [lamp, stray];
    assert log[..1] == [lamp] && [lamp][..0] == [];
    assert Replay(ResetPanel(), [lamp][..0]) == ResetPanel();
    assert Replay(ResetPanel(), [lamp]) == Apply(ResetPanel(), lamp);
  }

  // ---------------------------------------------------------------- whole runs

  datatype Action = Accept(command: Command) | DequeueAndApply

  datatype Session = Session(state: QueueState, log: seq<Command>, panel: Panel)

  function Act(s: Session, a: Action): Session
    requires WellFormed(s.panel)
  {
    match a
    case Accept(c) => s.(state := Send(s.state, c), log := s.log + [c])
    case DequeueAndApply =>
      if s.state.queue == [] then s
      else s.(state := s.state.(queue := s.state.queue[1..]), panel := Apply(s.panel, s.state.queue[0].command))
  }

  function Perform(s: Session, actions: seq<Action>): Session
    requires WellFormed(s.panel)
    decreases |actions|
  {
    if actions == [] then s else Perform(Act(s, actions[0]), actions[1..])
  }

  /** Every command of the run is parsed, is not Stop, and meets the guard when it is sent. */
  ghost predicate LosslessRun(s: Session, actions: seq<Action>)
    requires WellFormed(s.panel)
    decreases |actions|
  {
    actions == [] ||
    (&& (actions[0].Accept? ==>
           var c := actions[0].command;
           Parsed(c) && !c.Stop? && LosslessSend(s.state.queue, c))
     && LosslessRun(Act(s, actions[0]), actions[1..]))
  }

  ghost predicate Faithful(s: Session, origin: Panel)
    requires WellFormed(origin)
  {
    && WellFormed(s.panel)
    && Pending(s.state)
    && Drain(s.panel, s.state.queue) == Replay(origin, s.log)
  }

  lemma {:induction false} DrainHead(p: Panel, q: seq<Entry>)
    requires WellFormed(p) && q != []
    ensures Drain(Apply(p, q[0].command), q[1..]) == Drain(p, q)
  {
    var n := |q| - 1;
    if n == 0 {
      assert q[..0] == [] && q[1..] == [];
    } else {
      DrainHead(p, q[..n]);
      assert q[..n][1..] == q[1..][..n - 1];
    }
  }

  lemma SendKeepsPending(s: QueueState, c: Command)
    requires Pending(s) && Parsed(c) && !c.Stop?
    ensures Pending(Send(s, c))
  {
    SendKeepsShape(s, c);
    SendAddsOnlyItself(s, c);
    var q := Send(s, c).queue;
    forall i | 0 <= i < |q| ensures Parsed(q[i].command) {
      assert q[i] in s.queue || q[i] == Entry(c, s.sent);
    }
  }

  lemma ActKeepsFaithful(s: Session, a: Action, origin: Panel)
    requires WellFormed(origin) && Faithful(s, origin)
    requires a.Accept? ==> Parsed(a.command) && !a.command.Stop? && LosslessSend(s.state.queue, a.command)
    ensures Faithful(Act(s, a), origin)
  {
    match a {
      case Accept(c) =>
        SendPreservesMeaningIff(s.state, c);
        SendKeepsPending(s.state, c);
        assert (s.log + [c])[..|s.log|] == s.log;
        assert Drain(s.panel, Send(s.state, c).queue) == Apply(Drain(s.panel, s.state.queue), c);
      case DequeueAndApply =>
        if s.state.queue != [] {
          DrainHead(s.panel, s.state.queue);
        }
    }
  }

  /** Coalescing preserves meaning over every run of lossless sends interleaved with dequeues. */
  lemma {:induction false} CoalescingPreservesMeaning(s: Session, actions: seq<Action>, origin: Panel)
    requires WellFormed(origin) && Faithful(s, origin) && LosslessRun(s, actions)
    ensures Faithful(Perform(s, actions), origin)
    decreases |actions|
  {
    if actions != [] {
      ActKeepsFaithful(s, actions[0], origin);
      CoalescingPreservesMeaning(Act(s, actions[0]), actions[1..], origin);
    }
  }

  // ---------------------------------------------------------------- well-addressed controllers

  /** Raster commands go to the screen only. */
  predicate WellAddressed(c: Command) {
    && Parsed(c) && !c.Stop?
    && (c.Hardware? && !c.output.SetLed? ==> c.output.control == SCREEN)
  }

  ghost predicate AllWellAddressed(q: seq<Entry>) {
    forall i :: 0 <= i < |q| ==> WellAddressed(q[i].command)
  }

  /** Nine controls at most wait at once, so a well-addressed queue never overflows. */
  lemma NeverFull(q: seq<Entry>)
    requires Ordered(q) && AllWellAddressed(q)
    ensures |q| <= 10
  {
    var tail := if q == [] then [] else q[1..];
    var controls := seq(|tail|, i requires 0 <= i < |tail| && tail[i].command.Hardware? => tail[i].command.output.control);
    var universe := LAMP_CONTROLS + {SCREEN};
    DistinctFits(controls, universe);
    assert |universe| <= 9 by {
      assert |LAMP_CONTROLS| == 8;
    }
  }

  lemma WellAddressedSendIsLossless(s: QueueState, c: Command)
    requires Pending(s) && AllWellAddressed(s.queue) && WellAddressed(c)
    ensures LosslessSend(s.queue, c)
    ensures AllWellAddressed(Send(s, c).queue)
  {
    SendAddsOnlyItself(s, c);
    if c.Hardware? {
      NeverFull(s.queue);
      RetainKeeps(s.queue, c.output.control);
    }
  }

  /** For controllers that address rasters to the screen, coalescing preserves meaning unconditionally. */
  lemma {:induction false} WellAddressedRunsAreLossless(s: Session, actions: seq<Action>, origin: Panel)
    requires WellFormed(origin) && Faithful(s, origin) && AllWellAddressed(s.state.queue)
    requires forall i :: 0 <= i < |actions| && actions[i].Accept? ==> WellAddressed(actions[i].command)
    ensures LosslessRun(s, actions)
    decreases |actions|
  {
    if actions != [] {
      if actions[0].Accept? {
        WellAddressedSendIsLossless(s.state, actions[0].command);
      }
      ActKeepsFaithful(s, actions[0], origin);
      WellAddressedRunsAreLossless(Act(s, actions[0]), actions[1..], origin);
    }
  }

  lemma {:induction false} DrainedQueueMeansFullLog(origin: Panel, actions: seq<Action>)
    requires WellFormed(origin)
    requires forall i :: 0 <= i < |actions| && actions[i].Accept? ==> WellAddressed(actions[i].command)
    ensures var s := Perform(Session(FRESH, [], origin), actions);
            && WellFormed(s.panel)
            && Drain(s.panel, s.state.queue) == Replay(origin, s.log)
  {
    var s := Session(FRESH, [], origin);
    WellAddressedRunsAreLossless(s, actions, origin);
    CoalescingPreservesMeaning(s, actions, origin);
  }
}
