/**
 * Whole histories of the supervisor: discovery ticks against arbitrary
 * agreeing snapshots, reports handled in between, and worker threads acting at
 * any moment, also in the middle of a tick.
 */
module SupervisorTicks {
  import opened Basics
  import opened EventStreams
  import opened Supervisors
  import opened SupervisorRuns
  import opened SupervisorCode

  /** Where the supervisor stands: between ticks, or forgetting absent paths, or launching along the snapshot. */
  datatype Stage = Idle | Dropping(snapshot: seq<Candidate>) | Launching(snapshot: seq<Candidate>, next: nat)

  datatype Move = TickBegins(snapshot: seq<Candidate>) | DropsDone | TickEnds | Act(step: Label)

  /** Steps that may be taken at a stage in any world, and leave the stage. */
  ghost predicate Plain(stage: Stage, l: Label) {
    || ThreadStep(l)
    || (stage.Idle? && (l.LProcess? || l.LReap?))
    || (stage.Dropping? && (l.LDropActive? || l.LDropLaunched?) && !Present(stage.snapshot, l.path))
  }

  /**
   * What may happen next. A tick begins with a snapshot that agrees with the
   * entries it retains; it forgets every absent path before it launches along
   * the snapshot; only threads act at any stage.
   */
  ghost predicate Allowed(w: World, stage: Stage, m: Move)
    requires EntriesTrue(w)
  {
    match m
    case TickBegins(snapshot) => stage.Idle? && Agreeing(w, snapshot)
    case DropsDone => stage.Dropping? && forall p :: HasEntry(w, p) ==> Present(stage.snapshot, p)
    case TickEnds => stage.Launching? && stage.next == |stage.snapshot|
    case Act(l) =>
      || Plain(stage, l)
      || (stage.Launching? && stage.next < |stage.snapshot| && l == LLaunch(stage.snapshot[stage.next]))
  }

  function After(stage: Stage, m: Move): Stage {
    match m
    case TickBegins(snapshot) => Dropping(snapshot)
    case DropsDone => if stage.Dropping? then Launching(stage.snapshot, 0) else stage
    case TickEnds => Idle
    case Act(l) => if l.LLaunch? && stage.Launching? then Launching(stage.snapshot, stage.next + 1) else stage
  }

  function Moved(w: World, m: Move): World {
    if m.Act? then Step(w, m.step) else w
  }

  /** The steps of a history. */
  function Steps(moves: seq<Move>): seq<Label> {
    if moves == [] then [] else (if moves[0].Act? then [moves[0].step] else []) + Steps(moves[1..])
  }

  lemma MoveKeepsInv(w: World, m: Move)
    requires Inv(w)
    ensures Inv(Moved(w, m))
  {
    if m.Act? {
      StepKeepsInv(w, m.step);
    }
  }

  ghost predicate History(w: World, stage: Stage, moves: seq<Move>)
    requires Inv(w)
    decreases |moves|
  {
    moves == [] ||
    (&& Allowed(w, stage, moves[0])
     && (MoveKeepsInv(w, moves[0]); History(Moved(w, moves[0]), After(stage, moves[0]), moves[1..])))
  }

  /** What the tick under way can rely on. */
  ghost predicate OnCourse(w: World, stage: Stage)
    requires EntriesTrue(w)
  {
    match stage
    case Idle => true
    case Dropping(snapshot) => Agreeing(w, snapshot)
    case Launching(snapshot, next) => Distinct(snapshot) && Covered(w, snapshot) && next <= |snapshot|
  }

  /** Entries kept or dropped, never changed: the snapshot agrees, and covers, as before. */
  lemma InheritedOnCourse(w: World, w': World, stage: Stage)
    requires EntriesTrue(w) && EntriesTrue(w') && EntriesInherited(w, w') && OnCourse(w, stage)
    ensures OnCourse(w', stage)
  {
    if stage.Launching? {
      forall p | HasEntry(w', p)
        ensures exists i :: 0 <= i < |stage.snapshot| && stage.snapshot[i].path == p
                            && stage.snapshot[i].device == EntryDevice(w', p)
      {
        assert HasEntry(w, p);
      }
    }
  }

  /** An agreeing snapshot with no absent path left covers every entry. */
  lemma PresentIsCovered(w: World, snapshot: seq<Candidate>)
    requires EntriesTrue(w) && Agreeing(w, snapshot) && forall p :: HasEntry(w, p) ==> Present(snapshot, p)
    ensures Covered(w, snapshot)
  {
    forall p | HasEntry(w, p)
      ensures exists i :: 0 <= i < |snapshot| && snapshot[i].path == p && snapshot[i].device == EntryDevice(w, p)
    {
      var i :| 0 <= i < |snapshot| && snapshot[i].path == p;
      assert HasEntry(w, snapshot[i].path);
    }
  }

  lemma MoveStaysOnCourse(w: World, stage: Stage, m: Move)
    requires Inv(w) && Inv(Moved(w, m)) && OnCourse(w, stage) && Allowed(w, stage, m)
    ensures OnCourse(Moved(w, m), After(stage, m))
    ensures m.Act? && m.step.LLaunch? && !Managed(w, m.step.candidate.path) ==> FreshDevice(w, m.step.candidate)
  {
    match m {
      case DropsDone => PresentIsCovered(w, stage.snapshot);
      case Act(l) =>
        if !l.LLaunch? {
          StepInherits(w, l);
          InheritedOnCourse(w, Step(w, l), stage);
        } else if !Managed(w, l.candidate.path) {
          UnmanagedIsFresh(w, stage.snapshot, stage.next);
          LaunchKeepsCovered(w, stage.snapshot, stage.next);
        }
      case _ =>
    }
  }

  lemma {:induction false} HistoriesAreFresh(w: World, stage: Stage, moves: seq<Move>)
    requires Inv(w) && OnCourse(w, stage) && History(w, stage, moves)
    ensures FreshRun(w, Steps(moves))
    decreases |moves|
  {
    if moves != [] {
      var m := moves[0];
      MoveKeepsInv(w, m);
      MoveStaysOnCourse(w, stage, m);
      HistoriesAreFresh(Moved(w, m), After(stage, m), moves[1..]);
      if m.Act? {
        FreshFirst(w, m.step, Steps(moves[1..]));
      } else {
        assert Steps(moves) == Steps(moves[1..]);
      }
    }
  }

  lemma FreshFirst(w: World, l: Label, rest: seq<Label>)
    requires Inv(w) && Inv(Step(w, l)) && FreshRun(Step(w, l), rest)
    requires l.LLaunch? && !Managed(w, l.candidate.path) ==> FreshDevice(w, l.candidate)
    ensures FreshRun(w, [l] + rest)
  {
    assert ([l] + rest)[1..] == rest;
  }

  /**
   * Over every history of ticks against agreeing snapshots, the event loop's
   * table maps exactly the active device ids, each to its current worker's
   * queue, and it is exact after every prefix of the stream.
   */
  lemma TicksKeepRoutingExact(moves: seq<Move>)
    requires Inv(INITIAL) && History(INITIAL, Idle, moves)
    ensures var w := Run(INITIAL, Steps(moves));
            && WellFormedStream(w.events) && AlwaysExact(w.events)
            && (forall p :: p in w.active ==>
                  w.active[p].device in Route(w.events) && Route(w.events)[w.active[p].device] == w.active[p].queue)
            && (forall d :: d in Route(w.events) ==> exists p :: p in w.active && w.active[p].device == d)
  {
    HistoriesAreFresh(INITIAL, Idle, moves);
    RoutingTableIsExact(Steps(moves));
  }

  // ---------------------------------------------------------------- histories put together

  /** The stage a history ends in. */
  function AfterAll(stage: Stage, moves: seq<Move>): Stage
    decreases |moves|
  {
    if moves == [] then stage else AfterAll(After(stage, moves[0]), moves[1..])
  }

  lemma {:induction false} StepsConcat(a: seq<Move>, b: seq<Move>)
    ensures Steps(a + b) == Steps(a) + Steps(b)
    decreases |a|
  {
    if a == [] {
      assert a + b == b;
    } else {
      assert (a + b)[1..] == a[1..] + b;
      StepsConcat(a[1..], b);
    }
  }

  /** The world a history leads to. */
  function Reached(w: World, moves: seq<Move>): World {
    Run(w, Steps(moves))
  }

  lemma ReachedFirst(w: World, moves: seq<Move>)
    requires moves != []
    ensures Reached(w, moves) == Reached(Moved(w, moves[0]), moves[1..])
  {
    if moves[0].Act? {
      assert ([moves[0].step] + Steps(moves[1..]))[1..] == Steps(moves[1..]);
    } else {
      assert Steps(moves) == Steps(moves[1..]);
    }
  }

  lemma {:induction false} HistoryConcat(w: World, stage: Stage, a: seq<Move>, b: seq<Move>)
    requires Inv(w) && History(w, stage, a) && Inv(Reached(w, a)) && History(Reached(w, a), AfterAll(stage, a), b)
    ensures History(w, stage, a + b) && AfterAll(stage, a + b) == AfterAll(AfterAll(stage, a), b)
    decreases |a|
  {
    if a == [] {
      assert a + b == b;
      assert Steps(a) == [];
    } else {
      MoveKeepsInv(w, a[0]);
      ReachedFirst(w, a);
      assert (a + b)[0] == a[0] && (a + b)[1..] == a[1..] + b;
      HistoryConcat(Moved(w, a[0]), After(stage, a[0]), a[1..], b);
    }
  }

  function Acts(labels: seq<Label>): seq<Move> {
    seq(|labels|, i requires 0 <= i < |labels| => Act(labels[i]))
  }

  lemma {:induction false} PlainIsHistory(w: World, stage: Stage, labels: seq<Label>)
    requires Inv(w) && forall i :: 0 <= i < |labels| ==> Plain(stage, labels[i])
    ensures History(w, stage, Acts(labels)) && AfterAll(stage, Acts(labels)) == stage && Steps(Acts(labels)) == labels
    decreases |labels|
  {
    if labels != [] {
      assert Acts(labels)[1..] == Acts(labels[1..]);
      StepKeepsInv(w, labels[0]);
      PlainIsHistory(Step(w, labels[0]), stage, labels[1..]);
    }
  }

  /** Launching along the rest of the snapshot, to the end of the tick. */
  function LaunchMoves(snapshot: seq<Candidate>, k: nat): seq<Move>
    requires k <= |snapshot|
    decreases |snapshot| - k
  {
    if k == |snapshot| then [TickEnds] else [Act(LLaunch(snapshot[k]))] + LaunchMoves(snapshot, k + 1)
  }

  lemma {:induction false} LaunchingIsHistory(w: World, snapshot: seq<Candidate>, k: nat)
    requires Inv(w) && k <= |snapshot|
    ensures var moves := LaunchMoves(snapshot, k);
            && History(w, Launching(snapshot, k), moves) && AfterAll(Launching(snapshot, k), moves) == Idle
            && Steps(moves) == Launches(snapshot)[k..]
    decreases |snapshot| - k
  {
    var moves := LaunchMoves(snapshot, k);
    if k == |snapshot| {
      assert moves[1..] == [];
    } else {
      assert moves[1..] == LaunchMoves(snapshot, k + 1);
      assert Launches(snapshot)[k..] == [LLaunch(snapshot[k])] + Launches(snapshot)[k + 1..];
      StepKeepsInv(w, moves[0].step);
      LaunchingIsHistory(Step(w, moves[0].step), snapshot, k + 1);
    }
  }

  /** The moves of one tick: reap, begin, forget what is absent, launch along the snapshot, end. */
  function TickMoves(reaps: seq<Label>, drops: seq<Label>, snapshot: seq<Candidate>): seq<Move> {
    Acts(reaps) + ([TickBegins(snapshot)] + (Acts(drops) + ([DropsDone] + LaunchMoves(snapshot, 0))))
  }

  lemma Prepend(w: World, stage: Stage, m: Move, moves: seq<Move>)
    requires Inv(w) && Allowed(w, stage, m) && !m.Act? && History(w, After(stage, m), moves)
    ensures History(w, stage, [m] + moves) && AfterAll(stage, [m] + moves) == AfterAll(After(stage, m), moves)
    ensures Steps([m] + moves) == Steps(moves)
  {
    assert ([m] + moves)[1..] == moves;
  }

  lemma DroppingIsHistory(w: World, drops: seq<Label>, snapshot: seq<Candidate>)
    requires Inv(w) && DropsAbsent(w, drops, snapshot)
    ensures var moves := Acts(drops) + ([DropsDone] + LaunchMoves(snapshot, 0));
            && History(w, Dropping(snapshot), moves) && AfterAll(Dropping(snapshot), moves) == Idle
            && Steps(moves) == drops + Launches(snapshot)
  {
    var rest := [DropsDone] + LaunchMoves(snapshot, 0);
    PlainIsHistory(w, Dropping(snapshot), drops);
    RunKeepsInv(w, drops);
    LaunchingIsHistory(Run(w, drops), snapshot, 0);
    assert Launches(snapshot)[0..] == Launches(snapshot);
    Prepend(Run(w, drops), Dropping(snapshot), DropsDone, LaunchMoves(snapshot, 0));
    HistoryConcat(w, Dropping(snapshot), Acts(drops), rest);
    StepsConcat(Acts(drops), rest);
  }

  lemma BeginningIsHistory(w: World, drops: seq<Label>, snapshot: seq<Candidate>)
    requires Inv(w) && Agreeing(w, snapshot) && DropsAbsent(w, drops, snapshot)
    ensures var moves := [TickBegins(snapshot)] + (Acts(drops) + ([DropsDone] + LaunchMoves(snapshot, 0)));
            && History(w, Idle, moves) && AfterAll(Idle, moves) == Idle
            && Steps(moves) == drops + Launches(snapshot)
  {
    DroppingIsHistory(w, drops, snapshot);
    Prepend(w, Idle, TickBegins(snapshot), Acts(drops) + ([DropsDone] + LaunchMoves(snapshot, 0)));
  }

  lemma ReapingIsHistory(w: World, reaps: seq<Label>, moves: seq<Move>)
    requires Inv(w) && forall i :: 0 <= i < |reaps| ==> reaps[i].LReap?
    requires Inv(Run(w, reaps)) && History(Run(w, reaps), Idle, moves)
    ensures History(w, Idle, Acts(reaps) + moves) && AfterAll(Idle, Acts(reaps) + moves) == AfterAll(Idle, moves)
    ensures Steps(Acts(reaps) + moves) == reaps + Steps(moves)
  {
    PlainIsHistory(w, Idle, reaps);
    HistoryConcat(w, Idle, Acts(reaps), moves);
    StepsConcat(Acts(reaps), moves);
  }

  /** What one discovery tick of the supervisor does, against an agreeing snapshot, is a history. */
  lemma TickIsHistory(w: World, reaps: seq<Label>, drops: seq<Label>, snapshot: seq<Candidate>)
    requires Inv(w) && Agreeing(w, snapshot) && forall i :: 0 <= i < |reaps| ==> reaps[i].LReap?
    requires DropsAbsent(Run(w, reaps), drops, snapshot)
    ensures var moves := TickMoves(reaps, drops, snapshot);
            && History(w, Idle, moves) && AfterAll(Idle, moves) == Idle
            && Steps(moves) == reaps + (drops + Launches(snapshot))
  {
    ReapingInherits(w, reaps);
    AgreeingInherited(w, Run(w, reaps), snapshot);
    BeginningIsHistory(Run(w, reaps), drops, snapshot);
    ReapingIsHistory(w, reaps, [TickBegins(snapshot)] + (Acts(drops) + ([DropsDone] + LaunchMoves(snapshot, 0))));
  }

  lemma AgreeingInherited(w: World, w': World, snapshot: seq<Candidate>)
    requires EntriesTrue(w) && EntriesTrue(w') && EntriesInherited(w, w') && Agreeing(w, snapshot)
    ensures Agreeing(w', snapshot)
  {
  }
}
