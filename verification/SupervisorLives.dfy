/**
 * A supervisor's life from start to shutdown: its own steps, in any order, with
 * threads, handlers and claims acting between them, and the wait at the end.
 */
module SupervisorLives {
  import opened Basics
  import opened EventStreams
  import opened Supervisors
  import opened SupervisorRuns
  import opened SupervisorCode
  import opened SupervisorTicks
  import T = WorkerThreads

  /** The steps taken so far; and, while every snapshot agreed with the entries it retained, the moves. */
  datatype Life = Life(labels: seq<Label>, moves: seq<Move>, agreed: bool)

  const BIRTH := Life([], [], true)

  ghost predicate Lived(start: World, life: Life, now: World)
    requires Inv(start)
  {
    && now == Run(start, life.labels) && Inv(now)
    && (life.agreed ==>
          Steps(life.moves) == life.labels && History(start, Idle, life.moves) && AfterAll(Idle, life.moves) == Idle)
  }

  /** A stretch of life that is a history if it agreed. */
  ghost predicate Stretch(now: World, more: Life)
    requires Inv(now)
  {
    more.agreed ==> Steps(more.moves) == more.labels && History(now, Idle, more.moves) && AfterAll(Idle, more.moves) == Idle
  }

  function Extended(life: Life, more: Life): Life {
    Life(life.labels + more.labels, life.moves + more.moves, life.agreed && more.agreed)
  }

  lemma LivesOn(start: World, life: Life, now: World, more: Life)
    requires Inv(start) && Lived(start, life, now) && Stretch(now, more)
    ensures Lived(start, Extended(life, more), Run(now, more.labels))
  {
    RunConcat(start, life.labels, more.labels);
    RunKeepsInv(now, more.labels);
    if life.agreed && more.agreed {
      HistoryConcat(start, Idle, life.moves, more.moves);
      StepsConcat(life.moves, more.moves);
    }
  }

  /** Steps of threads, or a report handled. */
  lemma PlainStretch(now: World, labels: seq<Label>)
    requires Inv(now) && forall i :: 0 <= i < |labels| ==> Plain(Idle, labels[i])
    ensures Stretch(now, Life(labels, Acts(labels), true))
  {
    PlainIsHistory(now, Idle, labels);
  }

  /** A tick, whatever its snapshot. */
  ghost function TickLife(now: World, reaps: seq<Label>, drops: seq<Label>, snapshot: seq<Candidate>): Life
    requires Inv(now)
  {
    Life(reaps + (drops + Launches(snapshot)), TickMoves(reaps, drops, snapshot), Agreeing(now, snapshot))
  }

  lemma TickStretch(now: World, reaps: seq<Label>, drops: seq<Label>, snapshot: seq<Candidate>)
    requires Inv(now) && forall i :: 0 <= i < |reaps| ==> reaps[i].LReap?
    requires DropsAbsent(Run(now, reaps), drops, snapshot)
    ensures Stretch(now, TickLife(now, reaps, drops, snapshot))
  {
    if Agreeing(now, snapshot) {
      TickIsHistory(now, reaps, drops, snapshot);
    }
  }

  lemma TickLivesOn(start: World, life: Life, now: World, reaps: seq<Label>, drops: seq<Label>, snapshot: seq<Candidate>)
    requires Inv(start) && Lived(start, life, now) && forall i :: 0 <= i < |reaps| ==> reaps[i].LReap?
    requires DropsAbsent(Run(now, reaps), drops, snapshot)
    ensures Lived(start, Extended(life, TickLife(now, reaps, drops, snapshot)), Run(now, reaps + drops + Launches(snapshot)))
  {
    assert reaps + drops + Launches(snapshot) == reaps + (drops + Launches(snapshot));
    TickStretch(now, reaps, drops, snapshot);
    LivesOn(start, life, now, TickLife(now, reaps, drops, snapshot));
  }

  /** Threads, handlers and claims act for a while. */
  method LetThreadsAct(supervisor: Supervisor, ghost start: World, ghost life: Life) returns (ghost longer: Life)
    requires Inv(start) && Lived(start, life, supervisor.State()) && T.Attended(supervisor.State(), supervisor.devices)
    modifies supervisor
    ensures Lived(start, longer, supervisor.State()) && T.Attended(supervisor.State(), supervisor.devices)
  {
    ghost var now := supervisor.State();
    ghost var acts := supervisor.OthersAct(None, now, []);
    PlainStretch(now, acts);
    LivesOn(start, life, now, Life(acts, Acts(acts), true));
    longer := Extended(life, Life(acts, Acts(acts), true));
  }

  /** The discovery timer fires. */
  method Tick(supervisor: Supervisor, snapshot: seq<Candidate>, ghost start: World, ghost life: Life)
    returns (ghost longer: Life)
    requires Inv(start) && Lived(start, life, supervisor.State()) && T.Attended(supervisor.State(), supervisor.devices)
    modifies supervisor
    ensures Lived(start, longer, supervisor.State()) && T.Attended(supervisor.State(), supervisor.devices)
  {
    ghost var now := supervisor.State();
    ghost var tick, reaps, drops := supervisor.DiscoveryTick(snapshot);
    TickLivesOn(start, life, now, reaps, drops, snapshot);
    longer := Extended(life, TickLife(now, reaps, drops, snapshot));
  }

  /** A report arrives. */
  method TakeReport(supervisor: Supervisor, ghost start: World, ghost life: Life) returns (ghost longer: Life)
    requires Inv(start) && Lived(start, life, supervisor.State()) && T.Attended(supervisor.State(), supervisor.devices)
    modifies supervisor
    ensures Lived(start, longer, supervisor.State()) && T.Attended(supervisor.State(), supervisor.devices)
  {
    ghost var now := supervisor.State();
    supervisor.ProcessOneReport();
    ghost var more := Life([LProcess], Acts([LProcess]), true);
    PlainStretch(now, [LProcess]);
    RunOneStep(now, LProcess);
    LivesOn(start, life, now, more);
    longer := Extended(life, more);
  }

  lemma RunOneStep(w: World, l: Label)
    ensures Run(w, [l]) == Step(w, l)
  {
    assert [l][1..] == [];
    assert Run(Step(w, l), []) == Step(w, l);
  }

  /** A supervisor that has just been created. */
  lemma BornAlive()
    ensures Inv(INITIAL) && Lived(INITIAL, BIRTH, INITIAL)
  {
    InitialInv();
    assert Steps([]) == [];
  }

  /** What holds of the event stream and of the threads at any moment of a life. */
  lemma LifeIsGood(life: Life, now: World)
    requires Inv(INITIAL) && Lived(INITIAL, life, now)
    ensures UnfinishedAreOwned(now) && WellFormedStream(now.events)
    ensures life.agreed ==> AlwaysExact(now.events)
  {
    UnfinishedThreadsAreOwned(INITIAL, life.labels);
    if life.agreed {
      TicksKeepRoutingExact(life.moves);
    }
  }

  /**
   * The whole life. Ticks come with any snapshots, reports are handled, and
   * threads, handlers and claims act in between; at the end everybody is told to
   * stop and waited for, and no thread is left running. If every snapshot agreed
   * with the entries it retained, the routing table was exact throughout.
   */
  method RunUntilShutdown() returns (supervisor: Supervisor, panicked: bool, ghost life: Life)
    ensures Inv(INITIAL) && supervisor.events == Run(INITIAL, life.labels).events && WellFormedStream(supervisor.events)
    ensures supervisor.workers == [] && supervisor.launchedWorkers == map[] && supervisor.activeWorkers == map[]
    ensures AllFinished(supervisor.threads)
    ensures life.agreed ==> AlwaysExact(supervisor.events)
  {
    supervisor := new Supervisor();
    life := BIRTH;
    BornAlive();
    var rounds: int := *;
    while rounds > 0
      invariant fresh(supervisor)
      invariant Lived(INITIAL, life, supervisor.State()) && T.Attended(supervisor.State(), supervisor.devices)
    {
      rounds := rounds - 1;
      life := LetThreadsAct(supervisor, INITIAL, life);
      var ticks: bool := *;
      if ticks {
        var snapshot: seq<Candidate> := *;
        life := Tick(supervisor, snapshot, INITIAL, life);
      } else {
        life := TakeReport(supervisor, INITIAL, life);
      }
    }
    LifeIsGood(life, supervisor.State());
    ghost var last;
    panicked, last := supervisor.StopAllWorkers();
  }
}
