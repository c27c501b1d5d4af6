/**
 * The supervisor's worker threads run the device worker: a serving thread is
 * one state of the worker's machine over the queue the supervisor knows, so
 * what is proved of that machine holds of the threads the supervisor waits for.
 */
module WorkerThreads {
  import opened Basics
  import opened EventStreams
  import opened Supervisors
  import C = Commands
  import D = DeviceWorkers
  import P = Panels
  import Q = CommandQueues
  import opened WorkerStop

  /** What each serving worker is doing, apart from its queue. */
  type Devices = map<WorkerId, D.State>

  /** The state of a serving worker: what it is doing, over the queue the supervisor shares with it. */
  function View(w: World, devices: Devices, id: WorkerId): D.State
    requires id in w.channels && id in devices
  {
    devices[id].(channel := w.channels[id])
  }

  /** A queue that has never been polled: once told to stop, it still holds Stop. */
  ghost predicate Unpolled(q: Q.QueueState) {
    Q.Shape(q) && q.receiverAlive && (q.stopping ==> q.queue != [])
  }

  /** Every serving thread is a running worker, and the queue of an opening one is untouched. */
  ghost predicate Attended(w: World, devices: Devices) {
    && w.channels.Keys == w.threads.Keys
    && (forall id :: id in w.threads && w.threads[id].phase.Opening? ==> Unpolled(w.channels[id]))
    && (forall id :: id in w.threads && w.threads[id].phase.Serving? ==> ServedBy(w, devices, id))
    && ExitsTrue(w, devices)
  }

  /**
   * A thread past its loop remembers how its worker ended, and a terminal
   * report says it: clean exits are disconnects, all others failures.
   */
  ghost predicate ExitsTrue(w: World, devices: Devices) {
    && (forall id :: id in devices ==> id in w.threads && !w.threads[id].phase.Opening?)
    && (forall id :: id in devices && w.threads[id].phase.Returned? ==>
          devices[id].phase == D.Exited(w.threads[id].phase.clean))
    && (forall r :: r in w.reports && r.Terminal() ==>
          && r.id in w.threads && w.threads[r.id].phase.Reported?
          && (r.id in devices ==> devices[r.id].phase == D.Exited(r.Disconnected?)))
  }

  ghost predicate ServedBy(w: World, devices: Devices, id: WorkerId)
    requires id in w.channels
  {
    id in devices && D.Inv(View(w, devices, id)) && !devices[id].phase.Exited?
  }

  // ---------------------------------------------------------------- one worker's steps, seen by the supervisor

  predicate Polls(s: D.State) {
    s.phase.Polling? && s.phase.done < D.BATCH && s.channel.queue != []
  }

  /** What one step of a serving worker is to the supervisor: taking a command, or returning from its loop. */
  function Seen(s: D.State, a: D.Answer, id: WorkerId): seq<Label>
    requires P.WellFormed(s.panel)
  {
    var s' := D.WorkStep(s, a);
    if s'.phase.Exited? then [LReturn(id, s'.phase.clean)] else if Polls(s) then [LReceive(id)] else []
  }

  /** The step taken: queue, thread and doings. */
  function Worked(w: World, devices: Devices, id: WorkerId, a: D.Answer): (World, Devices)
    requires id in w.channels && id in w.threads && id in devices && P.WellFormed(devices[id].panel)
  {
    WorkedTo(w, devices, id, D.WorkStep(View(w, devices, id), a))
  }

  function WorkedTo(w: World, devices: Devices, id: WorkerId, s': D.State): (World, Devices)
    requires id in w.channels && id in w.threads
  {
    (w.(channels := w.channels[id := s'.channel],
        threads := if s'.phase.Exited? then w.threads[id := w.threads[id].(phase := Returned(s'.phase.clean))] else w.threads),
     devices[id := s'])
  }

  /** What a worker step does to its queue: the head is taken when it polls, the receiver dropped when it leaves. */
  lemma QueueAfterWork(s: D.State, a: D.Answer)
    requires D.Inv(s) && !s.phase.Exited?
    ensures var s' := D.WorkStep(s, a);
            s'.channel == if s'.phase.Exited? then s.channel.(receiverAlive := false)
                          else if Polls(s) then s.channel.(queue := s.channel.queue[1..]) else s.channel
  {
    if s.phase.Permitted? {
      D.ExecuteKeepsQueue(if a.now < s.clock then s else s.(clock := a.now), a);
    }
  }

  /** Returning from the loop, taking a command and doing neither, as steps of the supervisor's machine. */
  lemma SeenSteps(w: World, id: WorkerId, clean: bool)
    requires id in w.threads && w.threads[id].phase.Serving? && id in w.channels
    ensures Run(w, [LReturn(id, clean)]) ==
            w.(channels := w.channels[id := w.channels[id].(receiverAlive := false)],
               threads := w.threads[id := w.threads[id].(phase := Returned(clean))])
    ensures w.channels[id].queue != [] ==>
              Run(w, [LReceive(id)]) ==
              w.(channels := w.channels[id := w.channels[id].(queue := w.channels[id].queue[1..])])
    ensures Run(w, []) == w.(channels := w.channels[id := w.channels[id]])
  {
    assert w.channels[id := w.channels[id]] == w.channels;
    assert [LReturn(id, clean)][1..] == [] && [LReceive(id)][1..] == [];
    assert Run(w, [LReturn(id, clean)]) == Step(w, LReturn(id, clean));
    assert Run(w, [LReceive(id)]) == Step(w, LReceive(id));
  }

  lemma WorkIsSeen(w: World, devices: Devices, id: WorkerId, a: D.Answer)
    requires Attended(w, devices) && id in w.threads && w.threads[id].phase.Serving?
    ensures var (w', devices') := Worked(w, devices, id, a);
            w' == Run(w, Seen(View(w, devices, id), a, id))
  {
    assert ServedBy(w, devices, id);
    var s := View(w, devices, id);
    QueueAfterWork(s, a);
    var s' := D.WorkStep(s, a);
    SeenSteps(w, id, s'.phase.Exited? && s'.phase.clean);
  }

  lemma WorkAttends(w: World, devices: Devices, id: WorkerId, a: D.Answer)
    requires Attended(w, devices) && id in w.threads && w.threads[id].phase.Serving?
    ensures var (w', devices') := Worked(w, devices, id, a); Attended(w', devices')
  {
    var s := View(w, devices, id);
    D.WorkKeepsInv(s, a);
    var (w', devices') := Worked(w, devices, id, a);
    forall i | i in w'.threads && w'.threads[i].phase.Serving? ensures ServedBy(w', devices', i) {
      assert ServedBy(w, devices, i);
      assert i == id ==> View(w', devices', i) == D.WorkStep(s, a);
      assert i != id ==> View(w', devices', i) == View(w, devices, i);
    }
  }

  // ---------------------------------------------------------------- everyone else's steps

  /** Threads stay as they are or finish, and queues change by sends alone. */
  ghost predicate OnlySent(w: World, w': World)
    requires w.channels.Keys == w.threads.Keys
  {
    && w'.threads.Keys == w.threads.Keys && w'.channels.Keys == w.channels.Keys
    && (forall id :: id in w.threads && Live(w', id) ==>
          && w'.threads[id].phase == w.threads[id].phase
          && (w'.channels[id] == w.channels[id] || exists c :: w'.channels[id] == Q.Send(w.channels[id], c)))
    && EndsTruly(w, w')
  }

  /** No thread comes back, only an opening one returns by itself, and a new terminal report is that of its thread. */
  ghost predicate EndsTruly(w: World, w': World)
    requires w'.threads.Keys == w.threads.Keys
  {
    && (forall id :: id in w.threads && w'.threads[id].phase.Opening? ==> w.threads[id].phase.Opening?)
    && (forall id :: id in w.threads && w'.threads[id].phase.Returned? ==>
          w'.threads[id].phase == w.threads[id].phase || w.threads[id].phase.Opening?)
    && (forall id :: id in w.threads && w.threads[id].phase.Reported? ==> w'.threads[id].phase.Reported?)
    && (forall r :: r in w'.reports && r.Terminal() ==>
          r in w.reports
          || (r.id in w.threads && w.threads[r.id].phase == Returned(r.Disconnected?) && w'.threads[r.id].phase.Reported?))
  }

  lemma EndsTrulyFits(w: World, w': World, devices: Devices)
    requires w'.threads.Keys == w.threads.Keys && ExitsTrue(w, devices) && EndsTruly(w, w')
    ensures ExitsTrue(w', devices)
  {
  }

  lemma SendKeepsUnpolled(q: Q.QueueState, c: C.Command)
    requires Unpolled(q)
    ensures Unpolled(Q.Send(q, c))
  {
    Q.SendKeepsShape(q, c);
  }

  lemma SentAttends(w: World, w': World, devices: Devices)
    requires Attended(w, devices) && OnlySent(w, w')
    ensures Attended(w', devices)
  {
    EndsTrulyFits(w, w', devices);
    forall id | id in w'.threads && w'.threads[id].phase.Opening? ensures Unpolled(w'.channels[id]) {
      assert Live(w', id);
      if w'.channels[id] != w.channels[id] {
        var c :| w'.channels[id] == Q.Send(w.channels[id], c);
        SendKeepsUnpolled(w.channels[id], c);
      }
    }
    forall id | id in w'.threads && w'.threads[id].phase.Serving? ensures ServedBy(w', devices, id) {
      assert Live(w', id) && ServedBy(w, devices, id);
      if w'.channels[id] == w.channels[id] {
        assert View(w', devices, id) == View(w, devices, id);
      } else {
        var c :| w'.channels[id] == Q.Send(w.channels[id], c);
        D.StepKeepsInv(View(w, devices, id), D.Submit(c));
        assert View(w', devices, id) == D.Step(View(w, devices, id), D.Submit(c));
      }
    }
  }

  lemma SendToOnlySends(w: World, queue: WorkerId, c: C.Command)
    requires w.channels.Keys == w.threads.Keys
    ensures OnlySent(w, SendTo(w, queue, c))
  {
  }

  /** A step of the supervisor, a handler, or a thread that ends otherwise. */
  predicate Bystanding(l: Label) {
    !l.LLaunch? && !l.LConnect? && !l.LReceive?
  }

  lemma HandleOnlySends(w: World, r: Report)
    requires w.channels.Keys == w.threads.Keys
    ensures OnlySent(w, Handle(w, r))
  {
    if r.Connected? {
      SendToOnlySends(w, r.queue, C.Stop);
    }
  }

  lemma HandleAttends(w: World, devices: Devices, r: Report)
    ensures Attended(w, devices) ==> Attended(Handle(w, r), devices)
  {
    if Attended(w, devices) {
      HandleOnlySends(w, r);
      SentAttends(w, Handle(w, r), devices);
    }
  }

  lemma DropActiveOnlySends(w: World, path: Path)
    requires w.channels.Keys == w.threads.Keys
    ensures OnlySent(w, DropActive(w, path))
  {
    if path in w.active {
      SendToOnlySends(w, w.active[path].queue, C.Stop);
    }
  }

  lemma DropLaunchedOnlySends(w: World, path: Path)
    requires w.channels.Keys == w.threads.Keys
    ensures OnlySent(w, DropLaunched(w, path))
  {
    if path in w.launched {
      SendToOnlySends(w, w.launched[path].queue, C.Stop);
    }
  }

  lemma EndsOnlySend(w: World, id: WorkerId, phase: ThreadPhase)
    requires w.channels.Keys == w.threads.Keys && Live(w, id)
    requires phase.Panicked? || (phase.Returned? && w.threads[id].phase.Opening?)
    ensures OnlySent(w, DropReceiver(SetPhase(w, id, phase), id))
  {
  }

  lemma ReportsOnlySend(w: World, id: WorkerId)
    requires w.channels.Keys == w.threads.Keys
    ensures OnlySent(w, ThreadReport(w, id))
  {
  }

  lemma InputsOnlySend(w: World, id: WorkerId, body: Body)
    requires w.channels.Keys == w.threads.Keys
    ensures OnlySent(w, ThreadInput(w, id, body))
  {
  }

  /** A serving thread returns from its loop when its worker does, and not otherwise. */
  predicate ReturnsItself(w: World, l: Label) {
    l.LReturn? && l.id in w.threads && w.threads[l.id].phase.Serving?
  }

  lemma ProcessOnlySends(w: World)
    requires w.channels.Keys == w.threads.Keys
    ensures OnlySent(w, Process(w))
  {
    if w.reports != [] {
      HandleOnlySends(w.(reports := w.reports[1..]), w.reports[0]);
    }
  }

  lemma ReapOnlySends(w: World, i: nat)
    requires w.channels.Keys == w.threads.Keys
    ensures OnlySent(w, Reap(w, i))
  {
    if Reapable(w, i) {
      HandleOnlySends(w.(workers := SwapRemove(w.workers, i)), Failed(w.workers[i].id, w.workers[i].path));
    }
  }

  lemma BystandersOnlySend(w: World, l: Label)
    requires w.channels.Keys == w.threads.Keys && Bystanding(l) && !ReturnsItself(w, l)
    ensures OnlySent(w, Step(w, l))
  {
    match l {
      case LProcess => ProcessOnlySends(w);
      case LReap(i) => ReapOnlySends(w, i);
      case LDropActive(path) => DropActiveOnlySends(w, path);
      case LDropLaunched(path) => DropLaunchedOnlySends(w, path);
      case LInput(id, body) => InputsOnlySend(w, id, body);
      case LReport(id) => ReportsOnlySend(w, id);
      case LReturn(id, clean) =>
        if Live(w, id) {
          EndsOnlySend(w, id, Returned(clean));
        }
      case LPanic(id) =>
        if Live(w, id) {
          EndsOnlySend(w, id, Panicked);
        }
      case LSubmit(queue, c) => SendToOnlySends(w, queue, c);
      case _ =>
    }
  }

  lemma LaunchAttends(w: World, devices: Devices, c: Candidate)
    requires Numbered(w) && Attended(w, devices)
    ensures Attended(Launch(w, c), devices)
  {
    var w' := Launch(w, c);
    forall id | id in w'.threads && w'.threads[id].phase.Serving? ensures ServedBy(w', devices, id) {
      assert ServedBy(w, devices, id) && View(w', devices, id) == View(w, devices, id);
    }
  }

  /** A worker that has just connected starts its loop on the queue it was given. */
  ghost predicate Starts(w: World, id: WorkerId, device: D.State)
    requires id in w.channels
  {
    D.Initial(device.(channel := w.channels[id]))
  }

  lemma ConnectExitsTrue(w: World, devices: Devices, id: WorkerId, device: D.State)
    requires ExitsTrue(w, devices) && id in w.threads && w.threads[id].phase.Opening?
    ensures ExitsTrue(ThreadConnect(w, id), devices[id := device])
  {
  }

  lemma ConnectAttends(w: World, devices: Devices, id: WorkerId, device: D.State)
    requires Attended(w, devices) && id in w.threads && w.threads[id].phase.Opening? && Starts(w, id, device)
    ensures Attended(ThreadConnect(w, id), devices[id := device])
  {
    var w', devices' := ThreadConnect(w, id), devices[id := device];
    ConnectExitsTrue(w, devices, id, device);
    D.InitialInv(device.(channel := w.channels[id]));
    forall i | i in w'.threads && w'.threads[i].phase.Serving? ensures ServedBy(w', devices', i) {
      assert i != id ==> ServedBy(w, devices, i) && View(w', devices', i) == View(w, devices, i);
    }
  }

  // ---------------------------------------------------------------- every joint run

  datatype JointLabel =
    | Stands(step: Label)
    | Launches(candidate: Candidate)
    | Connects(id: WorkerId, device: D.State)
    | Works(id: WorkerId, answer: D.Answer)
    | Revokes(id: WorkerId, context: C.Context)

  ghost predicate Enabled(w: World, devices: Devices, l: JointLabel)
    requires Attended(w, devices)
  {
    match l
    case Stands(step) => Bystanding(step) && !ReturnsItself(w, step)
    case Launches(_) => true
    case Connects(id, device) => id in w.threads && w.threads[id].phase.Opening? && Starts(w, id, device)
    case Works(id, _) => id in w.threads && w.threads[id].phase.Serving?
    case Revokes(id, _) => id in w.threads && w.threads[id].phase.Serving?
  }

  ghost function Jointly(w: World, devices: Devices, l: JointLabel): (World, Devices)
    requires Attended(w, devices) && Enabled(w, devices, l)
  {
    match l
    case Stands(step) => (Step(w, step), devices)
    case Launches(candidate) => (Launch(w, candidate), devices)
    case Connects(id, device) => (ThreadConnect(w, id), devices[id := device])
    case Works(id, a) => assert ServedBy(w, devices, id); Worked(w, devices, id, a)
    case Revokes(id, context) =>
      assert ServedBy(w, devices, id);
      (w, devices[id := D.Step(View(w, devices, id), D.Revoke(context))])
  }

  lemma RevokeAttends(w: World, devices: Devices, id: WorkerId, context: C.Context)
    requires Attended(w, devices) && id in w.threads && w.threads[id].phase.Serving? && ServedBy(w, devices, id)
    ensures Attended(w, devices[id := D.Step(View(w, devices, id), D.Revoke(context))])
  {
    var s := View(w, devices, id);
    var devices' := devices[id := D.Step(s, D.Revoke(context))];
    D.StepKeepsInv(s, D.Revoke(context));
    forall i | i in w.threads && w.threads[i].phase.Serving? ensures ServedBy(w, devices', i) {
      assert ServedBy(w, devices, i);
      assert i == id ==> View(w, devices', i) == D.Step(s, D.Revoke(context));
    }
  }

  /** Every joint step of supervisor, handlers and workers keeps each serving thread a running worker. */
  lemma JointKeepsAttended(w: World, devices: Devices, l: JointLabel)
    requires Numbered(w) && Attended(w, devices) && Enabled(w, devices, l)
    ensures var (w', devices') := Jointly(w, devices, l); Attended(w', devices')
  {
    match l {
      case Stands(step) =>
        BystandersOnlySend(w, step);
        SentAttends(w, Step(w, step), devices);
      case Launches(candidate) => LaunchAttends(w, devices, candidate);
      case Connects(id, device) => ConnectAttends(w, devices, id, device);
      case Works(id, a) => WorkAttends(w, devices, id, a);
      case Revokes(id, context) => RevokeAttends(w, devices, id, context);
    }
  }

  lemma InitiallyAttended()
    ensures Attended(INITIAL, map[])
  {
  }

  // ---------------------------------------------------------------- how long a stopped thread runs

  /** A live worker that has been told to stop has the latch set. */
  lemma HaltedLiveIsStopping(w: World, devices: Devices, id: WorkerId)
    requires Attended(w, devices) && id in w.threads && Halted(w, id)
    ensures Live(w, id) ==> w.channels[id].stopping
  {
    if Live(w, id) && w.threads[id].phase.Serving? {
      assert ServedBy(w, devices, id);
    }
  }

  /** An upper bound on a thread's own steps once its worker has been told to stop. */
  function Remaining(w: World, devices: Devices, id: WorkerId): nat
    requires id in w.threads
  {
    match w.threads[id].phase
    case Opening => STEPS_TO_EXIT + 3
    case Serving => 2 + if id in devices then StepsToExit(devices[id].phase) else 0
    case Returned(_) => 1
    case _ => 0
  }

  /** What a step of thread `id` keeps, for itself and for the others. */
  ghost predicate OthersKept(w: World, devices: Devices, w': World, devices': Devices, id: WorkerId) {
    Attended(w', devices') && WaitsKept(w, devices, w', devices', id)
  }

  /** Nothing that matters to waiting for another thread changes. */
  ghost predicate WaitsKept(w: World, devices: Devices, w': World, devices': Devices, id: WorkerId) {
    && w'.threads.Keys == w.threads.Keys && w'.channels.Keys == w.channels.Keys
    && (forall t :: t in w.threads && t != id ==> Remaining(w', devices', t) == Remaining(w, devices, t))
    && (forall t :: t in w.threads && Finished(w.threads[t]) ==> w'.threads[t] == w.threads[t])
    && (forall q :: Halted(w, q) ==> Halted(w', q))
  }

  /** The step brings the thread nearer to its end. */
  ghost predicate Nearer(w: World, devices: Devices, w': World, devices': Devices, id: WorkerId) {
    id in w.threads && id in w'.threads && Remaining(w', devices', id) < Remaining(w, devices, id)
  }

  /** A live thread gives up: it panics, or its device cannot be opened. */
  lemma EndIsNearer(w: World, devices: Devices, id: WorkerId, phase: ThreadPhase)
    requires Attended(w, devices) && Live(w, id)
    requires phase.Panicked? || (phase.Returned? && w.threads[id].phase.Opening?)
    ensures var w' := DropReceiver(SetPhase(w, id, phase), id);
            OthersKept(w, devices, w', devices, id) && Nearer(w, devices, w', devices, id)
  {
    EndsOnlySend(w, id, phase);
    SentAttends(w, DropReceiver(SetPhase(w, id, phase), id), devices);
    EndKeepsWaits(w, devices, id, phase);
  }

  lemma EndKeepsWaits(w: World, devices: Devices, id: WorkerId, phase: ThreadPhase)
    requires w.channels.Keys == w.threads.Keys && Live(w, id)
    requires phase.Panicked? || (phase.Returned? && w.threads[id].phase.Opening?)
    ensures var w' := DropReceiver(SetPhase(w, id, phase), id);
            WaitsKept(w, devices, w', devices, id) && Nearer(w, devices, w', devices, id)
  {
  }

  lemma ConnectIsNearer(w: World, devices: Devices, id: WorkerId, device: D.State)
    requires Attended(w, devices) && id in w.threads && w.threads[id].phase.Opening?
    requires Starts(w, id, device) && device.phase == D.Polling(0)
    ensures var w', devices' := ThreadConnect(w, id), devices[id := device];
            OthersKept(w, devices, w', devices', id) && Nearer(w, devices, w', devices', id)
  {
    ConnectAttends(w, devices, id, device);
  }

  lemma ReportIsNearer(w: World, devices: Devices, id: WorkerId)
    requires Attended(w, devices) && id in w.threads && w.threads[id].phase.Returned?
    ensures var w' := ThreadReport(w, id); OthersKept(w, devices, w', devices, id) && Nearer(w, devices, w', devices, id)
  {
    ReportsOnlySend(w, id);
    SentAttends(w, ThreadReport(w, id), devices);
    ReportKeepsWaits(w, devices, id);
  }

  lemma ReportKeepsWaits(w: World, devices: Devices, id: WorkerId)
    requires id in w.threads && w.threads[id].phase.Returned?
    ensures var w' := ThreadReport(w, id); WaitsKept(w, devices, w', devices, id) && Nearer(w, devices, w', devices, id)
  {
  }

  /** A worker step keeps the others as they are, and brings a stopped worker's thread nearer to its end. */
  lemma WorkIsNearer(w: World, devices: Devices, id: WorkerId, a: D.Answer)
    requires Attended(w, devices) && id in w.threads && w.threads[id].phase.Serving?
    ensures var (w', devices') := Worked(w, devices, id, a);
            && OthersKept(w, devices, w', devices', id)
            && (w.channels[id].stopping ==> Nearer(w, devices, w', devices', id))
  {
    WorkKeepsOthers(w, devices, id, a);
    if w.channels[id].stopping {
      StoppedIsNearer(w, devices, id, a);
    }
  }

  lemma WorkKeepsOthers(w: World, devices: Devices, id: WorkerId, a: D.Answer)
    requires Attended(w, devices) && id in w.threads && w.threads[id].phase.Serving?
    ensures var (w', devices') := Worked(w, devices, id, a); OthersKept(w, devices, w', devices', id)
  {
    assert ServedBy(w, devices, id);
    WorkAttends(w, devices, id, a);
    QueueAfterWork(View(w, devices, id), a);
    WorkKeepsWaits(w, devices, id, D.WorkStep(View(w, devices, id), a));
  }

  lemma WorkKeepsWaits(w: World, devices: Devices, id: WorkerId, s': D.State)
    requires id in w.channels && id in w.threads && w.threads[id].phase.Serving? && id in devices
    requires s'.channel.stopping == w.channels[id].stopping
    requires s'.channel.receiverAlive ==> w.channels[id].receiverAlive
    ensures var (w', devices') := WorkedTo(w, devices, id, s'); WaitsKept(w, devices, w', devices', id)
  {
  }

  lemma StoppedIsNearer(w: World, devices: Devices, id: WorkerId, a: D.Answer)
    requires Attended(w, devices) && id in w.threads && w.threads[id].phase.Serving? && w.channels[id].stopping
    ensures var (w', devices') := Worked(w, devices, id, a); Nearer(w, devices, w', devices', id)
  {
    assert ServedBy(w, devices, id);
    WorkAttends(w, devices, id, a);
    QueueAfterWork(View(w, devices, id), a);
    WorkTowardsExit(View(w, devices, id), a);
  }

  /** What a send, an input or an ended claim keeps: everything that matters to a wait. */
  ghost predicate AllKept(w: World, devices: Devices, w': World, devices': Devices) {
    && w'.threads.Keys == w.threads.Keys && w'.channels.Keys == w.channels.Keys
    && Attended(w', devices')
    && (forall t :: t in w.threads ==> Remaining(w', devices', t) == Remaining(w, devices, t) && w'.threads[t] == w.threads[t])
    && (forall q :: Halted(w, q) ==> Halted(w', q))
  }

  lemma SendKeepsAll(w: World, devices: Devices, queue: WorkerId, c: C.Command)
    requires Attended(w, devices)
    ensures AllKept(w, devices, SendTo(w, queue, c), devices)
  {
    SendToOnlySends(w, queue, c);
    SentAttends(w, SendTo(w, queue, c), devices);
  }

  lemma InputKeepsAll(w: World, devices: Devices, id: WorkerId, body: Body)
    requires Attended(w, devices)
    ensures AllKept(w, devices, ThreadInput(w, id, body), devices)
  {
    InputsOnlySend(w, id, body);
    SentAttends(w, ThreadInput(w, id, body), devices);
  }

  lemma RevokeKeepsAll(w: World, devices: Devices, id: WorkerId, context: C.Context)
    requires Attended(w, devices) && id in w.threads && w.threads[id].phase.Serving? && ServedBy(w, devices, id)
    ensures AllKept(w, devices, w, devices[id := D.Step(View(w, devices, id), D.Revoke(context))])
  {
    RevokeAttends(w, devices, id, context);
  }

  // ---------------------------------------------------------------- whole joint runs

  /** What a joint step is to the supervisor's machine. */
  ghost function Projected(w: World, devices: Devices, l: JointLabel): seq<Label>
    requires Attended(w, devices) && Enabled(w, devices, l)
  {
    match l
    case Stands(step) => [step]
    case Launches(candidate) => [LLaunch(candidate)]
    case Connects(id, _) => [LConnect(id)]
    case Works(id, a) => assert ServedBy(w, devices, id); Seen(View(w, devices, id), a, id)
    case Revokes(_, _) => []
  }

  lemma JointStepIsRun(w: World, devices: Devices, l: JointLabel)
    requires Inv(w) && Attended(w, devices) && Enabled(w, devices, l)
    ensures var (w', devices') := Jointly(w, devices, l);
            w' == Run(w, Projected(w, devices, l)) && Inv(w') && Attended(w', devices')
  {
    JointKeepsAttended(w, devices, l);
    ProjectedIsRun(w, devices, l);
    RunKeepsInv(w, Projected(w, devices, l));
  }

  lemma ProjectedIsRun(w: World, devices: Devices, l: JointLabel)
    requires Attended(w, devices) && Enabled(w, devices, l)
    ensures Jointly(w, devices, l).0 == Run(w, Projected(w, devices, l))
  {
    match l {
      case Stands(step) => SingleStep(w, step);
      case Launches(candidate) => SingleStep(w, LLaunch(candidate));
      case Connects(id, _) => SingleStep(w, LConnect(id));
      case Works(id, a) => WorkIsSeen(w, devices, id, a);
      case Revokes(_, _) =>
    }
  }

  lemma SingleStep(w: World, step: Label)
    ensures Run(w, [step]) == Step(w, step)
  {
    assert [step][1..] == [];
    assert Run(Step(w, step), []) == Step(w, step);
  }

  /** Every step of the joint run is possible when it is taken. */
  ghost predicate Possible(w: World, devices: Devices, labels: seq<JointLabel>)
    requires Inv(w) && Attended(w, devices)
    decreases |labels|
  {
    labels == [] ||
    (&& Enabled(w, devices, labels[0])
     && (JointStepIsRun(w, devices, labels[0]);
         var (w', devices') := Jointly(w, devices, labels[0]);
         Possible(w', devices', labels[1..])))
  }

  /** Where a joint run ends. */
  ghost function JointRun(w: World, devices: Devices, labels: seq<JointLabel>): (World, Devices)
    requires Inv(w) && Attended(w, devices) && Possible(w, devices, labels)
    decreases |labels|
  {
    if labels == [] then (w, devices)
    else
      JointStepIsRun(w, devices, labels[0]);
      var (w', devices') := Jointly(w, devices, labels[0]);
      JointRun(w', devices', labels[1..])
  }

  /** A joint run, seen by the supervisor. */
  ghost function Projection(w: World, devices: Devices, labels: seq<JointLabel>): seq<Label>
    requires Inv(w) && Attended(w, devices) && Possible(w, devices, labels)
    decreases |labels|
  {
    if labels == [] then []
    else
      JointStepIsRun(w, devices, labels[0]);
      var (w', devices') := Jointly(w, devices, labels[0]);
      Projected(w, devices, labels[0]) + Projection(w', devices', labels[1..])
  }

  /**
   * Every joint run of supervisor, handlers and workers is a run of the
   * supervisor's machine in which each serving thread is a running worker.
   */
  lemma {:induction false} JointRunsAreRuns(w: World, devices: Devices, labels: seq<JointLabel>)
    requires Inv(w) && Attended(w, devices) && Possible(w, devices, labels)
    ensures var (w', devices') := JointRun(w, devices, labels);
            w' == Run(w, Projection(w, devices, labels)) && Inv(w') && Attended(w', devices')
    decreases |labels|
  {
    if labels != [] {
      JointStepIsRun(w, devices, labels[0]);
      var (w1, devices1) := Jointly(w, devices, labels[0]);
      JointRunsAreRuns(w1, devices1, labels[1..]);
      RunConcat(w, Projected(w, devices, labels[0]), Projection(w1, devices1, labels[1..]));
    }
  }

  /** From the start, whatever happens, serving threads are running workers. */
  lemma JointRunsStayAttended(labels: seq<JointLabel>)
    requires Inv(INITIAL) && Attended(INITIAL, map[]) && Possible(INITIAL, map[], labels)
    ensures var (w, devices) := JointRun(INITIAL, map[], labels); Inv(w) && Attended(w, devices)
    ensures JointRun(INITIAL, map[], labels).0 == Run(INITIAL, Projection(INITIAL, map[], labels))
  {
    JointRunsAreRuns(INITIAL, map[], labels);
  }

  // ---------------------------------------------------------------- what reports say

  /** A serving thread's input joins the FIFO under its own id, path and device, as it was made. */
  lemma InputsAreReported(w: World, id: WorkerId, body: Body)
    requires id in w.threads && w.threads[id].phase.Serving?
    ensures var w' := Step(w, LInput(id, body));
            w'.reports == w.reports + [Input(id, w.threads[id].path, w.threads[id].device, body)] && w'.events == w.events
  {
  }

  /** What a thread reports when it has returned: a disconnect for a clean exit, a failure for any other. */
  lemma ReportSaysHowItEnded(w: World, id: WorkerId)
    requires id in w.threads && w.threads[id].phase.Returned?
    ensures var w' := Step(w, LReport(id));
            && |w'.reports| == |w.reports| + 1 && w'.reports[..|w.reports|] == w.reports
            && w'.reports[|w.reports|].Terminal() && w'.reports[|w.reports|].id == id
            && (w'.reports[|w.reports|].Disconnected? <==> w.threads[id].phase.clean)
  {
  }

  /**
   * Over every joint run, a worker's terminal report in the FIFO tells how its
   * loop ended: a disconnect exactly if it left through a completed reset.
   */
  lemma TerminalReportsAreTrue(labels: seq<JointLabel>, k: nat)
    requires Inv(INITIAL) && Attended(INITIAL, map[]) && Possible(INITIAL, map[], labels)
    requires k < |JointRun(INITIAL, map[], labels).0.reports|
    ensures var (w, devices) := JointRun(INITIAL, map[], labels);
            var r := w.reports[k];
            r.Terminal() && r.id in devices ==>
              && (r.Disconnected? <==> devices[r.id].phase == D.Exited(true))
              && (r.Failed? <==> devices[r.id].phase == D.Exited(false))
  {
    JointRunsStayAttended(labels);
    var (w, devices) := JointRun(INITIAL, map[], labels);
    assert w.reports[k] in w.reports;
  }

  /** The path of a current worker closes, and a failure is announced exactly if the worker did not leave through a completed reset. */
  ghost predicate Announces(w: World, devices: Devices, w': World, r: Report) {
    r.Terminal() && r.id in devices && Current(w, r.id, r.path) ==>
      && r.path !in w'.active && r.path !in w'.launched
      && w'.events == w.events
                      + (if r.path in w.active then [DeviceDisconnected(r.path, w.active[r.path].device)] else [])
                      + (if devices[r.id].phase == D.Exited(true) then [] else [WorkerFailed(r.path)])
  }

  lemma HeadAnnounces(w: World, devices: Devices)
    requires EntriesTrue(w) && ReportsTrue(w) && ExitsTrue(w, devices) && w.reports != []
    ensures Announces(w, devices, Step(w, LProcess), w.reports[0])
  {
    assert ReportTrue(w, w.reports[0]);
    assert w.reports[0] in w.reports;
  }

  /** Over every joint run, the terminal report of a current worker that has served is handled as its worker ended. */
  lemma ExitsAreAnnounced(labels: seq<JointLabel>)
    requires Inv(INITIAL) && Attended(INITIAL, map[]) && Possible(INITIAL, map[], labels)
    requires JointRun(INITIAL, map[], labels).0.reports != []
    ensures var (w, devices) := JointRun(INITIAL, map[], labels);
            Announces(w, devices, Step(w, LProcess), w.reports[0])
  {
    JointRunsStayAttended(labels);
    var (w, devices) := JointRun(INITIAL, map[], labels);
    HeadAnnounces(w, devices);
  }

  /** Joining a current worker that has panicked closes its path and announces the failure it could not report. */
  lemma PanicsAreAnnounced(w: World, i: nat)
    requires Inv(w) && Reapable(w, i) && w.threads[w.workers[i].id].phase.Panicked?
    requires Current(w, w.workers[i].id, w.workers[i].path)
    ensures var path, w' := w.workers[i].path, Step(w, LReap(i));
            && path !in w'.active && path !in w'.launched
            && w'.events == w.events
                            + (if path in w.active then [DeviceDisconnected(path, w.active[path].device)] else [])
                            + [WorkerFailed(path)]
  {
  }

  /** The supervisor's own steps leave the workers attended. */
  lemma {:induction false} OwnStepsAttend(w: World, devices: Devices, labels: seq<Label>)
    requires Inv(w) && Attended(w, devices)
    requires forall i :: 0 <= i < |labels| ==> labels[i].LLaunch? || (Bystanding(labels[i]) && !labels[i].LReturn?)
    ensures Attended(Run(w, labels), devices)
    decreases |labels|
  {
    if labels != [] {
      StepKeepsInv(w, labels[0]);
      if labels[0].LLaunch? {
        LaunchAttends(w, devices, labels[0].candidate);
      } else {
        BystandersOnlySend(w, labels[0]);
        SentAttends(w, Step(w, labels[0]), devices);
      }
      OwnStepsAttend(Step(w, labels[0]), devices, labels[1..]);
    }
  }
}
