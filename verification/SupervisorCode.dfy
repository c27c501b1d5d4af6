/**
 * The supervisor's own code. Every method is a run of the supervisor's state
 * machine, returned as ghost labels, so all that holds over runs holds for it.
 */
module SupervisorCode {
  import opened Basics
  import opened EventStreams
  import opened Supervisors
  import opened SupervisorRuns
  import C = Commands
  import D = DeviceWorkers
  import F = FrameWatchdogs
  import P = Panels
  import Q = CommandQueues
  import T = WorkerThreads

  ghost predicate Present(snapshot: seq<Candidate>, path: Path) {
    exists i :: 0 <= i < |snapshot| && snapshot[i].path == path
  }

  /**
   * A snapshot with one candidate per path and distinct hardware ids, which
   * agrees with the entry at any path it retains.
   */
  ghost predicate Agreeing(w: World, snapshot: seq<Candidate>)
    requires EntriesTrue(w)
  {
    && Distinct(snapshot)
    && (forall i :: 0 <= i < |snapshot| && HasEntry(w, snapshot[i].path) ==>
          EntryDevice(w, snapshot[i].path) == snapshot[i].device)
  }

  /** Every entry is that of a candidate of the snapshot. */
  ghost predicate Covered(w: World, snapshot: seq<Candidate>)
    requires EntriesTrue(w)
  {
    forall p :: HasEntry(w, p) ==>
      exists i :: 0 <= i < |snapshot| && snapshot[i].path == p && snapshot[i].device == EntryDevice(w, p)
  }

  lemma {:induction false} FreshWithoutLaunch(w: World, labels: seq<Label>)
    requires Inv(w) && forall i :: 0 <= i < |labels| ==> !labels[i].LLaunch?
    ensures FreshRun(w, labels)
    decreases |labels|
  {
    if labels != [] {
      StepKeepsInv(w, labels[0]);
      FreshWithoutLaunch(Step(w, labels[0]), labels[1..]);
    }
  }

  lemma {:induction false} FreshConcat(w: World, a: seq<Label>, b: seq<Label>)
    requires Inv(w) && FreshRun(w, a) && Inv(Run(w, a)) && FreshRun(Run(w, a), b)
    ensures FreshRun(w, a + b)
    decreases |a|
  {
    if a == [] {
      assert a + b == b;
    } else {
      StepKeepsInv(w, a[0]);
      FreshConcat(Step(w, a[0]), a[1..], b);
      assert (a + b)[0] == a[0] && (a + b)[1..] == a[1..] + b;
    }
  }

  ghost predicate Distinct(snapshot: seq<Candidate>) {
    forall i, j :: 0 <= i < j < |snapshot| ==>
      snapshot[i].path != snapshot[j].path && snapshot[i].device != snapshot[j].device
  }

  /** A candidate whose path has no entry is for a device no entry stands for. */
  lemma UnmanagedIsFresh(w: World, snapshot: seq<Candidate>, k: nat)
    requires EntriesTrue(w) && Distinct(snapshot) && Covered(w, snapshot) && k < |snapshot|
    requires !Managed(w, snapshot[k].path)
    ensures FreshDevice(w, snapshot[k])
  {
    forall p | HasEntry(w, p) ensures EntryDevice(w, p) != snapshot[k].device {
      var i :| 0 <= i < |snapshot| && snapshot[i].path == p && snapshot[i].device == EntryDevice(w, p);
      assert i != k;
    }
  }

  lemma LaunchKeepsCovered(w: World, snapshot: seq<Candidate>, k: nat)
    requires Inv(w) && Covered(w, snapshot) && k < |snapshot| && !Managed(w, snapshot[k].path)
    requires EntriesTrue(Launch(w, snapshot[k]))
    ensures Covered(Launch(w, snapshot[k]), snapshot)
  {
    var w' := Launch(w, snapshot[k]);
    forall p | HasEntry(w', p)
      ensures exists i :: 0 <= i < |snapshot| && snapshot[i].path == p && snapshot[i].device == EntryDevice(w', p)
    {
      if p == snapshot[k].path {
        assert snapshot[k].device == EntryDevice(w', p);
      } else {
        assert HasEntry(w, p) && EntryDevice(w', p) == EntryDevice(w, p);
      }
    }
  }

  lemma LaunchKeepsManaged(w: World, c: Candidate)
    ensures forall p :: Managed(w, p) ==> Managed(Launch(w, c), p)
    ensures Managed(Launch(w, c), c.path)
  {
    var w' := Launch(w, c);
    forall p | Managed(w, p) ensures Managed(w', p) {
      if w' != w && Owns(w.workers, p) {
        var i :| 0 <= i < |w.workers| && w.workers[i].path == p;
        assert w'.workers[i].path == p;
      }
    }
  }

  /** After the removals every entry is one the snapshot retains. */
  lemma KeptIsCovered(w: World, kept: World, snapshot: seq<Candidate>)
    requires EntriesTrue(w) && EntriesTrue(kept) && Agreeing(w, snapshot) && kept.threads == w.threads
    requires forall p :: p in kept.launched ==> p in w.launched && kept.launched[p] == w.launched[p] && Present(snapshot, p)
    requires forall p :: p in kept.active ==> p in w.active && kept.active[p] == w.active[p] && Present(snapshot, p)
    ensures Agreeing(kept, snapshot) && Covered(kept, snapshot)
  {
    forall p | HasEntry(kept, p)
      ensures HasEntry(w, p) && EntryDevice(kept, p) == EntryDevice(w, p)
      ensures exists i :: 0 <= i < |snapshot| && snapshot[i].path == p && snapshot[i].device == EntryDevice(kept, p)
    {
      var i :| 0 <= i < |snapshot| && snapshot[i].path == p;
      assert HasEntry(w, snapshot[i].path);
    }
  }

  lemma RunSnoc(w: World, labels: seq<Label>, l: Label)
    ensures Run(w, labels + [l]) == Step(Run(w, labels), l)
  {
    RunConcat(w, labels, [l]);
    assert [l][1..] == [];
    assert Run(Run(w, labels), [l]) == Step(Run(w, labels), l);
  }

  function Launches(snapshot: seq<Candidate>): seq<Label> {
    seq(|snapshot|, i requires 0 <= i < |snapshot| => LLaunch(snapshot[i]))
  }

  lemma LaunchesSnoc(snapshot: seq<Candidate>, n: nat)
    requires n < |snapshot|
    ensures Launches(snapshot[..n + 1]) == Launches(snapshot[..n]) + [LLaunch(snapshot[n])]
  {
  }

  /** Launching along an agreeing snapshot only ever starts workers for fresh devices. */
  lemma {:induction false} LaunchesAreFresh(w: World, snapshot: seq<Candidate>, k: nat)
    requires Inv(w) && Distinct(snapshot) && Covered(w, snapshot) && k <= |snapshot|
    ensures FreshRun(w, Launches(snapshot)[k..])
    decreases |snapshot| - k
  {
    if k < |snapshot| {
      var labels := Launches(snapshot)[k..];
      assert labels[0] == LLaunch(snapshot[k]) && labels[1..] == Launches(snapshot)[k + 1..];
      StepKeepsInv(w, labels[0]);
      if !Managed(w, snapshot[k].path) {
        UnmanagedIsFresh(w, snapshot, k);
        LaunchKeepsCovered(w, snapshot, k);
      }
      LaunchesAreFresh(Step(w, labels[0]), snapshot, k + 1);
    }
  }

  /** What launching changes and what it leaves. */
  ghost predicate LaunchFrame(w: World, w': World, snapshot: seq<Candidate>) {
    && w'.active == w.active && w'.events == w.events && w.nextId <= w'.nextId
    && (forall p :: p in w.launched ==> p in w'.launched && w'.launched[p] == w.launched[p])
    && (forall p :: p in w'.launched ==> p in w.launched || (Present(snapshot, p) && w'.launched[p].id > w.nextId))
  }

  lemma {:induction false} LaunchesFrame(w: World, snapshot: seq<Candidate>, n: nat)
    requires n <= |snapshot|
    ensures var w' := Run(w, Launches(snapshot[..n]));
            && LaunchFrame(w, w', snapshot)
            && forall i :: 0 <= i < n ==> Managed(w', snapshot[i].path)
  {
    if n == 0 {
      assert Launches(snapshot[..0]) == [];
    } else {
      LaunchesFrame(w, snapshot, n - 1);
      LaunchesSnoc(snapshot, n - 1);
      var mid := Run(w, Launches(snapshot[..n - 1]));
      RunSnoc(w, Launches(snapshot[..n - 1]), LLaunch(snapshot[n - 1]));
      LaunchKeepsManaged(mid, snapshot[n - 1]);
      var w' := Launch(mid, snapshot[n - 1]);
      assert Present(snapshot, snapshot[n - 1].path);
    }
  }

  ghost predicate OnlyStops(labels: seq<Label>) {
    forall i :: 0 <= i < |labels| ==> labels[i].LSubmit? && labels[i].command.Stop?
  }

  /** What is left of a map once only the given paths may stay. */
  ghost predicate Kept<V>(before: map<Path, V>, after: map<Path, V>, staying: set<Path>) {
    && (forall p :: p in after <==> p in before && p in staying)
    && (forall p :: p in after ==> after[p] == before[p])
  }

  /** The first half of a reconciliation: absent paths are forgotten, and none is left. */
  ghost predicate DropsAbsent(w: World, drops: seq<Label>, snapshot: seq<Candidate>) {
    && (forall i :: 0 <= i < |drops| ==> (drops[i].LDropActive? || drops[i].LDropLaunched?) && !Present(snapshot, drops[i].path))
    && (forall p :: HasEntry(Run(w, drops), p) ==> Present(snapshot, p))
  }

  /** How a live thread's end is labelled. */
  function EndLabel(id: WorkerId, phase: ThreadPhase): Label {
    if phase.Returned? then LReturn(id, phase.clean) else LPanic(id)
  }

  lemma EndIsStep(w: World, id: WorkerId, phase: ThreadPhase)
    requires Live(w, id) && (phase.Returned? || phase.Panicked?)
    ensures Step(w, EndLabel(id, phase)) == DropReceiver(SetPhase(w, id, phase), id)
  {
  }

  /** Only threads and handlers act. */
  ghost predicate OnlyThreads(labels: seq<Label>) {
    forall i :: 0 <= i < |labels| ==> ThreadStep(labels[i])
  }

  /** Reaping only ever drops entries, so a snapshot agrees afterwards if it agreed before. */
  lemma {:induction false} ReapingInherits(w: World, labels: seq<Label>)
    requires Inv(w) && forall i :: 0 <= i < |labels| ==> labels[i].LReap?
    ensures Inv(Run(w, labels)) && EntriesInherited(w, Run(w, labels))
    decreases |labels|
  {
    if labels != [] {
      StepKeepsInv(w, labels[0]);
      StepInherits(w, labels[0]);
      ReapingInherits(Step(w, labels[0]), labels[1..]);
    }
  }

  /** Every listed thread has finished, and `panicked` says whether one of them panicked. */
  ghost predicate Joined(threads: map<WorkerId, Thread>, owned: seq<Owned>, panicked: bool) {
    && (forall o :: o in owned ==> o.id in threads && Finished(threads[o.id]))
    && (panicked <==> exists o :: o in owned && threads[o.id].phase.Panicked?)
  }

  ghost predicate AllFinished(threads: map<WorkerId, Thread>) {
    forall id :: id in threads ==> Finished(threads[id])
  }

  /** When unfinished threads are owned and all owned threads have been joined, every thread has finished. */
  lemma NobodyIsLeft(w: World, threads: map<WorkerId, Thread>, panicked: bool)
    requires threads.Keys == w.threads.Keys && Joined(threads, w.workers, panicked)
    requires forall t :: t in w.threads && Finished(w.threads[t]) ==> threads[t] == w.threads[t]
    ensures UnfinishedAreOwned(w) ==> AllFinished(threads)
  {
    forall id | UnfinishedAreOwned(w) && id in threads ensures Finished(threads[id]) {
      if !Finished(w.threads[id]) {
        var i :| 0 <= i < |w.workers| && w.workers[i].id == id;
        assert w.workers[i] in w.workers;
      }
    }
  }

  lemma JoinedOneMore(threads: map<WorkerId, Thread>, threads': map<WorkerId, Thread>, owned: seq<Owned>, n: nat, panicked: bool)
    requires n < |owned| && Joined(threads, owned[..n], panicked) && threads'.Keys == threads.Keys
    requires forall t :: t in threads && Finished(threads[t]) ==> threads'[t] == threads[t]
    requires owned[n].id in threads' && Finished(threads'[owned[n].id])
    ensures Joined(threads', owned[..n + 1], panicked || threads'[owned[n].id].phase.Panicked?)
  {
    assert owned[..n + 1] == owned[..n] + [owned[n]];
  }

  /** Every finished worker has been joined. */
  ghost predicate NoneReapable(w: World) {
    forall i :: 0 <= i < |w.workers| ==> !Reapable(w, i)
  }

  class Supervisor {
    var nextWorkerId: nat
    var launchedWorkers: map<Path, Launched>
    var activeWorkers: map<Path, Active>
    var workers: seq<Owned>

    // The worker threads, their queues, the report FIFO and the event stream are shared with other parties.
    var threads: map<WorkerId, Thread>
    var channels: map<WorkerId, Q.QueueState>
    var reports: seq<Report>
    var events: seq<Event>
    /** What the serving workers are doing. */
    var devices: T.Devices

    ghost function State(): World
      reads this
    {
      World(nextWorkerId, launchedWorkers, activeWorkers, workers, threads, channels, reports, events)
    }

    constructor ()
      ensures State() == INITIAL && Inv(State()) && T.Attended(State(), devices)
    {
      nextWorkerId := 0;
      launchedWorkers, activeWorkers, workers := map[], map[], [];
      threads, channels := map[], map[];
      reports, events := [], [];
      devices := map[];
      new;
      InitialInv();
    }

    method SendStop(queue: WorkerId)
      modifies this`channels
      ensures State() == SendTo(old(State()), queue, C.Stop)
      ensures old(T.Attended(State(), devices)) ==> T.Attended(State(), devices)
    {
      ghost var w := State();
      if queue in channels {
        channels := channels[queue := Q.Send(channels[queue], C.Stop)];
      }
      if T.Attended(w, devices) {
        T.SendToOnlySends(w, queue, C.Stop);
        T.SentAttends(w, State(), devices);
      }
    }

    method SendEvent(event: Event)
      modifies this`events
      ensures State() == Emit(old(State()), event)
    {
      events := events + [event];
    }

    /** Forgets one active path: its worker is told to stop and its disconnect announced. */
    method ForgetActive(path: Path)
      requires path in activeWorkers
      modifies this`activeWorkers, this`channels, this`events
      ensures State() == DropActive(old(State()), path)
      ensures activeWorkers == old(activeWorkers) - {path}
    {
      var entry := activeWorkers[path];
      activeWorkers := activeWorkers - {path};
      SendStop(entry.queue);
      SendEvent(DeviceDisconnected(path, entry.device));
    }

    /** Forgets every active path missing from the bus, in no particular order. */
    method DropMissingActive(present: set<Path>) returns (ghost labels: seq<Label>)
      modifies this`activeWorkers, this`channels, this`events
      ensures State() == Run(old(State()), labels)
      ensures forall i :: 0 <= i < |labels| ==> labels[i].LDropActive? && labels[i].path !in present
      ensures Kept(old(activeWorkers), activeWorkers, present)
    {
      var removed := activeWorkers.Keys - present;
      labels := [];
      ghost var w := State();
      while removed != {}
        invariant State() == Run(w, labels)
        invariant forall i :: 0 <= i < |labels| ==> labels[i].LDropActive? && labels[i].path !in present
        invariant removed <= w.active.Keys - present && Kept(w.active, activeWorkers, present + removed)
        decreases |removed|
      {
        var path :| path in removed;
        removed := removed - {path};
        ghost var l := LDropActive(path);
        RunSnoc(w, labels, l);
        labels := labels + [l];
        ForgetActive(path);
      }
    }

    method ForgetLaunched(path: Path)
      requires path in launchedWorkers
      modifies this`launchedWorkers, this`channels
      ensures State() == DropLaunched(old(State()), path)
      ensures launchedWorkers == old(launchedWorkers) - {path}
    {
      var entry := launchedWorkers[path];
      launchedWorkers := launchedWorkers - {path};
      SendStop(entry.queue);
    }

    method DropMissingLaunched(present: set<Path>) returns (ghost labels: seq<Label>)
      modifies this`launchedWorkers, this`channels
      ensures State() == Run(old(State()), labels)
      ensures forall i :: 0 <= i < |labels| ==> labels[i].LDropLaunched? && labels[i].path !in present
      ensures Kept(old(launchedWorkers), launchedWorkers, present)
    {
      var removed := launchedWorkers.Keys - present;
      labels := [];
      ghost var w := State();
      while removed != {}
        invariant State() == Run(w, labels)
        invariant forall i :: 0 <= i < |labels| ==> labels[i].LDropLaunched? && labels[i].path !in present
        invariant removed <= w.launched.Keys - present && Kept(w.launched, launchedWorkers, present + removed)
        decreases |removed|
      {
        var path :| path in removed;
        removed := removed - {path};
        ghost var l := LDropLaunched(path);
        RunSnoc(w, labels, l);
        labels := labels + [l];
        ForgetLaunched(path);
      }
    }

    /** Starts a worker, with a fresh id and a fresh queue, for a path nobody manages. */
    method SpawnWorker(c: Candidate)
      requires !Managed(State(), c.path)
      modifies this`nextWorkerId, this`launchedWorkers, this`workers, this`threads, this`channels
      ensures State() == Launch(old(State()), c)
    {
      nextWorkerId := nextWorkerId + 1;
      launchedWorkers := launchedWorkers[c.path := Launched(nextWorkerId, nextWorkerId)];
      threads := threads[nextWorkerId := Thread(c.path, c.device, Opening)];
      channels := channels[nextWorkerId := Q.FRESH];
      workers := workers + [Owned(nextWorkerId, c.path, nextWorkerId)];
    }

    /** Starts a worker for every candidate whose path nobody manages. */
    method LaunchMissing(snapshot: seq<Candidate>)
      modifies this`nextWorkerId, this`launchedWorkers, this`workers, this`threads, this`channels
      ensures State() == Run(old(State()), Launches(snapshot))
    {
      ghost var w := State();
      var next := 0;
      assert Launches(snapshot[..0]) == [];
      while next < |snapshot|
        invariant 0 <= next <= |snapshot|
        invariant State() == Run(w, Launches(snapshot[..next]))
      {
        var c := snapshot[next];
        LaunchesSnoc(snapshot, next);
        RunSnoc(w, Launches(snapshot[..next]), LLaunch(c));
        next := next + 1;
        if c.path in activeWorkers || c.path in launchedWorkers || Owns(workers, c.path) {
          continue;
        }
        SpawnWorker(c);
      }
      assert snapshot[..|snapshot|] == snapshot;
    }

    /** One discovery tick's reconciliation against a snapshot of the bus. */
    method ReconcileUsbPresence(snapshot: seq<Candidate>) returns (ghost labels: seq<Label>, ghost drops: seq<Label>)
      modifies this`nextWorkerId, this`launchedWorkers, this`activeWorkers, this`workers,
               this`threads, this`channels, this`events
      ensures State() == Run(old(State()), labels)
      ensures labels == drops + Launches(snapshot) && DropsAbsent(old(State()), drops, snapshot)
      ensures old(Inv(State()) && T.Attended(State(), devices)) ==> T.Attended(State(), devices)
      ensures Inv(old(State())) ==> Inv(State())
      ensures Inv(old(State())) && Agreeing(old(State()), snapshot) ==> FreshRun(old(State()), labels)
      ensures forall p :: p in activeWorkers <==> p in old(activeWorkers) && Present(snapshot, p)
      ensures forall p :: p in activeWorkers ==> activeWorkers[p] == old(activeWorkers)[p]
      ensures forall p :: p in launchedWorkers ==> Present(snapshot, p)
      ensures forall p :: p in old(launchedWorkers) && Present(snapshot, p) ==>
                p in launchedWorkers && launchedWorkers[p] == old(launchedWorkers)[p]
      ensures forall p :: p in launchedWorkers && p !in old(launchedWorkers) ==>
                launchedWorkers[p].id > old(nextWorkerId)
      ensures forall i :: 0 <= i < |snapshot| ==> Managed(State(), snapshot[i].path)
    {
      var present := set c | c in snapshot :: c.path;
      PresentPaths(snapshot, present);
      ghost var w := State();
      drops := DropMissingActive(present);
      ghost var more := DropMissingLaunched(present);
      RunConcat(w, drops, more);
      drops := drops + more;
      ghost var kept := State();
      LaunchMissing(snapshot);
      labels := drops + Launches(snapshot);
      RunConcat(w, drops, Launches(snapshot));
      assert snapshot[..|snapshot|] == snapshot;
      LaunchesFrame(kept, snapshot, |snapshot|);
      ReconciledIsFresh(w, drops, kept, snapshot);
      ReconciledAttends(w, devices, drops, snapshot);
    }

    method HandleWorkerReport(report: Report)
      modifies this`launchedWorkers, this`activeWorkers, this`channels, this`events
      ensures State() == Handle(old(State()), report)
      ensures old(T.Attended(State(), devices)) ==> T.Attended(State(), devices)
    {
      T.HandleAttends(State(), devices, report);
      match report {
        case Connected(id, path, device, queue) =>
          if path !in launchedWorkers {
            SendStop(queue);
            return;
          }
          var entry := launchedWorkers[path];
          if entry.id != id {
            SendStop(queue);
            return;
          }
          launchedWorkers := launchedWorkers - {path};
          activeWorkers := activeWorkers[path := Active(id, device, entry.queue)];
          SendEvent(DeviceConnected(path, device, queue));
        case Input(id, path, device, body) =>
          if path !in activeWorkers {
            return;
          }
          if activeWorkers[path].id != id || activeWorkers[path].device != device {
            return;
          }
          SendEvent(DeviceInput(device, body));
        case Disconnected(id, path, device) =>
          if path in activeWorkers {
            if activeWorkers[path].id == id && activeWorkers[path].device == device {
              activeWorkers := activeWorkers - {path};
              SendEvent(DeviceDisconnected(path, device));
            }
            return;
          }
          if path in launchedWorkers && launchedWorkers[path].id == id {
            launchedWorkers := launchedWorkers - {path};
          }
        case Failed(id, path) =>
          if path in activeWorkers {
            var entry := activeWorkers[path];
            if entry.id == id {
              activeWorkers := activeWorkers - {path};
              SendEvent(DeviceDisconnected(path, entry.device));
              SendEvent(WorkerFailed(path));
            }
            return;
          }
          if path in launchedWorkers && launchedWorkers[path].id == id {
            launchedWorkers := launchedWorkers - {path};
            SendEvent(WorkerFailed(path));
          }
      }
    }

    /** Takes the oldest report off the FIFO and handles it. */
    method ProcessOneReport()
      modifies this`launchedWorkers, this`activeWorkers, this`channels, this`reports, this`events
      ensures State() == Process(old(State()))
      ensures Inv(old(State())) ==> Inv(State())
      ensures old(T.Attended(State(), devices)) ==> T.Attended(State(), devices)
    {
      ghost var w := State();
      if reports != [] {
        var report := reports[0];
        reports := reports[1..];
        HandleWorkerReport(report);
      }
      ProcessKeepsAll(w, devices);
    }

    /** Joins one finished worker; a panicked one is handled as a failure. */
    method JoinFinished(index: nat)
      requires Reapable(State(), index)
      modifies this`launchedWorkers, this`activeWorkers, this`workers, this`channels, this`events
      ensures State() == Reap(old(State()), index)
      ensures workers == SwapRemove(old(workers), index)
    {
      var worker := workers[index];
      workers := SwapRemove(workers, index);
      if threads[worker.id].phase.Panicked? {
        ghost var popped := State();
        HandleWorkerReport(Failed(worker.id, worker.path));
        HandleKeepsThreads(popped, Failed(worker.id, worker.path));
        HandleIgnoresWorkers(popped, Failed(worker.id, worker.path), workers);
        HandleIgnoresFifo(popped, Failed(worker.id, worker.path), popped.reports);
      }
    }

    /** Joins every finished worker. */
    method ReapFinishedWorkers() returns (ghost labels: seq<Label>)
      requires forall i :: 0 <= i < |workers| ==> workers[i].id in threads
      modifies this`launchedWorkers, this`activeWorkers, this`workers, this`channels, this`events
      ensures State() == Run(old(State()), labels)
      ensures forall i :: 0 <= i < |labels| ==> labels[i].LReap?
      ensures Inv(old(State())) ==> Inv(State()) && FreshRun(old(State()), labels)
      ensures NoneReapable(State())
      ensures old(Inv(State()) && T.Attended(State(), devices)) ==> T.Attended(State(), devices)
    {
      labels := [];
      ghost var w := State();
      var index := 0;
      while index < |workers|
        invariant 0 <= index <= |workers|
        invariant State() == Run(w, labels)
        invariant forall i :: 0 <= i < |labels| ==> labels[i].LReap?
        invariant forall i :: 0 <= i < |workers| ==> workers[i].id in threads
        invariant forall i :: 0 <= i < index ==> !Finished(threads[workers[i].id])
        decreases |workers| - index
      {
        if !Finished(threads[workers[index].id]) {
          index := index + 1;
          continue;
        }
        RunSnoc(w, labels, LReap(index));
        labels := labels + [LReap(index)];
        SwapRemoveElements(workers, index);
        JoinFinished(index);
      }
      ReapedKeeps(w, devices, labels);
    }

    /** One discovery tick: join what has finished, then reconcile with the bus. */
    method DiscoveryTick(snapshot: seq<Candidate>)
      returns (ghost labels: seq<Label>, ghost reaps: seq<Label>, ghost drops: seq<Label>)
      requires forall i :: 0 <= i < |workers| ==> workers[i].id in threads
      modifies this`nextWorkerId, this`launchedWorkers, this`activeWorkers, this`workers,
               this`threads, this`channels, this`events
      ensures State() == Run(old(State()), labels)
      ensures labels == reaps + drops + Launches(snapshot) && (forall i :: 0 <= i < |reaps| ==> reaps[i].LReap?)
      ensures NoneReapable(Run(old(State()), reaps)) && DropsAbsent(Run(old(State()), reaps), drops, snapshot)
      ensures Inv(old(State())) ==> Inv(State())
      ensures Inv(old(State())) && Agreeing(old(State()), snapshot) ==> FreshRun(old(State()), labels)
      ensures old(Inv(State()) && T.Attended(State(), devices)) ==> T.Attended(State(), devices)
      ensures forall p :: p in activeWorkers || p in launchedWorkers ==> Present(snapshot, p)
      ensures forall i :: 0 <= i < |snapshot| ==> Managed(State(), snapshot[i].path)
    {
      ghost var w := State();
      reaps := ReapFinishedWorkers();
      ghost var reaped := State();
      ghost var rest;
      rest, drops := ReconcileUsbPresence(snapshot);
      RunConcat(w, reaps, rest);
      if Inv(w) && Agreeing(w, snapshot) {
        ReapingInherits(w, reaps);
        assert Agreeing(reaped, snapshot);
        FreshConcat(w, reaps, rest);
      }
      labels := reaps + rest;
      assert labels == reaps + drops + Launches(snapshot);
    }

    method StopQueue(queue: WorkerId, ghost w: World, ghost before: seq<Label>) returns (ghost labels: seq<Label>)
      requires State() == Run(w, before) && OnlyStops(before)
      modifies this`channels
      ensures State() == Run(w, labels) && OnlyStops(labels)
      ensures old(T.Attended(State(), devices)) ==> T.Attended(State(), devices)
      ensures channels.Keys == old(channels.Keys)
      ensures queue in channels ==> Halted(State(), queue)
      ensures forall q :: old(Halted(State(), q)) ==> Halted(State(), q)
    {
      ghost var l := LSubmit(queue, C.Stop);
      RunSnoc(w, before, l);
      SendStop(queue);
      labels := before + [l];
    }

    /** Tells a set of workers to stop, in no particular order. */
    method StopQueues(queues: set<WorkerId>, ghost w: World, ghost before: seq<Label>) returns (ghost labels: seq<Label>)
      requires State() == Run(w, before) && OnlyStops(before)
      modifies this`channels
      ensures State() == Run(w, labels) && OnlyStops(labels)
      ensures old(T.Attended(State(), devices)) ==> T.Attended(State(), devices)
      ensures channels.Keys == old(channels.Keys)
      ensures forall q :: q in queues && q in channels ==> Halted(State(), q)
      ensures forall q :: old(Halted(State(), q)) ==> Halted(State(), q)
    {
      labels := before;
      var left := queues;
      while left != {}
        invariant State() == Run(w, labels) && OnlyStops(labels) && channels.Keys == old(channels.Keys) && left <= queues
        invariant forall q :: q in queues - left && q in channels ==> Halted(State(), q)
        invariant forall q :: old(Halted(State(), q)) ==> Halted(State(), q)
        invariant old(T.Attended(State(), devices)) ==> T.Attended(State(), devices)
        decreases |left|
      {
        var queue :| queue in left;
        left := left - {queue};
        labels := StopQueue(queue, w, labels);
      }
    }

    /** Tells every owned, launched and active worker to stop. */
    method RequestStopAllWorkers() returns (ghost labels: seq<Label>)
      modifies this`channels
      ensures State() == Run(old(State()), labels) && OnlyStops(labels)
      ensures old(T.Attended(State(), devices)) ==> T.Attended(State(), devices)
      ensures channels.Keys == old(channels.Keys)
      ensures forall i :: 0 <= i < |workers| && workers[i].queue in channels ==> Halted(State(), workers[i].queue)
      ensures forall p :: p in launchedWorkers && launchedWorkers[p].queue in channels ==> Halted(State(), launchedWorkers[p].queue)
      ensures forall p :: p in activeWorkers && activeWorkers[p].queue in channels ==> Halted(State(), activeWorkers[p].queue)
    {
      labels := [];
      ghost var w := State();
      var index := 0;
      while index < |workers|
        invariant 0 <= index <= |workers|
        invariant State() == Run(w, labels) && OnlyStops(labels) && channels.Keys == w.channels.Keys
        invariant old(T.Attended(State(), devices)) ==> T.Attended(State(), devices)
        invariant forall i :: 0 <= i < index && workers[i].queue in channels ==> Halted(State(), workers[i].queue)
      {
        labels := StopQueue(workers[index].queue, w, labels);
        index := index + 1;
      }
      labels := StopQueues(set p | p in launchedWorkers :: launchedWorkers[p].queue, w, labels);
      labels := StopQueues(set p | p in activeWorkers :: activeWorkers[p].queue, w, labels);
    }

    /** A live thread gives up: it panics, or its device cannot be opened. */
    method EndThread(id: WorkerId, phase: ThreadPhase)
      requires T.Attended(State(), devices) && Live(State(), id)
      requires phase.Panicked? || (phase.Returned? && threads[id].phase.Opening?)
      modifies this`threads, this`channels
      ensures State() == DropReceiver(SetPhase(old(State()), id, phase), id)
      ensures T.OthersKept(old(State()), old(devices), State(), devices, id)
      ensures T.Nearer(old(State()), old(devices), State(), devices, id)
    {
      T.EndIsNearer(State(), devices, id, phase);
      threads := threads[id := threads[id].(phase := phase)];
      channels := channels[id := channels[id].(receiverAlive := false)];
    }

    /** A worker that has just connected, on the queue it was given. */
    method NewDevice(queue: Q.QueueState) returns (device: D.State)
      requires T.Unpolled(queue)
      ensures D.Initial(device.(channel := queue)) && device.phase == D.Polling(0)
    {
      var garbled: set<C.Image> := *;
      var timeout: nat, now: F.Time := *, *;
      device := D.State(garbled, {}, queue, D.Polling(0), P.Panel(seq(P.LAMPS, _ => P.DARK), P.Unknown),
                        F.Started(timeout + 1, now), now, [], [], 0);
    }

    /** A thread has opened its device and reports Connected. */
    method Connect(id: WorkerId)
      requires T.Attended(State(), devices) && id in threads && threads[id].phase.Opening?
      modifies this`threads, this`reports, this`devices
      ensures State() == Step(old(State()), LConnect(id))
      ensures T.OthersKept(old(State()), old(devices), State(), devices, id)
      ensures T.Nearer(old(State()), old(devices), State(), devices, id)
    {
      ghost var w, before := State(), devices;
      var device := NewDevice(channels[id]);
      var t := threads[id];
      threads := threads[id := t.(phase := Serving)];
      reports := reports + [Connected(id, t.path, t.device, id)];
      devices := devices[id := device];
      T.ConnectIsNearer(w, before, id, device);
    }

    /** A serving worker takes one step. */
    method Serve(id: WorkerId) returns (ghost labels: seq<Label>)
      requires T.Attended(State(), devices) && id in threads && threads[id].phase.Serving?
      modifies this`threads, this`channels, this`devices
      ensures State() == Run(old(State()), labels) && OnlyThreads(labels)
      ensures T.OthersKept(old(State()), old(devices), State(), devices, id)
      ensures old(channels[id].stopping) ==> T.Nearer(old(State()), old(devices), State(), devices, id)
    {
      ghost var w, before := State(), devices;
      assert T.ServedBy(w, devices, id);
      var a: D.Answer := *;
      var s := devices[id].(channel := channels[id]);
      var s' := D.WorkStep(s, a);
      labels := T.Seen(s, a, id);
      channels := channels[id := s'.channel];
      devices := devices[id := s'];
      if s'.phase.Exited? {
        threads := threads[id := threads[id].(phase := Returned(s'.phase.clean))];
      }
      T.WorkIsSeen(w, before, id, a);
      T.WorkIsNearer(w, before, id, a);
    }

    /** A thread past its loop sends its terminal report. */
    method SendTerminalReport(id: WorkerId)
      requires T.Attended(State(), devices) && id in threads && threads[id].phase.Returned?
      modifies this`threads, this`reports
      ensures State() == Step(old(State()), LReport(id))
      ensures T.OthersKept(old(State()), old(devices), State(), devices, id)
      ensures T.Nearer(old(State()), old(devices), State(), devices, id)
    {
      ghost var w := State();
      var t := threads[id];
      threads := threads[id := t.(phase := Reported)];
      reports := reports + [if t.phase.clean then Disconnected(id, t.path, t.device) else Failed(id, t.path)];
      T.ReportIsNearer(w, devices, id);
    }

    method GiveUp(id: WorkerId, phase: ThreadPhase, ghost w: World, ghost before: seq<Label>) returns (ghost labels: seq<Label>)
      requires State() == Run(w, before) && OnlyThreads(before) && T.Attended(State(), devices) && Live(State(), id)
      requires phase.Panicked? || (phase.Returned? && threads[id].phase.Opening?)
      modifies this`threads, this`channels
      ensures State() == Run(w, labels) && OnlyThreads(labels)
      ensures T.OthersKept(old(State()), old(devices), State(), devices, id)
      ensures T.Nearer(old(State()), old(devices), State(), devices, id)
    {
      RunSnoc(w, before, EndLabel(id, phase));
      EndIsStep(State(), id, phase);
      labels := before + [EndLabel(id, phase)];
      EndThread(id, phase);
    }

    /** An unfinished thread takes one step, nearer to its end if its worker has been told to stop. */
    method Proceed(id: WorkerId, ghost w: World, ghost before: seq<Label>) returns (ghost labels: seq<Label>)
      requires State() == Run(w, before) && OnlyThreads(before) && T.Attended(State(), devices)
      requires id in threads && !Finished(threads[id])
      modifies this`threads, this`channels, this`reports, this`devices
      ensures State() == Run(w, labels) && OnlyThreads(labels)
      ensures T.OthersKept(old(State()), old(devices), State(), devices, id)
      ensures old(Halted(State(), id)) ==> T.Nearer(old(State()), old(devices), State(), devices, id)
    {
      if Halted(State(), id) {
        T.HaltedLiveIsStopping(State(), devices, id);
      }
      match threads[id].phase {
        case Opening =>
          var opens: bool, phase: ThreadPhase := *, *;
          if opens {
            RunSnoc(w, before, LConnect(id));
            Connect(id);
            labels := before + [LConnect(id)];
          } else {
            labels := GiveUp(id, if phase.Returned? then phase else Panicked, w, before);
          }
        case Serving =>
          var panics: bool := *;
          if panics {
            labels := GiveUp(id, Panicked, w, before);
          } else {
            ghost var steps := Serve(id);
            RunConcat(w, before, steps);
            labels := before + steps;
          }
        case Returned(_) =>
          RunSnoc(w, before, LReport(id));
          SendTerminalReport(id);
          labels := before + [LReport(id)];
      }
    }

    /** A handler sends a command. */
    method SubmitTo(queue: WorkerId, command: C.Command)
      requires T.Attended(State(), devices)
      modifies this`channels
      ensures State() == SendTo(old(State()), queue, command)
      ensures T.AllKept(old(State()), devices, State(), devices)
    {
      T.SendKeepsAll(State(), devices, queue, command);
      if queue in channels {
        channels := channels[queue := Q.Send(channels[queue], command)];
      }
    }

    /** A serving thread reports an input. */
    method ReportInput(id: WorkerId, body: Body)
      requires T.Attended(State(), devices)
      modifies this`reports
      ensures State() == ThreadInput(old(State()), id, body)
      ensures T.AllKept(old(State()), devices, State(), devices)
    {
      T.InputKeepsAll(State(), devices, id, body);
      if id in threads && threads[id].phase.Serving? {
        reports := reports + [Input(id, threads[id].path, threads[id].device, body)];
      }
    }

    /** A claim ends, for one serving worker's checks. */
    method EndClaim(id: WorkerId, context: C.Context)
      requires T.Attended(State(), devices) && id in threads && threads[id].phase.Serving?
      modifies this`devices
      ensures T.AllKept(State(), old(devices), State(), devices)
    {
      assert T.ServedBy(State(), devices, id);
      T.RevokeKeepsAll(State(), devices, id, context);
      devices := devices[id := D.Step(devices[id].(channel := channels[id]), D.Revoke(context))];
    }

    /** A handler sends a command, or a serving thread reports an input, or a claim ends. */
    method Interject(ghost w: World, ghost before: seq<Label>) returns (ghost labels: seq<Label>)
      requires State() == Run(w, before) && OnlyThreads(before) && T.Attended(State(), devices)
      modifies this`channels, this`reports, this`devices
      ensures State() == Run(w, labels) && OnlyThreads(labels)
      ensures T.AllKept(old(State()), old(devices), State(), devices)
    {
      labels := before;
      var kind: int, id: WorkerId := *, *;
      if kind == 0 {
        var command: C.Command := *;
        RunSnoc(w, before, LSubmit(id, command));
        labels := before + [LSubmit(id, command)];
        SubmitTo(id, command);
      } else if kind == 1 || id !in threads || !threads[id].phase.Serving? {
        var body: Body := *;
        RunSnoc(w, before, LInput(id, body));
        labels := before + [LInput(id, body)];
        ReportInput(id, body);
      } else {
        var context: C.Context := *;
        EndClaim(id, context);
      }
    }

    /**
     * Everyone else, for a while: handlers, claims, and every thread but the one
     * waited for, if any. The thread waited for is as near to its end as before.
     */
    method OthersAct(waited: Option<WorkerId>, ghost w: World, ghost before: seq<Label>) returns (ghost labels: seq<Label>)
      requires State() == Run(w, before) && OnlyThreads(before) && T.Attended(State(), devices)
      modifies this`threads, this`channels, this`reports, this`devices
      ensures State() == Run(w, labels) && OnlyThreads(labels) && T.Attended(State(), devices)
      ensures threads.Keys == old(threads.Keys) && channels.Keys == old(channels.Keys)
      ensures waited.Some? && waited.value in threads ==>
                T.Remaining(State(), devices, waited.value) == old(if waited.value in threads then T.Remaining(State(), devices, waited.value) else 0)
      ensures forall t :: t in threads && Finished(old(threads)[t]) ==> threads[t] == old(threads)[t]
      ensures forall q :: old(Halted(State(), q)) ==> Halted(State(), q)
    {
      labels := before;
      ghost var start, was := State(), devices;
      var left: int := *;
      while left > 0
        invariant State() == Run(w, labels) && OnlyThreads(labels) && T.Attended(State(), devices)
        invariant threads.Keys == start.threads.Keys && channels.Keys == start.channels.Keys
        invariant waited.Some? && waited.value in start.threads ==>
                    T.Remaining(State(), devices, waited.value) == T.Remaining(start, was, waited.value)
        invariant forall t :: t in start.threads && Finished(start.threads[t]) ==> threads[t] == start.threads[t]
        invariant forall q :: Halted(start, q) ==> Halted(State(), q)
      {
        left := left - 1;
        var interjects: bool, id: WorkerId := *, *;
        if interjects {
          labels := Interject(w, labels);
        } else if id in threads && !Finished(threads[id]) && waited != Some(id) {
          labels := Proceed(id, w, labels);
        }
      }
    }

    /**
     * Waits for one thread whose worker has been told to stop, while everyone
     * else acts. The wait ends because each of the thread's own steps brings it
     * nearer to its end, and nobody else takes it further away.
     */
    method Join(id: WorkerId, ghost w: World, ghost before: seq<Label>) returns (panicked: bool, ghost labels: seq<Label>)
      requires State() == Run(w, before) && OnlyThreads(before) && T.Attended(State(), devices)
      requires id in threads && Halted(State(), id)
      modifies this`threads, this`channels, this`reports, this`devices
      ensures State() == Run(w, labels) && OnlyThreads(labels) && T.Attended(State(), devices)
      ensures threads.Keys == old(threads.Keys) && channels.Keys == old(channels.Keys)
      ensures Finished(threads[id]) && (panicked <==> threads[id].phase.Panicked?)
      ensures forall t :: t in threads && Finished(old(threads)[t]) ==> threads[t] == old(threads)[t]
      ensures forall q :: old(Halted(State(), q)) ==> Halted(State(), q)
    {
      labels := OthersAct(Some(id), w, before);
      while !Finished(threads[id])
        invariant State() == Run(w, labels) && OnlyThreads(labels) && T.Attended(State(), devices)
        invariant id in threads && Halted(State(), id)
        invariant threads.Keys == old(threads.Keys) && channels.Keys == old(channels.Keys)
        invariant forall t :: t in threads && Finished(old(threads)[t]) ==> threads[t] == old(threads)[t]
        invariant forall q :: old(Halted(State(), q)) ==> Halted(State(), q)
        decreases T.Remaining(State(), devices, id)
      {
        labels := Proceed(id, w, labels);
        labels := OthersAct(Some(id), w, labels);
      }
      panicked := threads[id].phase.Panicked?;
    }

    /** Waits for a list of threads in turn. */
    method JoinAll(owned: seq<Owned>, ghost w: World, ghost before: seq<Label>)
      returns (panicked: bool, ghost labels: seq<Label>)
      requires State() == Run(w, before) && OnlyThreads(before) && T.Attended(State(), devices)
      requires forall i :: 0 <= i < |owned| ==> owned[i].id in threads && Halted(State(), owned[i].id)
      modifies this`threads, this`channels, this`reports, this`devices
      ensures State() == Run(w, labels) && OnlyThreads(labels)
      ensures threads.Keys == old(threads.Keys) && channels.Keys == old(channels.Keys)
      ensures Joined(threads, owned, panicked)
      ensures forall t :: t in threads && Finished(old(threads)[t]) ==> threads[t] == old(threads)[t]
      ensures forall q :: old(Halted(State(), q)) ==> Halted(State(), q)
    {
      panicked := false;
      labels := before;
      var index := 0;
      while index < |owned|
        invariant 0 <= index <= |owned|
        invariant State() == Run(w, labels) && OnlyThreads(labels) && T.Attended(State(), devices)
        invariant threads.Keys == old(threads.Keys) && channels.Keys == old(channels.Keys)
        invariant Joined(threads, owned[..index], panicked)
        invariant forall t :: t in threads && Finished(old(threads)[t]) ==> threads[t] == old(threads)[t]
        invariant forall q :: old(Halted(State(), q)) ==> Halted(State(), q)
      {
        var failed;
        ghost var earlier := threads;
        failed, labels := Join(owned[index].id, w, labels);
        JoinedOneMore(earlier, threads, owned, index, panicked);
        panicked := panicked || failed;
        index := index + 1;
      }
      assert owned[..|owned|] == owned;
    }

    /** Tells everybody to stop and waits for every owned worker. */
    method WaitForAll() returns (panicked: bool, ghost labels: seq<Label>)
      requires T.Attended(State(), devices)
      requires forall i :: 0 <= i < |workers| ==> workers[i].id in threads && workers[i].queue == workers[i].id
      modifies this`threads, this`channels, this`reports, this`devices
      ensures State() == Run(old(State()), labels)
      ensures Joined(threads, workers, panicked)
      ensures forall o :: o in workers ==> Halted(State(), o.queue)
      ensures old(UnfinishedAreOwned(State())) ==> AllFinished(threads)
    {
      ghost var w := State();
      labels := RequestStopAllWorkers();
      assert OnlyThreads(labels);
      panicked, labels := JoinAll(workers, w, labels);
      NobodyIsLeft(w, threads, panicked);
    }

    /** What remains managed once shutdown has let go of everything. */
    ghost function Released(w: World): World {
      w.(workers := [], launched := map[], active := map[])
    }

    /**
     * Shutdown: every owned worker is told to stop and waited for, and nothing
     * is left managed; if unfinished threads were owned, none is left running.
     * Up to letting go, shutdown is a run of the state machine.
     * The result says whether some worker panicked.
     */
    method StopAllWorkers() returns (panicked: bool, ghost labels: seq<Label>)
      requires T.Attended(State(), devices)
      requires forall i :: 0 <= i < |workers| ==> workers[i].id in threads && workers[i].queue == workers[i].id
      modifies this
      ensures State() == Released(Run(old(State()), labels))
      ensures Joined(threads, old(workers), panicked)
      ensures forall o :: o in old(workers) ==> Halted(State(), o.queue)
      ensures old(UnfinishedAreOwned(State())) ==> AllFinished(threads)
      ensures events == old(events)
    {
      panicked, labels := WaitForAll();
      workers := [];
      launchedWorkers := map[];
      activeWorkers := map[];
    }
  }

  lemma PresentPaths(snapshot: seq<Candidate>, present: set<Path>)
    requires present == set c | c in snapshot :: c.path
    ensures forall p :: p in present <==> Present(snapshot, p)
  {
    forall p | p in present ensures Present(snapshot, p) {
      var c :| c in snapshot && c.path == p;
      var i :| 0 <= i < |snapshot| && snapshot[i] == c;
      assert snapshot[i].path == p;
    }
    forall p | Present(snapshot, p) ensures p in present {
      var i :| 0 <= i < |snapshot| && snapshot[i].path == p;
      assert snapshot[i] in snapshot;
    }
  }

  lemma ProcessKeepsAll(w: World, devices: T.Devices)
    ensures Inv(w) ==> Inv(Process(w))
    ensures T.Attended(w, devices) ==> T.Attended(Process(w), devices)
  {
    if T.Attended(w, devices) {
      T.ProcessOnlySends(w);
      T.SentAttends(w, Process(w), devices);
    }
    if Inv(w) && w.reports != [] {
      ProcessKeepsInv(w);
    }
  }

  lemma ReapedKeeps(w: World, devices: T.Devices, labels: seq<Label>)
    requires forall i :: 0 <= i < |labels| ==> labels[i].LReap?
    ensures Inv(w) ==> Inv(Run(w, labels)) && FreshRun(w, labels)
    ensures Inv(w) && T.Attended(w, devices) ==> T.Attended(Run(w, labels), devices)
  {
    if Inv(w) {
      RunKeepsInv(w, labels);
      FreshWithoutLaunch(w, labels);
      if T.Attended(w, devices) {
        T.OwnStepsAttend(w, devices, labels);
      }
    }
  }

  lemma ReconciledAttends(w: World, devices: T.Devices, drops: seq<Label>, snapshot: seq<Candidate>)
    requires forall i :: 0 <= i < |drops| ==> drops[i].LDropActive? || drops[i].LDropLaunched?
    ensures Inv(w) && T.Attended(w, devices) ==> T.Attended(Run(w, drops + Launches(snapshot)), devices)
  {
    if Inv(w) && T.Attended(w, devices) {
      T.OwnStepsAttend(w, devices, drops + Launches(snapshot));
    }
  }

  /** A tick against an agreeing snapshot launches workers for fresh devices only. */
  lemma ReconciledIsFresh(w: World, dropped: seq<Label>, kept: World, snapshot: seq<Candidate>)
    requires kept == Run(w, dropped) && forall i :: 0 <= i < |dropped| ==> !dropped[i].LLaunch?
    requires kept.threads == w.threads
    requires forall p :: p in kept.launched ==> p in w.launched && kept.launched[p] == w.launched[p] && Present(snapshot, p)
    requires forall p :: p in kept.active ==> p in w.active && kept.active[p] == w.active[p] && Present(snapshot, p)
    ensures Inv(w) ==> Inv(Run(w, dropped + Launches(snapshot)))
    ensures Inv(w) && Agreeing(w, snapshot) ==> FreshRun(w, dropped + Launches(snapshot))
  {
    if Inv(w) {
      RunKeepsInv(w, dropped);
      RunKeepsInv(w, dropped + Launches(snapshot));
      if Agreeing(w, snapshot) {
        KeptIsCovered(w, kept, snapshot);
        FreshWithoutLaunch(w, dropped);
        LaunchesAreFresh(kept, snapshot, 0);
        assert Launches(snapshot)[0..] == Launches(snapshot);
        FreshConcat(w, dropped, Launches(snapshot));
      }
    }
  }
}
