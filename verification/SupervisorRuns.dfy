/** What holds in every reachable state of the supervisor before shutdown. */
module SupervisorRuns {
  import opened Basics
  import opened EventStreams
  import opened Supervisors

  /** Every launched or active entry has an owned worker or a terminal report still to come. */
  lemma NoOrphanedEntries(labels: seq<Label>, path: Path)
    ensures var w := Run(INITIAL, labels);
            && (path in w.launched ==>
                  OwnsWorker(w.workers, w.launched[path].id, path) || TerminalPending(w.reports, w.launched[path].id))
            && (path in w.active ==>
                  OwnsWorker(w.workers, w.active[path].id, path) || TerminalPending(w.reports, w.active[path].id))
            && !(path in w.launched && path in w.active)
  {
    InitialInv();
    RunKeepsInv(INITIAL, labels);
  }

  /**
   * Every owned worker is the current entry of its path, or has been told to
   * stop, or is past its loop; owned workers differ in id and in path.
   */
  lemma NoUnmanagedWorkers(labels: seq<Label>, i: nat, j: nat)
    requires i < |Run(INITIAL, labels).workers|
    ensures var w := Run(INITIAL, labels);
            var o := w.workers[i];
            && o.id in w.threads && o.id in w.channels
            && (|| (o.path in w.launched && w.launched[o.path].id == o.id)
                || (o.path in w.active && w.active[o.path].id == o.id)
                || w.channels[o.id].stopping
                || !Live(w, o.id))
            && (j < |w.workers| && j != i ==> w.workers[j].id != o.id && w.workers[j].path != o.path)
  {
    InitialInv();
    RunKeepsInv(INITIAL, labels);
    var w := Run(INITIAL, labels);
    assert Current(w, w.workers[i].id, w.workers[i].path) || w.channels[w.workers[i].id].stopping ||
           !w.channels[w.workers[i].id].receiverAlive;
    if j < |w.workers| && j < i {
      assert w.workers[j].id != w.workers[i].id;
    }
  }

  /**
   * No path stays blocked for ever: once the report FIFO is empty and every
   * finished worker is joined, a path that cannot be launched has an owned
   * worker whose thread has yet to finish.
   */
  lemma BlockedPathHasUnfinishedWorker(labels: seq<Label>, path: Path)
    requires var w := Run(INITIAL, labels);
             w.reports == [] && (forall i :: 0 <= i < |w.workers| ==> !Reapable(w, i)) && Managed(w, path)
    ensures var w := Run(INITIAL, labels);
            exists i :: 0 <= i < |w.workers| && w.workers[i].path == path
                        && w.workers[i].id in w.threads && !Finished(w.threads[w.workers[i].id])
  {
    InitialInv();
    RunKeepsInv(INITIAL, labels);
    var w := Run(INITIAL, labels);
    if path in w.launched || path in w.active {
      NoOrphanedEntries(labels, path);
    }
    var i :| 0 <= i < |w.workers| && w.workers[i].path == path;
    assert !Reapable(w, i);
  }

  /** Every thread that has not finished is owned, so that it can be joined. */
  ghost predicate UnfinishedAreOwned(w: World) {
    forall id :: id in w.threads && !Finished(w.threads[id]) ==> exists i :: 0 <= i < |w.workers| && w.workers[i].id == id
  }

  /** Threads only move on, and no worker that is unfinished is let go. */
  ghost predicate OwnershipKept(w: World, w': World) {
    && (forall id :: id in w'.threads && !Finished(w'.threads[id]) ==>
          (id in w.threads && !Finished(w.threads[id])) || exists i :: 0 <= i < |w'.workers| && w'.workers[i].id == id)
    && (forall i :: 0 <= i < |w.workers| && w.workers[i].id in w'.threads && !Finished(w'.threads[w.workers[i].id]) ==>
          exists k :: 0 <= k < |w'.workers| && w'.workers[k].id == w.workers[i].id)
  }

  lemma KeptStaysOwned(w: World, w': World)
    requires UnfinishedAreOwned(w) && OwnershipKept(w, w')
    ensures UnfinishedAreOwned(w')
  {
  }

  lemma SameWorkersOwned(w: World, w': World)
    requires w'.workers == w.workers
    requires forall id :: id in w'.threads && !Finished(w'.threads[id]) ==> id in w.threads && !Finished(w.threads[id])
    ensures OwnershipKept(w, w')
  {
    forall i | 0 <= i < |w.workers| ensures exists k :: 0 <= k < |w'.workers| && w'.workers[k].id == w.workers[i].id {
      assert w'.workers[i].id == w.workers[i].id;
    }
  }

  lemma LaunchKeepsOwned(w: World, c: Candidate)
    ensures OwnershipKept(w, Launch(w, c))
  {
    var w' := Launch(w, c);
    forall i | 0 <= i < |w.workers| ensures exists k :: 0 <= k < |w'.workers| && w'.workers[k].id == w.workers[i].id {
      assert w'.workers[i].id == w.workers[i].id;
    }
    if w' != w {
      assert w'.workers[|w.workers|].id == w.nextId + 1;
    }
  }

  lemma ReapKeepsOwned(w: World, i: nat)
    requires Reapable(w, i)
    ensures OwnershipKept(w, Reap(w, i))
  {
    var o, popped := w.workers[i], w.(workers := SwapRemove(w.workers, i));
    var w' := Reap(w, i);
    HandleKeepsThreads(popped, Failed(o.id, o.path));
    HandleIgnoresWorkers(popped, Failed(o.id, o.path), popped.workers);
    SwapRemoveElements(w.workers, i);
    forall k | 0 <= k < |w.workers| && w.workers[k].id in w'.threads && !Finished(w'.threads[w.workers[k].id])
      ensures exists j :: 0 <= j < |w'.workers| && w'.workers[j].id == w.workers[k].id
    {
      var j := if k == |w.workers| - 1 then i else k;
      assert w'.workers[j].id == w.workers[k].id;
    }
  }

  lemma StepKeepsOwned(w: World, l: Label)
    requires UnfinishedAreOwned(w)
    ensures UnfinishedAreOwned(Step(w, l))
  {
    if l.LLaunch? {
      LaunchKeepsOwned(w, l.candidate);
      KeptStaysOwned(w, Step(w, l));
    } else if l.LReap? {
      if Reapable(w, l.index) {
        ReapKeepsOwned(w, l.index);
        KeptStaysOwned(w, Step(w, l));
      }
    } else {
      ThreadsMoveOn(w, l);
      SameWorkersOwned(w, Step(w, l));
      KeptStaysOwned(w, Step(w, l));
    }
  }

  lemma ThreadsMoveOn(w: World, l: Label)
    requires !l.LLaunch? && !l.LReap?
    ensures Step(w, l).workers == w.workers
    ensures forall id :: id in Step(w, l).threads && !Finished(Step(w, l).threads[id]) ==>
              id in w.threads && !Finished(w.threads[id])
  {
    if l.LProcess? {
      if w.reports != [] {
        HandleKeepsThreads(w.(reports := w.reports[1..]), w.reports[0]);
        HandleIgnoresWorkers(w.(reports := w.reports[1..]), w.reports[0], w.workers);
      }
    } else if l.LReturn? || l.LPanic? {
      EndMovesOn(w, l);
    }
  }

  lemma EndMovesOn(w: World, l: Label)
    requires l.LReturn? || l.LPanic?
    ensures Step(w, l).workers == w.workers
    ensures forall id :: id in Step(w, l).threads && !Finished(Step(w, l).threads[id]) ==>
              id in w.threads && !Finished(w.threads[id])
  {
  }

  /** In every reachable state every thread that has not finished is owned, so shutdown can wait for all of them. */
  lemma {:induction false} UnfinishedThreadsAreOwned(w: World, labels: seq<Label>)
    requires UnfinishedAreOwned(w)
    ensures UnfinishedAreOwned(Run(w, labels))
    decreases |labels|
  {
    if labels != [] {
      StepKeepsOwned(w, labels[0]);
      UnfinishedThreadsAreOwned(Step(w, labels[0]), labels[1..]);
    }
  }

  /** Nothing a step does changes which path and device an id stands for. */
  ghost predicate IdsKept(w: World, w': World) {
    && w.nextId <= w'.nextId
    && forall id :: id in w.threads ==>
         id in w'.threads && w'.threads[id].path == w.threads[id].path && w'.threads[id].device == w.threads[id].device
  }

  lemma HandleKeepsThreads(w: World, r: Report)
    ensures Handle(w, r).threads == w.threads && Handle(w, r).nextId == w.nextId
  {
  }

  predicate ThreadStep(l: Label) {
    l.LConnect? || l.LInput? || l.LReturn? || l.LReport? || l.LPanic? || l.LReceive? || l.LSubmit?
  }

  /** The supervisor's own collections and stream are untouched. */
  ghost predicate Quiet(w: World, w': World) {
    IdsKept(w, w') && w'.launched == w.launched && w'.active == w.active && w'.events == w.events
  }

  lemma QueueStepKeeps(w: World, l: Label)
    requires l.LReceive? || l.LSubmit?
    ensures Quiet(w, Step(w, l))
  {
  }

  lemma StartStepKeeps(w: World, l: Label)
    requires l.LConnect? || l.LInput?
    ensures Quiet(w, Step(w, l))
  {
  }

  lemma EndStepKeeps(w: World, l: Label)
    requires l.LReturn? || l.LPanic?
    ensures Quiet(w, Step(w, l))
  {
  }

  lemma ReportStepKeeps(w: World, id: WorkerId)
    ensures Quiet(w, ThreadReport(w, id))
  {
  }

  lemma ThreadStepKeeps(w: World, l: Label)
    requires ThreadStep(l)
    ensures Quiet(w, Step(w, l))
  {
    if l.LReceive? || l.LSubmit? {
      QueueStepKeeps(w, l);
    } else if l.LConnect? || l.LInput? {
      StartStepKeeps(w, l);
    } else if l.LReport? {
      ReportStepKeeps(w, l.id);
    } else {
      EndStepKeeps(w, l);
    }
  }

  lemma StepKeepsIds(w: World, l: Label)
    requires Numbered(w)
    ensures IdsKept(w, Step(w, l))
  {
    if ThreadStep(l) {
      ThreadStepKeeps(w, l);
    } else if l.LProcess? && w.reports != [] {
      HandleKeepsThreads(w.(reports := w.reports[1..]), w.reports[0]);
    } else if l.LReap? && Reapable(w, l.index) {
      var o := w.workers[l.index];
      HandleKeepsThreads(w.(workers := SwapRemove(w.workers, l.index)), Failed(o.id, o.path));
    }
  }

  /** Worker ids only grow and are never given to another path or device. */
  lemma {:induction false} IdsNeverReused(w: World, labels: seq<Label>)
    requires Inv(w)
    ensures IdsKept(w, Run(w, labels))
    decreases |labels|
  {
    if labels != [] {
      StepKeepsInv(w, labels[0]);
      StepKeepsIds(w, labels[0]);
      IdsNeverReused(Step(w, labels[0]), labels[1..]);
    }
  }

  /** Only the current worker of a path makes the supervisor say anything about it. */
  lemma StaleWorkersAreSilent(w: World)
    requires w.reports != []
    ensures var r := w.reports[0];
            Process(w).events != w.events ==> Current(w, r.id, r.path)
    ensures w.events <= Process(w).events
  {
  }

  /** What handling report `r` makes of the world: current workers are heard, stale ones told to stop. */
  ghost predicate Heard(w: World, w': World, r: Report) {
    && (r.Connected? && r.path in w.launched && w.launched[r.path].id == r.id ==>
          && w'.events == w.events + [DeviceConnected(r.path, r.device, r.id)]
          && r.path in w'.active && w'.active[r.path] == Active(r.id, r.device, r.id) && r.path !in w'.launched)
    && (r.Connected? && !(r.path in w.launched && w.launched[r.path].id == r.id) ==>
          w'.events == w.events && Halted(w', r.id))
    && (r.Input? && r.path in w.active && w.active[r.path].id == r.id ==>
          w'.events == w.events + [DeviceInput(r.device, r.body)])
    && (r.Terminal() && r.path in w.active && w.active[r.path].id == r.id ==>
          && r.path !in w'.active
          && w'.events == w.events + [DeviceDisconnected(r.path, w.active[r.path].device)]
                          + if r.Failed? then [WorkerFailed(r.path)] else [])
    && (r.Terminal() && r.path in w.launched && w.launched[r.path].id == r.id ==>
          && r.path !in w'.launched
          && w'.events == w.events + if r.Failed? then [WorkerFailed(r.path)] else [])
  }

  lemma HeadIsHeard(w: World)
    requires Books(w) && w.reports != []
    ensures Heard(w, Process(w), w.reports[0])
  {
    assert ReportTrue(w, w.reports[0]);
  }

  /**
   * In every reachable state, connecting opens the path of the current worker,
   * each of its inputs is passed on, and its terminal report closes the path.
   */
  lemma CurrentWorkersAreHeard(labels: seq<Label>)
    requires Run(INITIAL, labels).reports != []
    ensures var w := Run(INITIAL, labels); Heard(w, Process(w), w.reports[0])
  {
    InitialInv();
    RunKeepsInv(INITIAL, labels);
    HeadIsHeard(Run(INITIAL, labels));
  }

  /** The emitted stream is well formed, and the paths it leaves open are the active ones. */
  lemma EventStreamMatchesActive(labels: seq<Label>)
    ensures var w := Run(INITIAL, labels);
            WellFormedStream(w.events) && Replay(w.events) == Some(OpenView(w.active))
  {
    InitialInv();
    RunKeepsInv(INITIAL, labels);
  }

  // ---------------------------------------------------------------- routing

  ghost predicate HasEntry(w: World, path: Path) {
    path in w.launched || path in w.active
  }

  ghost function EntryDevice(w: World, path: Path): DeviceId
    requires EntriesTrue(w) && HasEntry(w, path)
  {
    if path in w.active then w.active[path].device else w.threads[w.launched[path].id].device
  }

  /** No two current entries stand for one device. */
  ghost predicate EntriesApart(w: World)
    requires EntriesTrue(w)
  {
    forall p, p' :: HasEntry(w, p) && HasEntry(w, p') && p != p' ==> EntryDevice(w, p) != EntryDevice(w, p')
  }

  /** The candidate's hardware id is not that of a current entry. */
  ghost predicate FreshDevice(w: World, c: Candidate)
    requires EntriesTrue(w)
  {
    forall p :: HasEntry(w, p) ==> EntryDevice(w, p) != c.device
  }

  /** Every worker launched along the run is for a device no current entry stands for. */
  ghost predicate FreshRun(w: World, labels: seq<Label>)
    requires Inv(w)
    decreases |labels|
  {
    labels == [] ||
    (&& (labels[0].LLaunch? && !Managed(w, labels[0].candidate.path) ==> FreshDevice(w, labels[0].candidate))
     && (StepKeepsInv(w, labels[0]); FreshRun(Step(w, labels[0]), labels[1..])))
  }

  /** Entries come only from launching; processing and reaping keep, move or drop them. */
  ghost predicate EntriesInherited(w: World, w': World)
    requires EntriesTrue(w) && EntriesTrue(w')
  {
    forall p :: HasEntry(w', p) ==> HasEntry(w, p) && EntryDevice(w', p) == EntryDevice(w, p)
  }

  lemma StepInherits(w: World, l: Label)
    requires Inv(w) && Inv(Step(w, l)) && !l.LLaunch?
    ensures EntriesInherited(w, Step(w, l))
  {
    if ThreadStep(l) {
      ThreadStepKeeps(w, l);
      KeptInherits(w, Step(w, l));
    } else if l.LProcess? {
      ProcessInherits(w);
    } else if l.LReap? {
      ReapInherits(w, l.index);
    } else {
      DropInherits(w, l);
    }
  }

  lemma KeptInherits(w: World, w': World)
    requires EntriesTrue(w) && EntriesTrue(w') && IdsKept(w, w') && w'.launched == w.launched && w'.active == w.active
    ensures EntriesInherited(w, w')
  {
  }

  lemma DropInherits(w: World, l: Label)
    requires EntriesTrue(w) && EntriesTrue(Step(w, l)) && (l.LDropActive? || l.LDropLaunched?)
    ensures EntriesInherited(w, Step(w, l))
  {
  }

  lemma HandleInherits(w: World, r: Report)
    requires EntriesTrue(w) && EntriesTrue(Handle(w, r)) && ReportTrue(w, r)
    ensures EntriesInherited(w, Handle(w, r))
  {
  }

  lemma ProcessInherits(w: World)
    requires EntriesTrue(w) && ReportsTrue(w) && EntriesTrue(Process(w))
    ensures EntriesInherited(w, Process(w))
  {
    if w.reports != [] {
      assert ReportTrue(w, w.reports[0]);
      HandleIgnoresFifo(w, w.reports[0], w.reports[1..]);
      HandleInherits(w, w.reports[0]);
    }
  }

  lemma ReapInherits(w: World, i: nat)
    requires OwnedApart(w) && EntriesTrue(w) && EntriesTrue(Reap(w, i))
    ensures EntriesInherited(w, Reap(w, i))
  {
    if Reapable(w, i) && w.threads[w.workers[i].id].phase.Panicked? {
      var o := w.workers[i];
      HandleIgnoresWorkers(w, Failed(o.id, o.path), SwapRemove(w.workers, i));
      FailedInherits(w, o.id, o.path);
    }
  }

  lemma FailedInherits(w: World, id: WorkerId, path: Path)
    requires EntriesTrue(w) && EntriesTrue(Handle(w, Failed(id, path)))
    ensures EntriesInherited(w, Handle(w, Failed(id, path)))
  {
  }

  lemma InheritedApart(w: World, w': World)
    requires EntriesTrue(w) && EntriesTrue(w') && EntriesInherited(w, w') && EntriesApart(w)
    ensures EntriesApart(w')
  {
  }

  lemma LaunchApart(w: World, c: Candidate)
    requires Inv(w) && EntriesTrue(Launch(w, c)) && EntriesApart(w) && !Managed(w, c.path) && FreshDevice(w, c)
    ensures EntriesApart(Launch(w, c))
  {
    var w' := Launch(w, c);
    forall p | HasEntry(w', p) ensures if p == c.path then EntryDevice(w', p) == c.device
                                       else HasEntry(w, p) && EntryDevice(w', p) == EntryDevice(w, p) {
    }
  }

  lemma StepKeepsApart(w: World, l: Label)
    requires Inv(w) && Inv(Step(w, l)) && EntriesApart(w)
    requires l.LLaunch? && !Managed(w, l.candidate.path) ==> FreshDevice(w, l.candidate)
    ensures EntriesApart(Step(w, l))
  {
    if l.LLaunch? {
      if !Managed(w, l.candidate.path) {
        LaunchApart(w, l.candidate);
      }
    } else {
      StepInherits(w, l);
      InheritedApart(w, Step(w, l));
    }
  }

  /** The streams before and after a step differ by at most two events, the last of which changes no path. */
  ghost predicate OneChange(es: seq<Event>, es': seq<Event>) {
    || es' == es
    || (es' != [] && es' == es + [es'[|es'| - 1]])
    || (|es'| == |es| + 2 && es'[|es'| - 1].WorkerFailed? && es' == es + [es'[|es|]] + [es'[|es| + 1]])
  }

  lemma HandleChangesOnce(w: World, r: Report)
    ensures OneChange(w.events, Handle(w, r).events)
  {
  }

  lemma StepChangesOnce(w: World, l: Label)
    ensures OneChange(w.events, Step(w, l).events)
  {
    if ThreadStep(l) {
      ThreadStepKeeps(w, l);
    } else if l.LProcess? && w.reports != [] {
      HandleChangesOnce(w.(reports := w.reports[1..]), w.reports[0]);
    } else if l.LReap? && Reapable(w, l.index) {
      var o := w.workers[l.index];
      HandleChangesOnce(w.(workers := SwapRemove(w.workers, l.index)), Failed(o.id, o.path));
    }
  }

  /** Devices stay apart in the stream exactly as long as they do among the active workers. */
  lemma StepApartIff(es: seq<Event>, es': seq<Event>)
    requires OneChange(es, es') && WellFormedStream(es) && WellFormedStream(es')
    ensures DevicesKeptApart(es') <==> DevicesKeptApart(es) && DistinctDevices(Replay(es').value)
  {
    if |es'| == |es| + 1 {
      assert es'[..|es'| - 1] == es;
    } else if |es'| == |es| + 2 {
      var mid := es + [es'[|es|]];
      assert es'[..|es'| - 1] == mid && mid[..|mid| - 1] == es;
      assert Replay(mid) == Replay(es');
    }
  }

  lemma ActiveDevicesApart(w: World)
    requires EntriesTrue(w) && EntriesApart(w)
    ensures DistinctDevices(OpenView(w.active))
  {
    forall p, p' | p in w.active && p' in w.active && p != p' ensures w.active[p].device != w.active[p'].device {
      assert HasEntry(w, p) && HasEntry(w, p');
      assert EntryDevice(w, p) == w.active[p].device && EntryDevice(w, p') == w.active[p'].device;
    }
  }

  lemma StepKeepsStreamApart(w: World, l: Label)
    requires WellFormedStream(w.events) && DevicesKeptApart(w.events)
    requires EntriesTrue(Step(w, l)) && StreamTrue(Step(w, l)) && EntriesApart(Step(w, l))
    ensures DevicesKeptApart(Step(w, l).events)
  {
    var w' := Step(w, l);
    StepChangesOnce(w, l);
    ActiveDevicesApart(w');
    StepApartIff(w.events, w'.events);
  }

  lemma {:induction false} FreshRunsKeepDevicesApart(w: World, labels: seq<Label>)
    requires Inv(w) && FreshRun(w, labels) && EntriesApart(w) && DevicesKeptApart(w.events)
    ensures var w' := Run(w, labels); Inv(w') && EntriesApart(w') && DevicesKeptApart(w'.events)
    decreases |labels|
  {
    if labels != [] {
      StepKeepsInv(w, labels[0]);
      StepKeepsApart(w, labels[0]);
      StepKeepsStreamApart(w, labels[0]);
      FreshRunsKeepDevicesApart(Step(w, labels[0]), labels[1..]);
    }
  }

  /**
   * Once the event loop has consumed every emitted event, its table maps
   * exactly the active device ids, each to its current worker's queue; and the
   * table is such an index after every prefix.
   */
  lemma RoutingTableIsExact(labels: seq<Label>)
    requires Inv(INITIAL) && FreshRun(INITIAL, labels)
    ensures var w := Run(INITIAL, labels);
            && WellFormedStream(w.events) && AlwaysExact(w.events)
            && (forall p :: p in w.active ==>
                  w.active[p].device in Route(w.events) && Route(w.events)[w.active[p].device] == w.active[p].queue)
            && (forall d :: d in Route(w.events) ==> exists p :: p in w.active && w.active[p].device == d)
  {
    InitialInv();
    FreshRunsKeepDevicesApart(INITIAL, labels);
    var w := Run(INITIAL, labels);
    RoutingIsExactIff(w.events);
    var open := OpenView(w.active);
    assert ExactIndex(Route(w.events), open);
    forall p | p in w.active
      ensures w.active[p].device in Route(w.events) && Route(w.events)[w.active[p].device] == w.active[p].queue
    {
      assert p in open;
    }
    forall d | d in Route(w.events) ensures exists p :: p in w.active && w.active[p].device == d {
      var p :| p in open && open[p].device == d;
      assert p in w.active && w.active[p].device == d;
    }
  }

  // ---------------------------------------------------------------- exactly when the table is exact

  /** No two active workers ever stand for one device, before, during and after the run. */
  ghost predicate ActiveApartAlong(w: World, labels: seq<Label>)
    decreases |labels|
  {
    && DistinctDevices(OpenView(w.active))
    && (labels == [] || ActiveApartAlong(Step(w, labels[0]), labels[1..]))
  }

  lemma {:induction false} RunApartIff(w: World, labels: seq<Label>)
    requires Inv(w)
    ensures Inv(Run(w, labels))
    ensures DevicesKeptApart(Run(w, labels).events) <==> DevicesKeptApart(w.events) && ActiveApartAlong(w, labels)
    decreases |labels|
  {
    if labels == [] {
      ApartNow(w.events);
    } else {
      StepKeepsInv(w, labels[0]);
      StepChangesOnce(w, labels[0]);
      StepApartIff(w.events, Step(w, labels[0]).events);
      RunApartIff(Step(w, labels[0]), labels[1..]);
      ApartNow(w.events);
      HeadApart(Step(w, labels[0]), labels[1..]);
    }
  }

  lemma ApartNow(es: seq<Event>)
    requires WellFormedStream(es)
    ensures DevicesKeptApart(es) ==> DistinctDevices(Replay(es).value)
  {
  }

  lemma HeadApart(w: World, labels: seq<Label>)
    ensures ActiveApartAlong(w, labels) ==> DistinctDevices(OpenView(w.active))
  {
  }

  /**
   * In every run of the supervisor the routing table is an exact index of the
   * open devices after every prefix of the stream if and only if no two active
   * workers ever stand for one device.
   */
  lemma RoutingIsExactIffActiveApart(labels: seq<Label>)
    ensures var es := Run(INITIAL, labels).events;
            WellFormedStream(es) && (AlwaysExact(es) <==> ActiveApartAlong(INITIAL, labels))
  {
    InitialInv();
    RunApartIff(INITIAL, labels);
    RoutingIsExactIff(Run(INITIAL, labels).events);
  }

  /** Two panels with one hardware id, both connected; then the first is unplugged. */
  function SharedRun(device: DeviceId): seq<Label> {
    [LLaunch(Candidate("a", device)), LLaunch(Candidate("b", device)), LConnect(1), LConnect(2)] +
    [LProcess, LProcess, LDropActive("a")]
  }

  /** Both workers have reported Connected, and neither report has been handled. */
  lemma BothHaveReported(device: DeviceId)
    ensures var w := Run(INITIAL, SharedRun(device)[..4]);
            && w.launched == map["a" := Launched(1, 1), "b" := Launched(2, 2)] && w.active == map[] && w.events == []
            && w.reports == [Connected(1, "a", device, 1), Connected(2, "b", device, 2)]
  {
    var labels := [LLaunch(Candidate("a", device)), LLaunch(Candidate("b", device)), LConnect(1), LConnect(2)];
    assert SharedRun(device)[..4] == labels;
    var w1 := Launch(INITIAL, Candidate("a", device));
    var w2 := Launch(w1, Candidate("b", device));
    assert w1.workers == [Owned(1, "a", 1)];
    assert !Managed(w1, "b");
    assert w2.launched == map["a" := Launched(1, 1), "b" := Launched(2, 2)];
    var w3 := ThreadConnect(w2, 1);
    assert labels[1..] == [labels[1], labels[2], labels[3]] && labels[1..][1..] == [labels[2], labels[3]];
    assert [labels[2], labels[3]][1..] == [labels[3]] && [labels[3]][1..] == [];
    assert Run(w3, [labels[3]]) == ThreadConnect(w3, 2);
    assert Run(w2, [labels[2], labels[3]]) == Run(w3, [labels[3]]);
    assert Run(w1, labels[1..]) == Run(w2, labels[1..][1..]);
  }

  lemma BothAreHandled(w: World, device: DeviceId)
    requires w.launched == map["a" := Launched(1, 1), "b" := Launched(2, 2)] && w.active == map[] && w.events == []
    requires w.reports == [Connected(1, "a", device, 1), Connected(2, "b", device, 2)]
    ensures var w' := Process(Process(w));
            && w'.active == map["a" := Active(1, device, 1), "b" := Active(2, device, 2)]
            && w'.events == [DeviceConnected("a", device, 1)] + [DeviceConnected("b", device, 2)]
  {
    var w1 := Process(w);
    assert w1.active == map["a" := Active(1, device, 1)] && w1.launched == map["b" := Launched(2, 2)];
    assert w1.reports == [Connected(2, "b", device, 2)];
  }

  lemma FirstIsUnplugged(w: World, device: DeviceId)
    requires w.active == map["a" := Active(1, device, 1), "b" := Active(2, device, 2)]
    requires w.events == [DeviceConnected("a", device, 1)] + [DeviceConnected("b", device, 2)]
    ensures var w' := DropActive(w, "a");
            && w'.active == map["b" := Active(2, device, 2)]
            && w'.events == [DeviceConnected("a", device, 1), DeviceConnected("b", device, 2), DeviceDisconnected("a", device)]
  {
    assert w.active - {"a"} == map["b" := Active(2, device, 2)];
  }

  lemma RunThree(w: World, a: Label, b: Label, c: Label)
    ensures Run(w, [a, b, c]) == Step(Step(Step(w, a), b), c)
  {
    assert [a, b, c][1..] == [b, c] && [b, c][1..] == [c] && [c][1..] == [];
    assert Run(Step(Step(w, a), b), [c]) == Step(Step(Step(w, a), b), c);
    assert Run(Step(w, a), [b, c]) == Run(Step(Step(w, a), b), [c]);
  }

  lemma HandledThenUnplugged(w: World, device: DeviceId)
    requires w.launched == map["a" := Launched(1, 1), "b" := Launched(2, 2)] && w.active == map[] && w.events == []
    requires w.reports == [Connected(1, "a", device, 1), Connected(2, "b", device, 2)]
    ensures var w' := Run(w, [LProcess, LProcess, LDropActive("a")]);
            && w'.active == map["b" := Active(2, device, 2)]
            && w'.events == [DeviceConnected("a", device, 1), DeviceConnected("b", device, 2), DeviceDisconnected("a", device)]
  {
    RunThree(w, LProcess, LProcess, LDropActive("a"));
    BothAreHandled(w, device);
    FirstIsUnplugged(Process(Process(w)), device);
  }

  /**
   * The supervisor does emit such a stream: with two panels of one hardware id,
   * unplugging the first leaves the second active, connected and without a route.
   */
  lemma SupervisorLosesARoute(device: DeviceId)
    ensures var w := Run(INITIAL, SharedRun(device));
            w.active == map["b" := Active(2, device, 2)] && Route(w.events) == map[]
  {
    BothHaveReported(device);
    RunConcat(INITIAL, SharedRun(device)[..4], [LProcess, LProcess, LDropActive("a")]);
    HandledThenUnplugged(Run(INITIAL, SharedRun(device)[..4]), device);
    SharedDeviceLosesARoute(device);
  }
}
