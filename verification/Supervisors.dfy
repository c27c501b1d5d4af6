/**
 * The USB supervisor, its worker threads and the channels between them as a
 * state machine. Each loop body of the supervisor is one step, so worker
 * threads may act between any two of them; reports arrive late, in order.
 */
module Supervisors {
  import opened Basics
  import opened EventStreams
  import C = Commands
  import Q = CommandQueues

  datatype Candidate = Candidate(path: Path, device: DeviceId)

  datatype Report =
    | Connected(id: WorkerId, path: Path, device: DeviceId, queue: WorkerId)
    | Input(id: WorkerId, path: Path, device: DeviceId, body: Body)
    | Disconnected(id: WorkerId, path: Path, device: DeviceId)
    | Failed(id: WorkerId, path: Path)
  {
    predicate Terminal() {
      Disconnected? || Failed?
    }
  }

  datatype Launched = Launched(id: WorkerId, queue: WorkerId)
  datatype Active = Active(id: WorkerId, device: DeviceId, queue: WorkerId)
  datatype Owned = Owned(id: WorkerId, path: Path, queue: WorkerId)

  /** A worker thread: opening its device, serving, returned from its loop, reported, or panicked. */
  datatype ThreadPhase = Opening | Serving | Returned(clean: bool) | Reported | Panicked
  datatype Thread = Thread(path: Path, device: DeviceId, phase: ThreadPhase)

  datatype World = World(
    nextId: nat,
    launched: map<Path, Launched>,
    active: map<Path, Active>,
    workers: seq<Owned>,
    threads: map<WorkerId, Thread>,
    channels: map<WorkerId, Q.QueueState>,
    reports: seq<Report>,
    events: seq<Event>)

  const INITIAL := World(0, map[], map[], [], map[], map[], [], [])

  // ---------------------------------------------------------------- supervisor steps

  function SendTo(w: World, queue: WorkerId, c: C.Command): World {
    if queue in w.channels then w.(channels := w.channels[queue := Q.Send(w.channels[queue], c)]) else w
  }

  function Emit(w: World, e: Event): World {
    w.(events := w.events + [e])
  }

  /** An active path is gone from the bus: stop its worker and announce the disconnect. */
  function DropActive(w: World, path: Path): World {
    if path !in w.active then w
    else
      var entry := w.active[path];
      Emit(SendTo(w.(active := w.active - {path}), entry.queue, C.Stop), DeviceDisconnected(path, entry.device))
  }

  function DropLaunched(w: World, path: Path): World {
    if path !in w.launched then w
    else SendTo(w.(launched := w.launched - {path}), w.launched[path].queue, C.Stop)
  }

  predicate Owns(workers: seq<Owned>, path: Path) {
    exists i :: 0 <= i < |workers| && workers[i].path == path
  }

  predicate Managed(w: World, path: Path) {
    path in w.active || path in w.launched || Owns(w.workers, path)
  }

  /** A path nobody manages gets a fresh worker with a fresh queue. */
  function Launch(w: World, c: Candidate): World {
    if Managed(w, c.path) then w
    else
      var id := w.nextId + 1;
      w.(nextId := id,
         launched := w.launched[c.path := Launched(id, id)],
         workers := w.workers + [Owned(id, c.path, id)],
         threads := w.threads[id := Thread(c.path, c.device, Opening)],
         channels := w.channels[id := Q.FRESH])
  }

  function Handle(w: World, r: Report): World {
    match r
    case Connected(id, path, device, queue) =>
      if path !in w.launched || w.launched[path].id != id then SendTo(w, queue, C.Stop)
      else
        Emit(w.(launched := w.launched - {path},
                active := w.active[path := Active(id, device, w.launched[path].queue)]),
             DeviceConnected(path, device, queue))
    case Input(id, path, device, body) =>
      if path !in w.active || w.active[path].id != id || w.active[path].device != device then w
      else Emit(w, DeviceInput(device, body))
    case Disconnected(id, path, device) =>
      if path in w.active then
        if w.active[path].id == id && w.active[path].device == device then
          Emit(w.(active := w.active - {path}), DeviceDisconnected(path, device))
        else w
      else if path in w.launched && w.launched[path].id == id then w.(launched := w.launched - {path})
      else w
    case Failed(id, path) =>
      if path in w.active then
        if w.active[path].id == id then
          Emit(Emit(w.(active := w.active - {path}), DeviceDisconnected(path, w.active[path].device)), WorkerFailed(path))
        else w
      else if path in w.launched && w.launched[path].id == id then
        Emit(w.(launched := w.launched - {path}), WorkerFailed(path))
      else w
  }

  function Process(w: World): World {
    if w.reports == [] then w else Handle(w.(reports := w.reports[1..]), w.reports[0])
  }

  function SwapRemove(workers: seq<Owned>, i: nat): seq<Owned>
    requires i < |workers|
  {
    workers[i := workers[|workers| - 1]][..|workers| - 1]
  }

  predicate Finished(t: Thread) {
    t.phase.Reported? || t.phase.Panicked?
  }

  predicate Reapable(w: World, i: nat) {
    i < |w.workers| && w.workers[i].id in w.threads && Finished(w.threads[w.workers[i].id])
  }

  /** A finished thread is joined; a panic stands in for the report it never sent. */
  function Reap(w: World, i: nat): World {
    if !Reapable(w, i) then w
    else
      var worker := w.workers[i];
      var w' := w.(workers := SwapRemove(w.workers, i));
      if w.threads[worker.id].phase.Panicked? then Handle(w', Failed(worker.id, worker.path)) else w'
  }

  // ---------------------------------------------------------------- thread steps

  function SetPhase(w: World, id: WorkerId, phase: ThreadPhase): World
    requires id in w.threads
  {
    w.(threads := w.threads[id := w.threads[id].(phase := phase)])
  }

  function Enqueue(w: World, r: Report): World {
    w.(reports := w.reports + [r])
  }

  predicate Live(w: World, id: WorkerId) {
    id in w.threads && (w.threads[id].phase.Opening? || w.threads[id].phase.Serving?)
  }

  function DropReceiver(w: World, id: WorkerId): World {
    if id in w.channels then w.(channels := w.channels[id := w.channels[id].(receiverAlive := false)]) else w
  }

  function ThreadConnect(w: World, id: WorkerId): World {
    if id !in w.threads || !w.threads[id].phase.Opening? then w
    else Enqueue(SetPhase(w, id, Serving), Connected(id, w.threads[id].path, w.threads[id].device, id))
  }

  function ThreadInput(w: World, id: WorkerId, body: Body): World {
    if id !in w.threads || !w.threads[id].phase.Serving? then w
    else Enqueue(w, Input(id, w.threads[id].path, w.threads[id].device, body))
  }

  function ThreadReturn(w: World, id: WorkerId, clean: bool): World {
    if !Live(w, id) then w else DropReceiver(SetPhase(w, id, Returned(clean)), id)
  }

  function ThreadReport(w: World, id: WorkerId): World {
    if id !in w.threads || !w.threads[id].phase.Returned? then w
    else
      var t := w.threads[id];
      Enqueue(SetPhase(w, id, Reported),
              if t.phase.clean then Disconnected(id, t.path, t.device) else Failed(id, t.path))
  }

  function ThreadPanic(w: World, id: WorkerId): World {
    if !Live(w, id) then w else DropReceiver(SetPhase(w, id, Panicked), id)
  }

  function ThreadReceive(w: World, id: WorkerId): World {
    if !Live(w, id) || id !in w.channels then w
    else w.(channels := w.channels[id := Q.TryRecv(w.channels[id]).0])
  }

  datatype Label =
    | LDropActive(path: Path)
    | LDropLaunched(path: Path)
    | LLaunch(candidate: Candidate)
    | LProcess
    | LReap(index: nat)
    | LConnect(id: WorkerId)
    | LInput(id: WorkerId, body: Body)
    | LReturn(id: WorkerId, clean: bool)
    | LReport(id: WorkerId)
    | LPanic(id: WorkerId)
    | LReceive(id: WorkerId)
    | LSubmit(queue: WorkerId, command: C.Command)

  function Step(w: World, l: Label): World {
    match l
    case LDropActive(path) => DropActive(w, path)
    case LDropLaunched(path) => DropLaunched(w, path)
    case LLaunch(candidate) => Launch(w, candidate)
    case LProcess => Process(w)
    case LReap(index) => Reap(w, index)
    case LConnect(id) => ThreadConnect(w, id)
    case LInput(id, body) => ThreadInput(w, id, body)
    case LReturn(id, clean) => ThreadReturn(w, id, clean)
    case LReport(id) => ThreadReport(w, id)
    case LPanic(id) => ThreadPanic(w, id)
    case LReceive(id) => ThreadReceive(w, id)
    case LSubmit(queue, command) => SendTo(w, queue, command)
  }

  function Run(w: World, labels: seq<Label>): World
    decreases |labels|
  {
    if labels == [] then w else Run(Step(w, labels[0]), labels[1..])
  }

  lemma {:induction false} RunConcat(w: World, a: seq<Label>, b: seq<Label>)
    ensures Run(w, a + b) == Run(Run(w, a), b)
    decreases |a|
  {
    if a == [] {
      assert a + b == b;
    } else {
      assert (a + b)[0] == a[0] && (a + b)[1..] == a[1..] + b;
      RunConcat(Step(w, a[0]), a[1..], b);
    }
  }

  // ---------------------------------------------------------------- the invariant

  /** Ids are handed out as 1, 2, 3, ... and never again; each thread has its own queue. */
  ghost predicate Numbered(w: World) {
    && (forall id :: id in w.threads <==> 1 <= id <= w.nextId)
    && w.channels.Keys == w.threads.Keys
  }

  /** Owned workers are threads, with pairwise different ids and paths. */
  ghost predicate OwnedApart(w: World) {
    && (forall i :: 0 <= i < |w.workers| ==>
          var o := w.workers[i]; o.id in w.threads && o.queue == o.id && o.path == w.threads[o.id].path)
    && (forall i, j :: 0 <= i < j < |w.workers| ==>
          w.workers[i].id != w.workers[j].id && w.workers[i].path != w.workers[j].path)
  }

  /** Entries name a thread on their own path, and launched and active paths are disjoint. */
  ghost predicate EntriesTrue(w: World) {
    && (forall p :: p in w.launched ==>
          var e := w.launched[p]; e.id in w.threads && e.queue == e.id && w.threads[e.id].path == p)
    && (forall p :: p in w.active ==>
          var e := w.active[p];
          e.id in w.threads && e.queue == e.id && w.threads[e.id].path == p && w.threads[e.id].device == e.device)
    && w.launched.Keys !! w.active.Keys
  }

  ghost predicate OwnsWorker(workers: seq<Owned>, id: WorkerId, path: Path) {
    exists i :: 0 <= i < |workers| && workers[i].id == id && workers[i].path == path
  }

  ghost predicate TerminalPending(reports: seq<Report>, id: WorkerId) {
    exists k :: 0 <= k < |reports| && reports[k].Terminal() && reports[k].id == id
  }

  /** What will end an entry: its terminal report is in the FIFO, or its worker is still owned. */
  ghost predicate Backed(w: World, id: WorkerId, path: Path)
    requires id in w.threads
  {
    if w.threads[id].phase.Reported? then TerminalPending(w.reports, id) else OwnsWorker(w.workers, id, path)
  }

  ghost predicate EntriesBacked(w: World)
    requires EntriesTrue(w)
  {
    && (forall p :: p in w.launched ==> Backed(w, w.launched[p].id, p))
    && (forall p :: p in w.active ==> Backed(w, w.active[p].id, p))
  }

  ghost predicate Current(w: World, id: WorkerId, path: Path) {
    (path in w.launched && w.launched[path].id == id) || (path in w.active && w.active[path].id == id)
  }

  /** Every owned worker is current for its path, or told to stop, or past its loop. */
  ghost predicate NoneUnmanaged(w: World)
    requires Numbered(w) && OwnedApart(w)
  {
    forall i :: 0 <= i < |w.workers| ==>
      var o := w.workers[i];
      Current(w, o.id, o.path) || w.channels[o.id].stopping || !w.channels[o.id].receiverAlive
  }

  ghost predicate ReceiversTrue(w: World)
    requires Numbered(w)
  {
    forall id :: id in w.threads ==> (w.channels[id].receiverAlive <==> Live(w, id))
  }

  ghost predicate ReportTrue(w: World, r: Report) {
    && r.id in w.threads && r.path == w.threads[r.id].path
    && (!r.Failed? ==> r.device == w.threads[r.id].device)
    && (r.Connected? ==> r.queue == r.id)
    && (r.Terminal() ==> w.threads[r.id].phase.Reported?)
  }

  ghost predicate ReportsTrue(w: World) {
    forall k :: 0 <= k < |w.reports| ==> ReportTrue(w, w.reports[k])
  }

  function OpenView(active: map<Path, Active>): map<Path, Link> {
    map p | p in active :: Link(active[p].device, active[p].queue)
  }

  /** The stream so far is well formed, and its open paths are the active ones. */
  ghost predicate StreamTrue(w: World) {
    WellFormedStream(w.events) && Replay(w.events) == Some(OpenView(w.active))
  }

  ghost predicate Books(w: World) {
    Numbered(w) && OwnedApart(w) && EntriesTrue(w) && ReceiversTrue(w) && ReportsTrue(w)
  }

  ghost predicate Inv(w: World) {
    Books(w) && EntriesBacked(w) && NoneUnmanaged(w) && StreamTrue(w)
  }

  // ---------------------------------------------------------------- preservation: the event stream

  lemma EmitOne(es: seq<Event>, e: Event, open: map<Path, Link>, open': map<Path, Link>)
    requires WellFormedStream(es) && Replay(es) == Some(open)
    requires Extend(open, e) == Some(open') && DistinctQueues(open')
    ensures WellFormedStream(es + [e]) && Replay(es + [e]) == Some(open')
  {
    assert (es + [e])[..|es + [e]| - 1] == es;
  }

  /** Distinct paths have distinct workers, so their queues differ. */
  lemma ActiveQueuesDiffer(w: World)
    requires EntriesTrue(w)
    ensures DistinctQueues(OpenView(w.active))
  {
  }

  lemma CloseKeepsStream(w: World, w': World, path: Path)
    requires EntriesTrue(w) && EntriesTrue(w') && StreamTrue(w) && path in w.active && w'.active == w.active - {path}
    requires w'.events == w.events + [DeviceDisconnected(path, w.active[path].device)]
    ensures StreamTrue(w')
  {
    ActiveQueuesDiffer(w');
    assert OpenView(w'.active) == OpenView(w.active) - {path};
    EmitOne(w.events, DeviceDisconnected(path, w.active[path].device), OpenView(w.active), OpenView(w'.active));
  }

  lemma OpenKeepsStream(w: World, w': World, path: Path, entry: Active)
    requires EntriesTrue(w) && EntriesTrue(w') && StreamTrue(w) && path !in w.active && w'.active == w.active[path := entry]
    requires w'.events == w.events + [DeviceConnected(path, entry.device, entry.queue)]
    ensures StreamTrue(w')
  {
    ActiveQueuesDiffer(w');
    assert OpenView(w'.active) == OpenView(w.active)[path := Link(entry.device, entry.queue)];
    EmitOne(w.events, DeviceConnected(path, entry.device, entry.queue), OpenView(w.active), OpenView(w'.active));
  }

  lemma PassiveKeepsStream(w: World, w': World, e: Event)
    requires EntriesTrue(w) && StreamTrue(w) && w'.active == w.active && w'.events == w.events + [e]
    requires match e
             case DeviceInput(device, _) => exists p :: p in w.active && w.active[p].device == device
             case WorkerFailed(p) => p !in w.active
             case _ => false
    ensures StreamTrue(w')
  {
    ActiveQueuesDiffer(w);
    if e.DeviceInput? {
      var p :| p in w.active && w.active[p].device == e.device;
      assert p in OpenView(w.active) && OpenView(w.active)[p].device == e.device;
    }
    EmitOne(w.events, e, OpenView(w.active), OpenView(w.active));
  }

  // ---------------------------------------------------------------- preservation: what backs an entry

  /** The same threads, owned workers and reports, the same receivers, and no new entries. */
  ghost predicate OnlyFewerEntries(w: World, w': World)
    requires Numbered(w)
  {
    && w'.workers == w.workers && w'.threads == w.threads && w'.reports == w.reports && w'.nextId == w.nextId
    && w'.channels.Keys == w.channels.Keys
    && (forall id :: id in w.threads ==> w'.channels[id].receiverAlive == w.channels[id].receiverAlive)
    && (forall p :: p in w'.launched ==> p in w.launched && w'.launched[p] == w.launched[p])
    && (forall p :: p in w'.active ==> p in w.active && w'.active[p] == w.active[p])
  }

  lemma FewerEntriesBooks(w: World, w': World)
    requires Books(w) && OnlyFewerEntries(w, w')
    ensures Books(w')
  {
    assert EntriesTrue(w');
    forall k | 0 <= k < |w'.reports| ensures ReportTrue(w', w'.reports[k]) {
      assert ReportTrue(w, w.reports[k]);
    }
  }

  /** Removing entries, and nothing that backs the others, keeps the rest backed. */
  lemma FewerEntriesBacked(w: World, w': World)
    requires EntriesTrue(w) && EntriesBacked(w) && EntriesTrue(w')
    requires forall p :: p in w'.launched ==> p in w.launched && w'.launched[p] == w.launched[p]
    requires forall p :: p in w'.active ==> p in w.active && w'.active[p] == w.active[p]
    requires w'.workers == w.workers && w'.threads == w.threads && w'.reports == w.reports
    ensures EntriesBacked(w')
  {
  }

  /** A queue may change freely as long as its receiver and its latch do not go back. */
  lemma ChannelKeepsInv(w: World, queue: WorkerId, q: Q.QueueState)
    requires Inv(w) && queue in w.channels
    requires q.receiverAlive == w.channels[queue].receiverAlive && (w.channels[queue].stopping ==> q.stopping)
    ensures Inv(w.(channels := w.channels[queue := q]))
  {
    var w' := w.(channels := w.channels[queue := q]);
    FewerEntriesBooks(w, w');
    FewerEntriesBacked(w, w');
  }

  lemma SubmitKeepsInv(w: World, queue: WorkerId, c: C.Command)
    requires Inv(w)
    ensures Inv(SendTo(w, queue, c))
  {
    if queue in w.channels {
      ChannelKeepsInv(w, queue, Q.Send(w.channels[queue], c));
    }
  }

  /** Told to stop, or with no receiver left to tell. */
  ghost predicate Halted(w: World, queue: WorkerId) {
    queue in w.channels && (w.channels[queue].stopping || !w.channels[queue].receiverAlive)
  }

  /** An entry may go once its worker is told to stop or past its loop. */
  lemma ForgottenAreHalted(w: World, w': World)
    requires Numbered(w) && OwnedApart(w) && EntriesTrue(w) && NoneUnmanaged(w)
    requires Numbered(w') && OwnedApart(w') && w'.workers == w.workers && w'.channels == w.channels
    requires forall p :: p in w.launched ==> Current(w', w.launched[p].id, p) || Halted(w, w.launched[p].queue)
    requires forall p :: p in w.active ==> Current(w', w.active[p].id, p) || Halted(w, w.active[p].queue)
    ensures NoneUnmanaged(w')
  {
  }

  lemma ForgetActiveKeepsInv(w: World, path: Path)
    requires Inv(w) && path in w.active && Halted(w, w.active[path].queue)
    ensures Inv(Emit(w.(active := w.active - {path}), DeviceDisconnected(path, w.active[path].device)))
  {
    var w' := Emit(w.(active := w.active - {path}), DeviceDisconnected(path, w.active[path].device));
    FewerEntriesBooks(w, w');
    FewerEntriesBacked(w, w');
    ForgottenAreHalted(w, w');
    CloseKeepsStream(w, w', path);
  }

  lemma ForgetLaunchedKeepsInv(w: World, path: Path)
    requires Inv(w) && path in w.launched && Halted(w, w.launched[path].queue)
    ensures Inv(w.(launched := w.launched - {path}))
  {
    var w' := w.(launched := w.launched - {path});
    FewerEntriesBooks(w, w');
    FewerEntriesBacked(w, w');
    ForgottenAreHalted(w, w');
  }

  lemma DropActiveKeepsInv(w: World, path: Path)
    requires Inv(w) && path in w.active
    ensures Inv(DropActive(w, path))
  {
    var told := SendTo(w, w.active[path].queue, C.Stop);
    SubmitKeepsInv(w, w.active[path].queue, C.Stop);
    ForgetActiveKeepsInv(told, path);
  }

  lemma DropLaunchedKeepsInv(w: World, path: Path)
    requires Inv(w) && path in w.launched
    ensures Inv(DropLaunched(w, path))
  {
    var told := SendTo(w, w.launched[path].queue, C.Stop);
    SubmitKeepsInv(w, w.launched[path].queue, C.Stop);
    ForgetLaunchedKeepsInv(told, path);
  }

  lemma MoreWorkersOwn(workers: seq<Owned>, o: Owned, id: WorkerId, path: Path)
    requires OwnsWorker(workers, id, path)
    ensures OwnsWorker(workers + [o], id, path)
  {
    var i :| 0 <= i < |workers| && workers[i].id == id && workers[i].path == path;
    assert (workers + [o])[i] == workers[i];
  }

  lemma LaunchOwns(w: World, c: Candidate)
    requires Numbered(w) && OwnedApart(w) && !Managed(w, c.path)
    ensures Numbered(Launch(w, c)) && OwnedApart(Launch(w, c))
  {
    forall i | 0 <= i < |w.workers| ensures w.workers[i].path != c.path {
    }
  }

  lemma LaunchBooks(w: World, c: Candidate)
    requires Books(w) && !Managed(w, c.path)
    ensures Books(Launch(w, c))
  {
    LaunchOwns(w, c);
    var w' := Launch(w, c);
    assert EntriesTrue(w');
    forall k | 0 <= k < |w'.reports| ensures ReportTrue(w', w'.reports[k]) {
      assert ReportTrue(w, w.reports[k]);
    }
  }

  lemma LaunchBacked(w: World, c: Candidate)
    requires Inv(w) && !Managed(w, c.path) && Books(Launch(w, c))
    ensures EntriesBacked(Launch(w, c))
  {
    var w', id := Launch(w, c), w.nextId + 1;
    assert w'.workers[|w.workers|] == Owned(id, c.path, id);
    forall p | p in w.launched ensures Backed(w', w.launched[p].id, p) {
      if !w.threads[w.launched[p].id].phase.Reported? {
        MoreWorkersOwn(w.workers, Owned(id, c.path, id), w.launched[p].id, p);
      }
    }
    forall p | p in w.active ensures Backed(w', w.active[p].id, p) {
      if !w.threads[w.active[p].id].phase.Reported? {
        MoreWorkersOwn(w.workers, Owned(id, c.path, id), w.active[p].id, p);
      }
    }
  }

  lemma LaunchKeepsInv(w: World, c: Candidate)
    requires Inv(w) && !Managed(w, c.path)
    ensures Inv(Launch(w, c))
  {
    LaunchBooks(w, c);
    LaunchBacked(w, c);
  }

  // ---------------------------------------------------------------- preservation: reports

  /** Taking the head off the FIFO is safe once no entry depends on it. */
  ghost predicate HeadSpent(w: World) {
    w.reports != [] && w.reports[0].Terminal() ==>
      && (forall p :: p in w.launched ==> w.launched[p].id != w.reports[0].id)
      && (forall p :: p in w.active ==> w.active[p].id != w.reports[0].id)
  }

  lemma PendingInTail(reports: seq<Report>, id: WorkerId)
    requires TerminalPending(reports, id) && (!reports[0].Terminal() || reports[0].id != id)
    ensures TerminalPending(reports[1..], id)
  {
    var k :| 0 <= k < |reports| && reports[k].Terminal() && reports[k].id == id;
    assert reports[1..][k - 1] == reports[k];
  }

  lemma PopKeepsInv(w: World)
    requires Inv(w) && w.reports != [] && HeadSpent(w)
    ensures Inv(w.(reports := w.reports[1..]))
  {
    var w' := w.(reports := w.reports[1..]);
    forall p | p in w.launched ensures Backed(w', w.launched[p].id, p) {
      if w.threads[w.launched[p].id].phase.Reported? {
        PendingInTail(w.reports, w.launched[p].id);
      }
    }
    forall p | p in w.active ensures Backed(w', w.active[p].id, p) {
      if w.threads[w.active[p].id].phase.Reported? {
        PendingInTail(w.reports, w.active[p].id);
      }
    }
    assert Books(w');
  }

  lemma ConnectedBooks(w: World, r: Report)
    requires Books(w) && EntriesBacked(w) && ReportTrue(w, r) && r.Connected?
    requires r.path in w.launched && w.launched[r.path].id == r.id
    ensures Books(Handle(w, r)) && EntriesBacked(Handle(w, r))
  {
    var w' := Handle(w, r);
    assert EntriesTrue(w');
    forall k | 0 <= k < |w'.reports| ensures ReportTrue(w', w'.reports[k]) {
      assert ReportTrue(w, w.reports[k]);
    }
  }

  lemma HandleConnectedKeepsInv(w: World, r: Report)
    requires Inv(w) && ReportTrue(w, r) && r.Connected?
    ensures Inv(Handle(w, r))
  {
    var w' := Handle(w, r);
    if r.path in w.launched && w.launched[r.path].id == r.id {
      ConnectedBooks(w, r);
      OpenKeepsStream(w, w', r.path, Active(r.id, r.device, r.id));
      forall i | 0 <= i < |w'.workers|
        ensures var o := w'.workers[i];
                Current(w', o.id, o.path) || w'.channels[o.id].stopping || !w'.channels[o.id].receiverAlive
      {
        assert Current(w, w.workers[i].id, w.workers[i].path) ==> Current(w', w.workers[i].id, w.workers[i].path);
      }
    } else {
      SubmitKeepsInv(w, r.queue, C.Stop);
    }
  }

  lemma HandleInputKeepsInv(w: World, r: Report)
    requires Inv(w) && r.Input?
    ensures Inv(Handle(w, r))
  {
    var w' := Handle(w, r);
    if w' != w {
      FewerEntriesBacked(w, w');
      PassiveKeepsStream(w, w', DeviceInput(r.device, r.body));
    }
  }

  /** A terminal report leaves no entry for its worker, whichever way the branches go. */
  lemma HandleTerminalClears(w: World, r: Report)
    requires Books(w) && r.Terminal() && r.id in w.threads && r.path == w.threads[r.id].path
    requires r.Disconnected? ==> r.device == w.threads[r.id].device
    ensures var w' := Handle(w, r);
            && (forall p :: p in w'.launched ==> w'.launched[p].id != r.id)
            && (forall p :: p in w'.active ==> w'.active[p].id != r.id)
            && w'.workers == w.workers && w'.threads == w.threads && w'.reports == w.reports && w'.channels == w.channels
            && w'.nextId == w.nextId
            && (forall p :: p in w'.launched ==> p in w.launched && w'.launched[p] == w.launched[p])
            && (forall p :: p in w'.active ==> p in w.active && w'.active[p] == w.active[p])
            && (forall p :: p in w.launched && w.launched[p].id != r.id ==> p in w'.launched)
            && (forall p :: p in w.active && w.active[p].id != r.id ==> p in w'.active)
  {
  }

  lemma HandleTerminalKeepsStream(w: World, r: Report)
    requires Books(w) && StreamTrue(w) && r.Terminal() && r.id in w.threads && r.path == w.threads[r.id].path
    requires r.Disconnected? ==> r.device == w.threads[r.id].device
    ensures StreamTrue(Handle(w, r))
  {
    if r.path in w.active && w.active[r.path].id == r.id {
      var closed := Emit(w.(active := w.active - {r.path}), DeviceDisconnected(r.path, w.active[r.path].device));
      CloseKeepsStream(w, closed, r.path);
      if r.Failed? {
        PassiveKeepsStream(closed, Handle(w, r), WorkerFailed(r.path));
      }
    } else if r.path !in w.active && r.path in w.launched && w.launched[r.path].id == r.id && r.Failed? {
      PassiveKeepsStream(w, Handle(w, r), WorkerFailed(r.path));
    }
  }

  lemma HandleTerminalKeepsInv(w: World, r: Report)
    requires Inv(w) && r.Terminal() && r.id in w.threads && r.path == w.threads[r.id].path && !Live(w, r.id)
    requires r.Disconnected? ==> r.device == w.threads[r.id].device
    ensures Inv(Handle(w, r))
  {
    var w' := Handle(w, r);
    HandleTerminalClears(w, r);
    HandleTerminalKeepsStream(w, r);
    FewerEntriesBooks(w, w');
    FewerEntriesBacked(w, w');
    ForgottenAreHalted(w, w');
  }

  lemma ProcessKeepsInv(w: World)
    requires Inv(w) && w.reports != []
    ensures Inv(Process(w))
  {
    var r := w.reports[0];
    assert ReportTrue(w, r);
    if r.Terminal() {
      HandleTerminalKeepsInv(w, r);
      HandleTerminalClears(w, r);
    } else if r.Connected? {
      HandleConnectedKeepsInv(w, r);
    } else {
      HandleInputKeepsInv(w, r);
    }
    HandleIgnoresFifo(w, r, w.reports[1..]);
    PopKeepsInv(Handle(w, r));
  }

  /** Handling reads neither the FIFO nor the list of owned workers. */
  lemma HandleIgnoresFifo(w: World, r: Report, reports: seq<Report>)
    ensures Handle(w.(reports := reports), r) == Handle(w, r).(reports := reports)
    ensures Handle(w, r).reports == w.reports
  {
    var other := w.(reports := reports);
    assert other.launched == w.launched && other.active == w.active && other.channels == w.channels;
    match r {
      case Connected(id, path, device, queue) =>
      case Input(id, path, device, body) =>
      case Disconnected(id, path, device) =>
      case Failed(id, path) =>
    }
  }

  lemma HandleIgnoresWorkers(w: World, r: Report, workers: seq<Owned>)
    ensures Handle(w.(workers := workers), r) == Handle(w, r).(workers := workers)
    ensures Handle(w, r).workers == w.workers
  {
    var other := w.(workers := workers);
    assert other.launched == w.launched && other.active == w.active && other.channels == w.channels;
    match r {
      case Connected(id, path, device, queue) =>
      case Input(id, path, device, body) =>
      case Disconnected(id, path, device) =>
      case Failed(id, path) =>
    }
  }

  // ---------------------------------------------------------------- preservation: reaping

  lemma SwapRemoveElements(workers: seq<Owned>, i: nat)
    requires i < |workers|
    ensures var r := SwapRemove(workers, i);
            && |r| == |workers| - 1
            && (forall k :: 0 <= k < |r| && k != i ==> r[k] == workers[k])
            && (i < |r| ==> r[i] == workers[|r|])
  {
  }

  lemma SwapRemoveOwns(workers: seq<Owned>, i: nat, id: WorkerId, path: Path)
    requires i < |workers| && OwnsWorker(workers, id, path) && workers[i].id != id
    ensures OwnsWorker(SwapRemove(workers, i), id, path)
  {
    SwapRemoveElements(workers, i);
    var k :| 0 <= k < |workers| && workers[k].id == id && workers[k].path == path;
    var at := if k == |workers| - 1 then i else k;
    assert SwapRemove(workers, i)[at] == workers[k];
  }

  lemma RemoveWorkerKeepsInv(w: World, i: nat)
    requires Inv(w) && i < |w.workers| && !Live(w, w.workers[i].id)
    requires w.threads[w.workers[i].id].phase.Reported? ||
             ((forall p :: p in w.launched ==> w.launched[p].id != w.workers[i].id)
              && (forall p :: p in w.active ==> w.active[p].id != w.workers[i].id))
    ensures Inv(w.(workers := SwapRemove(w.workers, i)))
  {
    var w' := w.(workers := SwapRemove(w.workers, i));
    SwapRemoveElements(w.workers, i);
    forall p | p in w.launched ensures Backed(w', w.launched[p].id, p) {
      if !w.threads[w.launched[p].id].phase.Reported? {
        SwapRemoveOwns(w.workers, i, w.launched[p].id, p);
      }
    }
    forall p | p in w.active ensures Backed(w', w.active[p].id, p) {
      if !w.threads[w.active[p].id].phase.Reported? {
        SwapRemoveOwns(w.workers, i, w.active[p].id, p);
      }
    }
    assert Books(w');
  }

  lemma ReapKeepsInv(w: World, i: nat)
    requires Inv(w) && Reapable(w, i)
    ensures Inv(Reap(w, i))
  {
    var worker := w.workers[i];
    if w.threads[worker.id].phase.Panicked? {
      var r := Failed(worker.id, worker.path);
      HandleTerminalKeepsInv(w, r);
      HandleTerminalClears(w, r);
      HandleIgnoresWorkers(w, r, SwapRemove(w.workers, i));
      RemoveWorkerKeepsInv(Handle(w, r), i);
    } else {
      RemoveWorkerKeepsInv(w, i);
    }
  }

  // ---------------------------------------------------------------- preservation: threads

  lemma PendingGrows(reports: seq<Report>, r: Report, id: WorkerId)
    requires TerminalPending(reports, id)
    ensures TerminalPending(reports + [r], id)
  {
    var k :| 0 <= k < |reports| && reports[k].Terminal() && reports[k].id == id;
    assert (reports + [r])[k] == reports[k];
  }

  lemma EnqueueKeepsInv(w: World, r: Report)
    requires Inv(w) && ReportTrue(w, r)
    ensures Inv(Enqueue(w, r))
  {
    var w' := Enqueue(w, r);
    forall p | p in w.launched ensures Backed(w', w.launched[p].id, p) {
      if w.threads[w.launched[p].id].phase.Reported? {
        PendingGrows(w.reports, r, w.launched[p].id);
      }
    }
    forall p | p in w.active ensures Backed(w', w.active[p].id, p) {
      if w.threads[w.active[p].id].phase.Reported? {
        PendingGrows(w.reports, r, w.active[p].id);
      }
    }
    assert Books(w');
  }

  lemma ConnectKeepsInv(w: World, id: WorkerId)
    requires Inv(w) && id in w.threads && w.threads[id].phase.Opening?
    ensures Inv(ThreadConnect(w, id))
  {
    var w' := SetPhase(w, id, Serving);
    assert Books(w');
    EnqueueKeepsInv(w', Connected(id, w.threads[id].path, w.threads[id].device, id));
  }

  lemma EndBooks(w: World, id: WorkerId, phase: ThreadPhase)
    requires Books(w) && Live(w, id) && (phase.Returned? || phase.Panicked?)
    ensures Books(DropReceiver(SetPhase(w, id, phase), id))
  {
    var w' := DropReceiver(SetPhase(w, id, phase), id);
    assert EntriesTrue(w');
    forall k | 0 <= k < |w'.reports| ensures ReportTrue(w', w'.reports[k]) {
      assert ReportTrue(w, w.reports[k]);
    }
  }

  /** What backs an entry and manages a worker survives the end of a worker's loop. */
  lemma EndBacked(w: World, id: WorkerId, phase: ThreadPhase)
    requires Books(w) && EntriesBacked(w) && NoneUnmanaged(w)
    requires Live(w, id) && (phase.Returned? || phase.Panicked?) && Books(DropReceiver(SetPhase(w, id, phase), id))
    ensures var w' := DropReceiver(SetPhase(w, id, phase), id); EntriesBacked(w') && NoneUnmanaged(w')
  {
  }

  lemma EndKeepsInv(w: World, id: WorkerId, phase: ThreadPhase)
    requires Inv(w) && Live(w, id) && (phase.Returned? || phase.Panicked?)
    ensures Inv(DropReceiver(SetPhase(w, id, phase), id))
  {
    EndBooks(w, id, phase);
    EndBacked(w, id, phase);
  }

  lemma ReportBooks(w: World, id: WorkerId)
    requires Books(w) && id in w.threads && w.threads[id].phase.Returned?
    ensures Books(ThreadReport(w, id))
  {
    var w' := ThreadReport(w, id);
    assert EntriesTrue(w');
    forall k | 0 <= k < |w'.reports| ensures ReportTrue(w', w'.reports[k]) {
      if k < |w.reports| {
        assert ReportTrue(w, w.reports[k]);
      }
    }
  }

  lemma ReportBacked(w: World, id: WorkerId, entry: WorkerId, path: Path)
    requires Inv(w) && id in w.threads && w.threads[id].phase.Returned? && entry in w.threads && Backed(w, entry, path)
    ensures Backed(ThreadReport(w, id), entry, path)
  {
    var w' := ThreadReport(w, id);
    var r := w'.reports[|w.reports|];
    assert r.Terminal() && r.id == id;
    if entry != id && w.threads[entry].phase.Reported? {
      PendingGrows(w.reports, r, entry);
    }
  }

  lemma ReportKeepsInv(w: World, id: WorkerId)
    requires Inv(w) && id in w.threads && w.threads[id].phase.Returned?
    ensures Inv(ThreadReport(w, id))
  {
    ReportBooks(w, id);
    forall p | p in w.launched ensures Backed(ThreadReport(w, id), w.launched[p].id, p) {
      ReportBacked(w, id, w.launched[p].id, p);
    }
    forall p | p in w.active ensures Backed(ThreadReport(w, id), w.active[p].id, p) {
      ReportBacked(w, id, w.active[p].id, p);
    }
  }

  lemma ReceiveKeepsInv(w: World, id: WorkerId)
    requires Inv(w)
    ensures Inv(ThreadReceive(w, id))
  {
    if Live(w, id) && id in w.channels {
      ChannelKeepsInv(w, id, Q.TryRecv(w.channels[id]).0);
    }
  }

  // ---------------------------------------------------------------- every run

  lemma {:induction false} StepKeepsInv(w: World, l: Label)
    requires Inv(w)
    ensures Inv(Step(w, l))
  {
    match l {
      case LDropActive(path) =>
        if path in w.active {
          DropActiveKeepsInv(w, path);
        }
      case LDropLaunched(path) =>
        if path in w.launched {
          DropLaunchedKeepsInv(w, path);
        }
      case LLaunch(c) =>
        if !Managed(w, c.path) {
          LaunchKeepsInv(w, c);
        }
      case LProcess =>
        if w.reports != [] {
          ProcessKeepsInv(w);
        }
      case LReap(i) =>
        if Reapable(w, i) {
          ReapKeepsInv(w, i);
        }
      case LConnect(id) =>
        if id in w.threads && w.threads[id].phase.Opening? {
          ConnectKeepsInv(w, id);
        }
      case LInput(id, body) =>
        if id in w.threads && w.threads[id].phase.Serving? {
          EnqueueKeepsInv(w, Input(id, w.threads[id].path, w.threads[id].device, body));
        }
      case LReturn(id, clean) =>
        if Live(w, id) {
          EndKeepsInv(w, id, Returned(clean));
        }
      case LReport(id) =>
        if id in w.threads && w.threads[id].phase.Returned? {
          ReportKeepsInv(w, id);
        }
      case LPanic(id) =>
        if Live(w, id) {
          EndKeepsInv(w, id, Panicked);
        }
      case LReceive(id) => ReceiveKeepsInv(w, id);
      case LSubmit(queue, c) => SubmitKeepsInv(w, queue, c);
    }
  }

  lemma {:induction false} RunKeepsInv(w: World, labels: seq<Label>)
    requires Inv(w)
    ensures Inv(Run(w, labels))
    decreases |labels|
  {
    if labels != [] {
      StepKeepsInv(w, labels[0]);
      RunKeepsInv(Step(w, labels[0]), labels[1..]);
    }
  }

  lemma InitialInv()
    ensures Inv(INITIAL)
  {
    assert OpenView(INITIAL.active) == map[];
  }
}
