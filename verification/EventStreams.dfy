/**
 * The stream of events the supervisor emits, and the routing table the event
 * loop builds from it.
 */
module EventStreams {
  import opened Basics

  type Path = string
  type DeviceId = string
  /** A worker's number; its command queue goes by the same number. */
  type WorkerId = nat
  type Body = nat

  datatype Event =
    | DeviceConnected(path: Path, device: DeviceId, queue: WorkerId)
    | DeviceInput(device: DeviceId, body: Body)
    | DeviceDisconnected(path: Path, device: DeviceId)
    | WorkerFailed(path: Path)

  datatype Link = Link(device: DeviceId, queue: WorkerId)

  // ---------------------------------------------------------------- well-formed streams

  /** The paths open after one more event, or nothing if the event is out of place. */
  function Extend(open: map<Path, Link>, e: Event): Option<map<Path, Link>> {
    match e
    case DeviceConnected(path, device, queue) =>
      if path in open then None else Some(open[path := Link(device, queue)])
    case DeviceInput(device, _) =>
      if exists path :: path in open && open[path].device == device then Some(open) else None
    case DeviceDisconnected(path, device) =>
      if path in open && open[path].device == device then Some(open - {path}) else None
    case WorkerFailed(path) =>
      if path in open then None else Some(open)
  }

  /** The open paths after a stream: connects and disconnects alternate, inputs name an open device. */
  function Replay(es: seq<Event>): Option<map<Path, Link>> {
    if es == [] then Some(map[])
    else
      var open := Replay(es[..|es| - 1]);
      if open.Some? then Extend(open.value, es[|es| - 1]) else None
  }

  // ---------------------------------------------------------------- the routing table

  /** The event loop's command map. */
  function Route(es: seq<Event>): map<DeviceId, WorkerId> {
    if es == [] then map[]
    else
      var table := Route(es[..|es| - 1]);
      match es[|es| - 1]
      case DeviceConnected(_, device, queue) => table[device := queue]
      case DeviceDisconnected(_, device) => table - {device}
      case _ => table
  }

  /** The table holds exactly the open devices, each with its own worker's queue. */
  ghost predicate ExactIndex(table: map<DeviceId, WorkerId>, open: map<Path, Link>) {
    && (forall path :: path in open ==> open[path].device in table && table[open[path].device] == open[path].queue)
    && (forall device :: device in table ==> exists path :: path in open && open[path].device == device)
  }

  ghost predicate DistinctDevices(open: map<Path, Link>) {
    forall p, p' :: p in open && p' in open && p != p' ==> open[p].device != open[p'].device
  }

  ghost predicate DistinctQueues(open: map<Path, Link>) {
    forall p, p' :: p in open && p' in open && p != p' ==> open[p].queue != open[p'].queue
  }

  /** Every prefix is well formed, and no queue serves two open paths. */
  ghost predicate WellFormedStream(es: seq<Event>) {
    && (es != [] ==> WellFormedStream(es[..|es| - 1]))
    && Replay(es).Some? && DistinctQueues(Replay(es).value)
  }

  /** No two paths are ever open for one device. */
  ghost predicate DevicesKeptApart(es: seq<Event>)
    requires WellFormedStream(es)
  {
    && (es != [] ==> DevicesKeptApart(es[..|es| - 1]))
    && DistinctDevices(Replay(es).value)
  }

  ghost predicate AlwaysExact(es: seq<Event>)
    requires WellFormedStream(es)
  {
    && (es != [] ==> AlwaysExact(es[..|es| - 1]))
    && ExactIndex(Route(es), Replay(es).value)
  }

  lemma ExactStep(table: map<DeviceId, WorkerId>, open: map<Path, Link>, e: Event)
    requires ExactIndex(table, open) && DistinctDevices(open) && Extend(open, e).Some?
    requires DistinctDevices(Extend(open, e).value)
    ensures ExactIndex(match e
                       case DeviceConnected(_, device, queue) => table[device := queue]
                       case DeviceDisconnected(_, device) => table - {device}
                       case _ => table,
                       Extend(open, e).value)
  {
    var open' := Extend(open, e).value;
    match e {
      case DeviceConnected(path, device, queue) =>
        var table' := table[device := queue];
        forall d | d in table' ensures exists p :: p in open' && open'[p].device == d {
          if d == device {
            assert open'[path].device == d;
          } else {
            var p :| p in open && open[p].device == d;
            assert p in open' && open'[p].device == d;
          }
        }
        forall p | p in open' && p != path ensures open'[p].device != device {
          assert open'[path].device == device;
        }
      case DeviceDisconnected(path, device) =>
        forall d | d in table - {device} ensures exists p :: p in open' && open'[p].device == d {
          var p :| p in open && open[p].device == d;
          assert p in open';
        }
      case _ =>
    }
  }

  /** The routing table is an exact index after every prefix exactly when no device is open on two paths. */
  lemma {:induction false} RoutingIsExactIff(es: seq<Event>)
    requires WellFormedStream(es)
    ensures AlwaysExact(es) <==> DevicesKeptApart(es)
  {
    if es != [] {
      var init := es[..|es| - 1];
      RoutingIsExactIff(init);
      if DevicesKeptApart(es) {
        ExactWhileApart(init);
        ExactStep(Route(init), Replay(init).value, es[|es| - 1]);
      } else if AlwaysExact(es) {
        ExactMeansApart(Route(es), Replay(es).value);
      }
    }
  }

  lemma ExactWhileApart(es: seq<Event>)
    requires WellFormedStream(es) && (AlwaysExact(es) <==> DevicesKeptApart(es)) && DevicesKeptApart(es)
    ensures ExactIndex(Route(es), Replay(es).value) && DistinctDevices(Replay(es).value)
  {
  }

  lemma ExactMeansApart(table: map<DeviceId, WorkerId>, open: map<Path, Link>)
    requires ExactIndex(table, open) && DistinctQueues(open)
    ensures DistinctDevices(open)
  {
  }

  /** Why the condition is needed: two panels reporting one hardware id leave the second without a route. */
  lemma SharedDeviceLosesARoute(device: DeviceId)
    ensures var es := [DeviceConnected("a", device, 1), DeviceConnected("b", device, 2), DeviceDisconnected("a", device)];
            && Replay(es) == Some(map["b" := Link(device, 2)])
            && Route(es) == map[]
  {
    var es := [DeviceConnected("a", device, 1), DeviceConnected("b", device, 2), DeviceDisconnected("a", device)];
    assert es[..2] == [es[0], es[1]] && es[..2][..1] == [es[0]] && es[..1][..0] == [];
    assert Replay([]) == Some(map[]) && Route([]) == map[];
    assert Replay(es[..1]) == Some(map["a" := Link(device, 1)]) && Route(es[..1]) == map[device := 1];
    assert Replay(es[..2]) == Some(map["a" := Link(device, 1), "b" := Link(device, 2)]);
    assert Route(es[..2]) == map[device := 2];
    assert map["a" := Link(device, 1), "b" := Link(device, 2)] - {"a"} == map["b" := Link(device, 2)];
  }

  // ---------------------------------------------------------------- the code

  class SaitekHardwareHandler {
    var commandMap: map<DeviceId, WorkerId>

    constructor ()
      ensures commandMap == map[]
    {
      commandMap := map[];
    }

    method RegisterDevice(device: DeviceId, queue: WorkerId)
      modifies this
      ensures commandMap == old(commandMap)[device := queue]
    {
      commandMap := commandMap[device := queue];
    }

    method RemoveDevice(device: DeviceId)
      modifies this
      ensures commandMap == old(commandMap) - {device}
    {
      commandMap := commandMap - {device};
    }

    method Sender(device: DeviceId) returns (queue: Option<WorkerId>)
      ensures queue.Some? <==> device in commandMap
      ensures queue.Some? ==> queue.value == commandMap[device]
    {
      queue := if device in commandMap then Some(commandMap[device]) else None;
    }
  }

  /** The hardware runtime, with the record of what it has been told; an error of its own ends the loop. */
  class HardwareRuntime {
    ghost var told: seq<Event>
    ghost var refusals: nat

    constructor ()
      ensures told == [] && refusals == 0
    {
      told, refusals := [], 0;
    }

    method Tell(e: Event) returns (ok: bool)
      modifies this
      ensures told == old(told) + [e] && refusals == old(refusals) + if ok then 0 else 1
    {
      ok := *;
      told, refusals := told + [e], refusals + if ok then 0 else 1;
    }
  }

  /** Everything but worker failures, which are only logged. */
  function Announced(es: seq<Event>): seq<Event> {
    if es == [] then []
    else
      var before := Announced(es[..|es| - 1]);
      if es[|es| - 1].WorkerFailed? then before else before + [es[|es| - 1]]
  }

  /** What is announced keeps its order and leaves out nothing but failures. */
  lemma {:induction false} AnnouncedIsComplete(es: seq<Event>)
    ensures forall e :: e in Announced(es) <==> e in es && !e.WorkerFailed?
    ensures (forall i :: 0 <= i < |es| ==> !es[i].WorkerFailed?) ==> Announced(es) == es
  {
    if es != [] {
      AnnouncedIsComplete(es[..|es| - 1]);
      assert es == es[..|es| - 1] + [es[|es| - 1]];
    }
  }

  /**
   * Consumes the supervisor's stream until it ends or the runtime refuses an
   * event; that event has already changed the map. The map is the table of what
   * was consumed, and an exact index of it when no device is open on two paths;
   * the runtime has been told all of it but the failures.
   */
  method WorkerEventLoop(handler: SaitekHardwareHandler, runtime: HardwareRuntime, es: seq<Event>)
    returns (consumed: nat, refused: bool)
    requires handler.commandMap == map[] && runtime.told == []
    modifies handler, runtime
    ensures consumed <= |es| && (refused ==> consumed > 0) && (!refused ==> consumed == |es|)
    ensures refused <==> runtime.refusals > old(runtime.refusals)
    ensures runtime.told == Announced(es[..consumed])
    ensures handler.commandMap == Route(es[..consumed])
    ensures WellFormedStream(es[..consumed]) && DevicesKeptApart(es[..consumed]) ==>
              ExactIndex(handler.commandMap, Replay(es[..consumed]).value)
  {
    consumed, refused := 0, false;
    while consumed < |es| && !refused
      invariant 0 <= consumed <= |es| && (refused ==> consumed > 0)
      invariant refused <==> runtime.refusals > old(runtime.refusals)
      invariant runtime.refusals >= old(runtime.refusals)
      invariant runtime.told == Announced(es[..consumed])
      invariant handler.commandMap == Route(es[..consumed])
      decreases |es| - consumed
    {
      var e := es[consumed];
      assert es[..consumed + 1][..consumed] == es[..consumed];
      match e {
        case DeviceConnected(_, device, queue) => handler.RegisterDevice(device, queue);
        case DeviceDisconnected(_, device) => handler.RemoveDevice(device);
        case DeviceInput(_, _) =>
        case WorkerFailed(_) =>
      }
      if !e.WorkerFailed? {
        var ok := runtime.Tell(e);
        refused := !ok;
      }
      consumed := consumed + 1;
    }
    if WellFormedStream(es[..consumed]) && DevicesKeptApart(es[..consumed]) {
      RoutingIsExactIff(es[..consumed]);
    }
  }
}
