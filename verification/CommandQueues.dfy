/**
 * The bounded, coalescing command queue between the hardware handler and one
 * device worker. `send` and `try_recv` run under one mutex, so each is one
 * atomic step of the shared object.
 */
module CommandQueues {
  import opened Basics
  import opened Commands

  const CAPACITY := 32

  /** A queued command with the number of the send that accepted it; no branch reads the number. */
  datatype Entry = Entry(command: Command, stamp: nat)

  datatype QueueState = QueueState(
    queue: seq<Entry>,
    senderCount: nat,
    receiverAlive: bool,
    stopping: bool,
    sent: nat)

  datatype Received = Got(entry: Entry) | Empty | Disconnected

  const FRESH := QueueState([], 1, true, false, 0)

  // ---------------------------------------------------------------- operations

  predicate SameControl(e: Entry, control: string) {
    e.command.OutputControlId() == Some(control)
  }

  function Retain(q: seq<Entry>, control: string): seq<Entry> {
    if q == [] then []
    else
      var n := |q| - 1;
      var rest := Retain(q[..n], control);
      if SameControl(q[n], control) then rest else rest + [q[n]]
  }

  function FirstRaster(q: seq<Entry>): (k: nat)
    ensures k <= |q|
    ensures k < |q| ==> q[k].command.IsRasterFrame()
    ensures forall i :: 0 <= i < k ==> !q[i].command.IsRasterFrame()
  {
    if q == [] || q[0].command.IsRasterFrame() then 0 else 1 + FirstRaster(q[1..])
  }

  function FirstOutput(q: seq<Entry>): (k: nat)
    ensures k <= |q|
    ensures k < |q| ==> q[k].command.Hardware?
    ensures forall i :: 0 <= i < k ==> !q[i].command.Hardware?
  {
    if q == [] || q[0].command.Hardware? then 0 else 1 + FirstOutput(q[1..])
  }

  /** The entry a full queue gives up: the oldest raster frame, else the oldest output. */
  function Victim(q: seq<Entry>): (k: nat)
    ensures k <= |q|
    ensures k < |q| ==> q[k].command.Hardware?
    ensures k == |q| <==> forall i :: 0 <= i < |q| ==> !q[i].command.Hardware?
  {
    if FirstRaster(q) < |q| then FirstRaster(q) else FirstOutput(q)
  }

  function MakeRoom(q: seq<Entry>): seq<Entry> {
    if |q| >= CAPACITY && Victim(q) < |q| then MakeRoom(RemoveAt(q, Victim(q))) else q
  }

  function EnqueueBounded(q: seq<Entry>, e: Entry): seq<Entry> {
    var kept := if e.command.Hardware? then Retain(q, e.command.output.control) else q;
    var room := MakeRoom(kept);
    if |room| < CAPACITY then room + [e] else room
  }

  /** The queue after `send(c)`; the send is refused exactly when the receiver is gone. */
  function Send(s: QueueState, c: Command): QueueState {
    var e := Entry(c, s.sent);
    if !s.receiverAlive then s
    else if c.Stop? then s.(stopping := true, queue := [e], sent := s.sent + 1)
    else if s.stopping then s.(sent := s.sent + 1)
    else if c.ResetDevice? then s.(queue := [e], sent := s.sent + 1)
    else s.(queue := EnqueueBounded(s.queue, e), sent := s.sent + 1)
  }

  function TryRecv(s: QueueState): (QueueState, Received) {
    if s.queue != [] then (s.(queue := s.queue[1..]), Got(s.queue[0]))
    else if s.senderCount == 0 then (s, Disconnected)
    else (s, Empty)
  }

  // ---------------------------------------------------------------- the shared object

  class CommandChannel {
    var queue: seq<Entry>
    var senderCount: nat
    var receiverAlive: bool
    var stopping: bool
    var sent: nat

    function State(): QueueState
      reads this
    {
      QueueState(queue, senderCount, receiverAlive, stopping, sent)
    }

    constructor ()
      ensures State() == FRESH
    {
      queue, senderCount, receiverAlive, stopping, sent := [], 1, true, false, 0;
    }

    method CloneSender()
      modifies this`senderCount
      ensures senderCount == old(senderCount) + 1
    {
      senderCount := senderCount + 1;
    }

    method DropSender()
      modifies this`senderCount
      ensures senderCount == if old(senderCount) == 0 then 0 else old(senderCount) - 1
    {
      senderCount := if senderCount == 0 then 0 else senderCount - 1;
    }

    method DropReceiver()
      modifies this`receiverAlive
      ensures !receiverAlive
    {
      receiverAlive := false;
    }

    method SendCommand(command: Command) returns (accepted: bool)
      modifies this
      ensures accepted == old(receiverAlive)
      ensures State() == Send(old(State()), command)
    {
      if !receiverAlive {
        return false;
      }
      var entry := Entry(command, sent);
      if command.Stop? {
        sent := sent + 1;
        stopping := true;
        queue := [entry];
        return true;
      }
      if stopping {
        sent := sent + 1;
        return true;
      }
      if command.ResetDevice? {
        sent := sent + 1;
        queue := [entry];
        return true;
      }
      EnqueueBoundedCommand(entry);
      sent := sent + 1;
      return true;
    }

    method EnqueueBoundedCommand(entry: Entry)
      modifies this`queue
      ensures queue == EnqueueBounded(old(queue), entry)
    {
      if entry.command.Hardware? {
        queue := Retain(queue, entry.command.output.control);
      }
      ghost var kept := queue;
      while |queue| >= CAPACITY
        invariant MakeRoom(queue) == MakeRoom(kept)
        decreases |queue|
      {
        var raster := FirstRaster(queue);
        if raster < |queue| {
          queue := RemoveAt(queue, raster);
        } else {
          var output := FirstOutput(queue);
          if output < |queue| {
            queue := RemoveAt(queue, output);
          } else {
            break;
          }
        }
      }
      if |queue| < CAPACITY {
        queue := queue + [entry];
      }
    }

    method TryReceive() returns (r: Received)
      modifies this`queue
      ensures (State(), r) == TryRecv(old(State()))
      ensures old(queue) != [] ==> r == Got(old(queue)[0]) && queue == old(queue)[1..]
      ensures old(queue) == [] ==> r == (if senderCount == 0 then Disconnected else Empty) && queue == []
    {
      if queue != [] {
        r := Got(queue[0]);
        queue := queue[1..];
        return;
      }
      r := if senderCount == 0 then Disconnected else Empty;
    }
  }

  // ---------------------------------------------------------------- shape of one queue

  ghost predicate Increasing(q: seq<Entry>) {
    forall i, j :: 0 <= i < j < |q| ==> q[i].stamp < q[j].stamp
  }

  ghost predicate OnePerControl(q: seq<Entry>) {
    forall i, j :: 0 <= i < j < |q| && q[i].command.Hardware? && q[j].command.Hardware? ==>
      q[i].command.output.control != q[j].command.output.control
  }

  /** Only the head may be something other than an output. */
  ghost predicate OutputsBehindHead(q: seq<Entry>) {
    forall i :: 0 < i < |q| ==> q[i].command.Hardware?
  }

  ghost predicate Ordered(q: seq<Entry>) {
    Increasing(q) && OnePerControl(q) && OutputsBehindHead(q)
  }

  /** Stop stands alone, and once it has been sent nothing else may wait. */
  ghost predicate StopAlone(q: seq<Entry>, stopping: bool) {
    if stopping then |q| <= 1 && forall i :: 0 <= i < |q| ==> q[i].command.Stop?
    else forall i :: 0 <= i < |q| ==> !q[i].command.Stop?
  }

  ghost predicate SentBefore(q: seq<Entry>, bound: nat) {
    forall i :: 0 <= i < |q| ==> q[i].stamp < bound
  }

  ghost predicate AllParsed(q: seq<Entry>) {
    forall i :: 0 <= i < |q| ==> Parsed(q[i].command)
  }

  ghost predicate Shape(s: QueueState) {
    && |s.queue| <= CAPACITY
    && Ordered(s.queue)
    && SentBefore(s.queue, s.sent)
    && StopAlone(s.queue, s.stopping)
  }

  lemma {:induction false} RetainElements(q: seq<Entry>, control: string)
    ensures |Retain(q, control)| <= |q|
    ensures forall e :: e in Retain(q, control) <==> e in q && !SameControl(e, control)
  {
    if q != [] {
      RetainElements(q[..|q| - 1], control);
      assert q == q[..|q| - 1] + [q[|q| - 1]];
    }
  }

  /** Entries picked from an ordered queue, in order, may be followed by its last one. */
  lemma OrderedSnoc(q: seq<Entry>, rest: seq<Entry>)
    requires q != [] && Ordered(q) && Ordered(rest)
    requires forall i :: 0 <= i < |rest| ==> rest[i] in q[..|q| - 1]
    ensures Ordered(rest + [q[|q| - 1]])
  {
    if rest != [] {
      assert rest[0] in q[..|q| - 1];
      assert q[|q| - 1].command.Hardware?;
    }
  }

  lemma {:induction false} RetainKeeps(q: seq<Entry>, control: string)
    requires Ordered(q)
    ensures Ordered(Retain(q, control))
    ensures |Retain(q, control)| <= |q|
    ensures forall e :: e in Retain(q, control) <==> e in q && !SameControl(e, control)
  {
    RetainElements(q, control);
    if q != [] {
      var init := q[..|q| - 1];
      RetainKeeps(init, control);
      var rest := Retain(init, control);
      forall i | 0 <= i < |rest| ensures rest[i] in init {
        assert rest[i] in rest;
      }
      OrderedSnoc(q, rest);
    }
  }

  /** A well-shaped full queue always holds an output to give up, and giving up one is enough. */
  lemma OneEviction(q: seq<Entry>)
    requires |q| <= CAPACITY && Ordered(q)
    ensures |q| == CAPACITY ==> Victim(q) < |q| && MakeRoom(q) == RemoveAt(q, Victim(q))
    ensures |q| < CAPACITY ==> MakeRoom(q) == q
    ensures |MakeRoom(q)| < CAPACITY && Ordered(MakeRoom(q))
    ensures forall e :: e in MakeRoom(q) ==> e in q
  {
    if |q| == CAPACITY {
      assert q[1].command.Hardware?;
      assert MakeRoom(RemoveAt(q, Victim(q))) == RemoveAt(q, Victim(q));
    }
  }

  /** What an accepted output leaves in the queue before it joins at the back. */
  function Survivors(q: seq<Entry>, control: string): seq<Entry> {
    MakeRoom(Retain(q, control))
  }

  lemma SurvivorsKeep(q: seq<Entry>, control: string)
    requires |q| <= CAPACITY && Ordered(q)
    ensures var r := Survivors(q, control);
            && |r| < CAPACITY && Ordered(r)
            && forall i :: 0 <= i < |r| ==> r[i] in q && !SameControl(r[i], control)
  {
    RetainKeeps(q, control);
    OneEviction(Retain(q, control));
    var r := Survivors(q, control);
    forall i | 0 <= i < |r| ensures r[i] in q && !SameControl(r[i], control) {
      assert r[i] in r;
    }
  }

  lemma AppendKeepsOrdered(q: seq<Entry>, e: Entry)
    requires Ordered(q) && SentBefore(q, e.stamp) && e.command.Hardware?
    requires forall i :: 0 <= i < |q| ==> !SameControl(q[i], e.command.output.control)
    ensures Ordered(q + [e])
  {
  }

  lemma SendKeepsShape(s: QueueState, c: Command)
    requires Shape(s)
    ensures Shape(Send(s, c))
  {
    if s.receiverAlive && c.Hardware? && !s.stopping {
      SurvivorsKeep(s.queue, c.output.control);
      AppendKeepsOrdered(Survivors(s.queue, c.output.control), Entry(c, s.sent));
    }
  }

  ghost predicate OldestVictim(q: seq<Entry>, k: nat) {
    && k < |q| && q[k].command.Hardware?
    && (forall i :: 0 <= i < k ==> !q[i].command.IsRasterFrame())
    && (q[k].command.IsRasterFrame() ||
        forall i :: 0 <= i < |q| ==> !q[i].command.IsRasterFrame() && (i < k ==> !q[i].command.Hardware?))
  }

  /**
   * Every output sent before Stop is enqueued at the back with its own context;
   * beyond the pending output for the same control, at most one entry is given
   * up: the oldest raster frame, or the oldest output when no frame is waiting.
   */
  lemma HardwareSendIsEnqueued(s: QueueState, c: Command)
    requires Shape(s) && s.receiverAlive && !s.stopping && c.Hardware?
    ensures var q := Send(s, c).queue;
            var kept := Retain(s.queue, c.output.control);
            && q != [] && q[|q| - 1] == Entry(c, s.sent)
            && (|kept| < CAPACITY ==> q[..|q| - 1] == kept)
            && (|kept| >= CAPACITY ==>
                  exists k :: OldestVictim(kept, k) && q[..|q| - 1] == RemoveAt(kept, k))
  {
    var kept := Retain(s.queue, c.output.control);
    RetainKeeps(s.queue, c.output.control);
    OneEviction(kept);
    if |kept| == CAPACITY {
      assert OldestVictim(kept, Victim(kept));
    }
  }

  // ---------------------------------------------------------------- whole runs

  datatype QueueStep =
    | SendStep(command: Command)
    | ReceiveStep
    | CloneStep
    | DropSenderStep
    | DropReceiverStep

  /** A queue with the log of accepted commands and the entries handed to the worker. */
  datatype QueueRun = QueueRun(state: QueueState, log: seq<Command>, received: seq<Entry>)

  function Advance(r: QueueRun, step: QueueStep): QueueRun {
    match step
    case SendStep(c) =>
      r.(state := Send(r.state, c), log := if r.state.receiverAlive then r.log + [c] else r.log)
    case ReceiveStep =>
      var (state, got) := TryRecv(r.state);
      r.(state := state, received := if got.Got? then r.received + [got.entry] else r.received)
    case CloneStep => r.(state := r.state.(senderCount := r.state.senderCount + 1))
    case DropSenderStep =>
      r.(state := r.state.(senderCount := if r.state.senderCount == 0 then 0 else r.state.senderCount - 1))
    case DropReceiverStep => r.(state := r.state.(receiverAlive := false))
  }

  function Execute(r: QueueRun, steps: seq<QueueStep>): QueueRun
    decreases |steps|
  {
    if steps == [] then r else Execute(Advance(r, steps[0]), steps[1..])
  }

  ghost predicate Logged(q: seq<Entry>, log: seq<Command>) {
    forall i :: 0 <= i < |q| ==> q[i].stamp < |log| && log[q[i].stamp] == q[i].command
  }

  /** Received entries, then queued entries, are numbered in send order and are exactly what was sent. */
  ghost predicate Faithful(r: QueueRun) {
    && Shape(r.state)
    && r.state.sent == |r.log|
    && Increasing(r.received + r.state.queue)
    && Logged(r.received + r.state.queue, r.log)
  }

  lemma SendAddsOnlyItself(s: QueueState, c: Command)
    requires Shape(s)
    ensures var q := Send(s, c).queue;
            forall i :: 0 <= i < |q| ==> q[i] in s.queue || (s.receiverAlive && q[i] == Entry(c, s.sent))
  {
    if s.receiverAlive && c.Hardware? && !s.stopping {
      SurvivorsKeep(s.queue, c.output.control);
    }
  }

  /** A well-shaped queue whose entries come after everything received extends the history in order. */
  lemma JoinOrder(received: seq<Entry>, q: seq<Entry>, q': seq<Entry>, log: seq<Command>, c: Command)
    requires Increasing(received + q) && Increasing(q') && Logged(received + q, log)
    requires forall i :: 0 <= i < |q'| ==> q'[i] in q || q'[i] == Entry(c, |log|)
    ensures Increasing(received + q') && Logged(received + q', log + [c])
  {
    var n := |received|;
    forall i | 0 <= i < n
      ensures received[i].stamp < |log| && log[received[i].stamp] == received[i].command
    {
      assert (received + q)[i] == received[i];
    }
    forall j | 0 <= j < |q'|
      ensures q'[j].stamp <= |log| && (log + [c])[q'[j].stamp] == q'[j].command
      ensures forall i :: 0 <= i < n ==> received[i].stamp < q'[j].stamp
    {
      if q'[j] in q {
        var k :| 0 <= k < |q| && q[k] == q'[j];
        assert (received + q)[n + k] == q'[j];
        forall i | 0 <= i < n ensures received[i].stamp < q'[j].stamp {
          assert (received + q)[i] == received[i];
        }
      }
    }
    forall i, j | 0 <= i < j < n ensures received[i].stamp < received[j].stamp {
      assert (received + q)[i] == received[i] && (received + q)[j] == received[j];
    }
  }

  lemma AdvanceKeepsFaithful(r: QueueRun, step: QueueStep)
    requires Faithful(r)
    ensures Faithful(Advance(r, step))
  {
    match step {
      case SendStep(c) =>
        if r.state.receiverAlive {
          SendKeepsShape(r.state, c);
          SendAddsOnlyItself(r.state, c);
          JoinOrder(r.received, r.state.queue, Send(r.state, c).queue, r.log, c);
        }
      case ReceiveStep =>
        if r.state.queue != [] {
          assert r.received + [r.state.queue[0]] + r.state.queue[1..] == r.received + r.state.queue;
        }
      case _ =>
    }
  }

  /** Order and shape over every run: nothing is reordered, duplicated or given another context. */
  lemma {:induction false} RunsAreFaithful(r: QueueRun, steps: seq<QueueStep>)
    requires Faithful(r)
    ensures Faithful(Execute(r, steps))
    decreases |steps|
  {
    if steps != [] {
      AdvanceKeepsFaithful(r, steps[0]);
      RunsAreFaithful(Advance(r, steps[0]), steps[1..]);
    }
  }

  lemma QueueOrderAndShape(steps: seq<QueueStep>)
    ensures Faithful(Execute(QueueRun(FRESH, [], []), steps))
  {
    RunsAreFaithful(QueueRun(FRESH, [], []), steps);
  }

  /** Stop latches: whatever is sent afterwards, only Stop is ever handed out again. */
  lemma {:induction false} StopLatches(r: QueueRun, steps: seq<QueueStep>)
    requires Shape(r.state) && r.state.stopping
    ensures var r' := Execute(r, steps);
            && r'.state.stopping && Shape(r'.state)
            && |r.received| <= |r'.received| && r'.received[..|r.received|] == r.received
            && forall i :: |r.received| <= i < |r'.received| ==> r'.received[i].command.Stop?
    decreases |steps|
  {
    if steps != [] {
      var next := Advance(r, steps[0]);
      if steps[0].SendStep? {
        SendKeepsShape(r.state, steps[0].command);
      }
      StopLatches(next, steps[1..]);
    }
  }
}
