/**
 * Claiming USB interfaces: which interfaces the handle owns, which kernel
 * drivers it has moved aside, and how rollback and drop put both back.
 */
module UsbInterfaces {
  import opened Basics

  type Interface = nat

  /** A call to libusb and its answer; a query answers whether a driver is known to be in place. */
  datatype Call =
    | QueryCall(i: Interface, ok: bool)
    | DetachCall(i: Interface, ok: bool)
    | AttachCall(i: Interface, ok: bool)
    | ClaimCall(i: Interface, ok: bool)
    | ReleaseCall(i: Interface, ok: bool)

  /** The device side: kernel drivers in place, interfaces claimed by this handle, and the calls made. */
  datatype Usb = Usb(attached: set<Interface>, claimed: set<Interface>, calls: seq<Call>)

  /** The device with the handle's two vectors. */
  datatype Ledger = Ledger(usb: Usb, claimed: seq<Interface>, detached: seq<Interface>)

  /** How one claim attempt is answered: may the driver be queried, detached, the interface claimed, the driver restored? */
  datatype Fate = Fate(queryOk: bool, detachOk: bool, claimOk: bool, restoreOk: bool)

  function Detached(u: Usb, i: Interface): Usb { u.(attached := u.attached - {i}, calls := u.calls + [DetachCall(i, true)]) }
  function Attached(u: Usb, i: Interface): Usb { u.(attached := u.attached + {i}, calls := u.calls + [AttachCall(i, true)]) }
  function Claimed(u: Usb, i: Interface): Usb { u.(claimed := u.claimed + {i}, calls := u.calls + [ClaimCall(i, true)]) }
  function Released(u: Usb, i: Interface): Usb { u.(claimed := u.claimed - {i}, calls := u.calls + [ReleaseCall(i, true)]) }
  function Tried(u: Usb, c: Call): Usb { u.(calls := u.calls + [c]) }

  /** One claim attempt and whether it succeeded. */
  function Claim(l: Ledger, i: Interface, f: Fate): (Ledger, bool) {
    var detachHere := f.queryOk && i in l.usb.attached;
    var asked := Tried(l.usb, QueryCall(i, detachHere));
    if detachHere && !f.detachOk then (l.(usb := Tried(asked, DetachCall(i, false))), false)
    else
      var u := if detachHere then Detached(asked, i) else asked;
      if f.claimOk then
        (Ledger(Claimed(u, i), l.claimed + [i], if detachHere then l.detached + [i] else l.detached), true)
      else
        var u := Tried(u, ClaimCall(i, false));
        var u := if !detachHere then u else if f.restoreOk then Attached(u, i) else Tried(u, AttachCall(i, false));
        (l.(usb := u), false)
  }

  /** Releases from the last interface to the first; `oks` says which releases succeed. */
  function ReleaseBackwards(u: Usb, ids: seq<Interface>, oks: seq<bool>): Usb
    requires |oks| == |ids|
  {
    if ids == [] then u
    else
      var v := ReleaseBackwards(u, ids[1..], oks[1..]);
      if oks[0] then Released(v, ids[0]) else Tried(v, ReleaseCall(ids[0], false))
  }

  /** Reattaches kernel drivers from the last interface to the first. */
  function AttachBackwards(u: Usb, ids: seq<Interface>, oks: seq<bool>): Usb
    requires |oks| == |ids|
  {
    if ids == [] then u
    else
      var v := AttachBackwards(u, ids[1..], oks[1..]);
      if oks[0] then Attached(v, ids[0]) else Tried(v, AttachCall(ids[0], false))
  }

  /** The device after giving back everything past the marks, releases first. */
  function GivenBack(l: Ledger, c: nat, d: nat, releases: seq<bool>, attaches: seq<bool>): Usb
    requires c <= |l.claimed| && d <= |l.detached|
    requires |releases| == |l.claimed| - c && |attaches| == |l.detached| - d
  {
    AttachBackwards(ReleaseBackwards(l.usb, l.claimed[c..], releases), l.detached[d..], attaches)
  }

  function AllOk(n: nat): seq<bool> {
    seq(n, _ => true)
  }

  function ReleaseCalls(ids: seq<Interface>): seq<Call> {
    seq(|ids|, k requires 0 <= k < |ids| => ReleaseCall(ids[|ids| - 1 - k], true))
  }

  function AttachCalls(ids: seq<Interface>): seq<Call> {
    seq(|ids|, k requires 0 <= k < |ids| => AttachCall(ids[|ids| - 1 - k], true))
  }

  // ---------------------------------------------------------------- accounting

  ghost function Elements(ids: seq<Interface>): set<Interface> {
    set i | i in ids
  }

  ghost predicate NoRepeats(ids: seq<Interface>) {
    forall a, b :: 0 <= a < b < |ids| ==> ids[a] != ids[b]
  }

  /** The vectors match the device: what is claimed, and which of the original drivers are aside. */
  ghost predicate Balanced(l: Ledger, drivers: set<Interface>) {
    && NoRepeats(l.claimed) && NoRepeats(l.detached)
    && l.usb.claimed == Elements(l.claimed)
    && Elements(l.detached) <= Elements(l.claimed)
    && Elements(l.detached) <= drivers
    && l.usb.attached == drivers - Elements(l.detached)
  }

  /** The one way a claim unbalances the books: it moves a driver aside, fails, and cannot put the driver back. */
  predicate LosesDriver(l: Ledger, i: Interface, f: Fate) {
    f.queryOk && i in l.usb.attached && f.detachOk && !f.claimOk && !f.restoreOk
  }

  /**
   * A claim keeps the books balanced if and only if it does not lose a driver;
   * then a failed claim leaves vectors, drivers and claims as they were, and a
   * successful one adds the interface, and the driver it moved aside.
   */
  lemma ClaimKeepsBalance(l: Ledger, i: Interface, f: Fate, drivers: set<Interface>)
    requires Balanced(l, drivers) && i !in l.claimed
    ensures var (l', ok) := Claim(l, i, f);
            && (Balanced(l', drivers) <==> !LosesDriver(l, i, f))
            && (!ok && !LosesDriver(l, i, f) ==>
                  && l'.claimed == l.claimed && l'.detached == l.detached
                  && l'.usb.attached == l.usb.attached && l'.usb.claimed == l.usb.claimed)
            && (LosesDriver(l, i, f) ==> !ok && Balanced(l', drivers - {i}))
            && (ok ==> l'.claimed == l.claimed + [i]
                       && l'.detached == l.detached + if i in l.usb.attached && i !in l'.usb.attached then [i] else [])
  {
    var (l', ok) := Claim(l, i, f);
    assert i !in Elements(l.detached);
    if ok {
      assert Elements(l.claimed + [i]) == Elements(l.claimed) + {i};
      assert Elements(l.detached + [i]) == Elements(l.detached) + {i};
    } else if LosesDriver(l, i, f) {
      assert i in drivers - Elements(l.detached) && i !in l'.usb.attached;
    }
  }

  /** What one claim attempt asks of the device, and in what order; only a claim answered yes succeeds. */
  ghost predicate ClaimTrace(attached: bool, i: Interface, f: Fate, calls: seq<Call>, ok: bool) {
    if !(f.queryOk && attached) then calls == [QueryCall(i, false), ClaimCall(i, f.claimOk)] && ok == f.claimOk
    else if !f.detachOk then calls == [QueryCall(i, true), DetachCall(i, false)] && !ok
    else if f.claimOk then calls == [QueryCall(i, true), DetachCall(i, true), ClaimCall(i, true)] && ok
    else calls == [QueryCall(i, true), DetachCall(i, true), ClaimCall(i, false), AttachCall(i, f.restoreOk)] && !ok
  }

  lemma ClaimIsTraced(l: Ledger, i: Interface, f: Fate)
    ensures var (l', ok) := Claim(l, i, f);
            && |l.usb.calls| <= |l'.usb.calls| && l'.usb.calls[..|l.usb.calls|] == l.usb.calls
            && ClaimTrace(i in l.usb.attached, i, f, l'.usb.calls[|l.usb.calls|..], ok)
  {
    var (l', ok) := Claim(l, i, f);
    var before := l.usb.calls;
    assert forall more: seq<Call> :: (before + more)[|before|..] == more;
    if f.queryOk && i in l.usb.attached {
      assert f.detachOk && f.claimOk ==>
        l'.usb.calls == before + [QueryCall(i, true), DetachCall(i, true), ClaimCall(i, true)];
      assert f.detachOk && !f.claimOk ==>
        l'.usb.calls == before + [QueryCall(i, true), DetachCall(i, true), ClaimCall(i, false), AttachCall(i, f.restoreOk)];
      assert !f.detachOk ==> l'.usb.calls == before + [QueryCall(i, true), DetachCall(i, false)];
    } else {
      assert l'.usb.calls == before + [QueryCall(i, false), ClaimCall(i, f.claimOk)];
    }
  }

  /** One whole claim attempt, however the device answers. */
  ghost predicate Attempt(attached: bool, i: Interface, calls: seq<Call>, ok: bool) {
    exists f :: ClaimTrace(attached, i, f, calls, ok)
  }

  /** An attempt succeeds exactly when its claim is made and answered yes; otherwise that claim, or the detach before it, was refused. */
  lemma AttemptAnswered(attached: bool, i: Interface, calls: seq<Call>, ok: bool)
    requires Attempt(attached, i, calls, ok)
    ensures ok <==> ClaimCall(i, true) in calls
    ensures !ok <==> ClaimCall(i, false) in calls || DetachCall(i, false) in calls
  {
  }

  /** The losing claim at work: the interface's driver is gone from the device, and no vector knows. */
  lemma LostDriverIsForgotten(i: Interface)
    ensures var l := Ledger(Usb({i}, {}, []), [], []);
            var (l', ok) := Claim(l, i, Fate(true, true, false, false));
            && !ok && l'.claimed == [] && l'.detached == []
            && l'.usb.attached == {} && l'.usb.calls == [QueryCall(i, true), DetachCall(i, true), ClaimCall(i, false), AttachCall(i, false)]
            && GivenBack(l', 0, 0, [], []).attached == {}
  {
  }

  /** A failed claim changes neither vector, whatever else goes wrong. */
  lemma FailedClaimChangesNoVector(l: Ledger, i: Interface, f: Fate)
    ensures var (l', ok) := Claim(l, i, f);
            !ok ==> l'.claimed == l.claimed && l'.detached == l.detached && l'.usb.claimed == l.usb.claimed
  {
  }

  lemma {:induction false} ReleaseEffect(u: Usb, ids: seq<Interface>)
    ensures var u' := ReleaseBackwards(u, ids, AllOk(|ids|));
            u' == Usb(u.attached, u.claimed - Elements(ids), u.calls + ReleaseCalls(ids))
  {
    if ids != [] {
      assert AllOk(|ids|)[1..] == AllOk(|ids[1..]|);
      ReleaseEffect(u, ids[1..]);
      assert Elements(ids) == Elements(ids[1..]) + {ids[0]};
      assert ReleaseCalls(ids) == ReleaseCalls(ids[1..]) + [ReleaseCall(ids[0], true)];
    }
  }

  lemma {:induction false} AttachEffect(u: Usb, ids: seq<Interface>)
    ensures var u' := AttachBackwards(u, ids, AllOk(|ids|));
            u' == Usb(u.attached + Elements(ids), u.claimed, u.calls + AttachCalls(ids))
  {
    if ids != [] {
      assert AllOk(|ids|)[1..] == AllOk(|ids[1..]|);
      AttachEffect(u, ids[1..]);
      assert Elements(ids) == Elements(ids[1..]) + {ids[0]};
      assert AttachCalls(ids) == AttachCalls(ids[1..]) + [AttachCall(ids[0], true)];
    }
  }

  lemma SplitElements(ids: seq<Interface>, k: nat)
    requires k <= |ids| && NoRepeats(ids)
    ensures Elements(ids[..k]) == Elements(ids) - Elements(ids[k..])
    ensures NoRepeats(ids[..k])
  {
    assert ids == ids[..k] + ids[k..];
    forall a, b | 0 <= a < k && 0 <= b < |ids| - k ensures ids[..k][a] != ids[k..][b] {
      assert ids[..k][a] == ids[a] && ids[k..][b] == ids[k + b];
    }
  }

  /**
   * Rolling back to marks taken at a balanced moment undoes exactly the claims
   * since: every release comes before the first reattachment, each in reverse
   * order, and the ledger is balanced again.
   */
  lemma RollbackRestores(l: Ledger, c: nat, d: nat, drivers: set<Interface>)
    requires Balanced(l, drivers) && c <= |l.claimed| && d <= |l.detached|
    requires Elements(l.detached[..d]) <= Elements(l.claimed[..c])
    ensures var u := GivenBack(l, c, d, AllOk(|l.claimed| - c), AllOk(|l.detached| - d));
            && Balanced(Ledger(u, l.claimed[..c], l.detached[..d]), drivers)
            && u.calls == l.usb.calls + ReleaseCalls(l.claimed[c..]) + AttachCalls(l.detached[d..])
  {
    ReleaseEffect(l.usb, l.claimed[c..]);
    AttachEffect(ReleaseBackwards(l.usb, l.claimed[c..], AllOk(|l.claimed| - c)), l.detached[d..]);
    SplitElements(l.claimed, c);
    SplitElements(l.detached, d);
  }

  /** Claims on pairwise different interfaces, each with its own fate. */
  function ClaimAll(l: Ledger, attempts: seq<(Interface, Fate)>): Ledger {
    if attempts == [] then l
    else
      var n := |attempts| - 1;
      Claim(ClaimAll(l, attempts[..n]), attempts[n].0, attempts[n].1).0
  }

  /** The drivers moved aside and lost along the way. */
  function Lost(l: Ledger, attempts: seq<(Interface, Fate)>): set<Interface> {
    if attempts == [] then {}
    else
      var n := |attempts| - 1;
      Lost(l, attempts[..n]) +
        if LosesDriver(ClaimAll(l, attempts[..n]), attempts[n].0, attempts[n].1) then {attempts[n].0} else {}
  }

  /** Whatever claims do, the books balance for the drivers that are not lost. */
  lemma {:induction false} ClaimsStayBalanced(l: Ledger, attempts: seq<(Interface, Fate)>, drivers: set<Interface>)
    requires Balanced(l, drivers)
    requires forall a, b :: 0 <= a < b < |attempts| ==> attempts[a].0 != attempts[b].0
    requires forall a :: 0 <= a < |attempts| ==> attempts[a].0 !in l.claimed
    ensures var l' := ClaimAll(l, attempts);
            && Balanced(l', drivers - Lost(l, attempts)) && Lost(l, attempts) <= drivers
            && forall i :: i in l'.claimed ==> i in l.claimed || exists a :: 0 <= a < |attempts| && attempts[a].0 == i
  {
    if attempts != [] {
      var n := |attempts| - 1;
      ClaimsStayBalanced(l, attempts[..n], drivers);
      var before, lost := ClaimAll(l, attempts[..n]), Lost(l, attempts[..n]);
      ClaimKeepsBalance(before, attempts[n].0, attempts[n].1, drivers - lost);
      assert drivers - lost - {attempts[n].0} == drivers - (lost + {attempts[n].0});
    }
  }

  /**
   * Whatever claims succeeded or failed, dropping the handle frees every
   * interface and puts back every driver that is not lost: all of them if and
   * only if no claim lost one.
   */
  lemma DropRestoresEverything(drivers: set<Interface>, attempts: seq<(Interface, Fate)>)
    requires forall a, b :: 0 <= a < b < |attempts| ==> attempts[a].0 != attempts[b].0
    ensures var start := Ledger(Usb(drivers, {}, []), [], []);
            var l := ClaimAll(start, attempts);
            var u := GivenBack(l, 0, 0, AllOk(|l.claimed|), AllOk(|l.detached|));
            && u.claimed == {} && u.attached == drivers - Lost(start, attempts)
            && (u.attached == drivers <==> Lost(start, attempts) == {})
  {
    var start := Ledger(Usb(drivers, {}, []), [], []);
    ClaimsStayBalanced(start, attempts, drivers);
    var l := ClaimAll(start, attempts);
    RollbackRestores(l, 0, 0, drivers - Lost(start, attempts));
  }

  // ---------------------------------------------------------------- the code

  class InterfaceHandle {
    var usb: Usb

    constructor (drivers: set<Interface>)
      ensures usb == Usb(drivers, {}, [])
    {
      usb := Usb(drivers, {}, []);
    }

    method KernelDriverActive(i: Interface) returns (active: bool, ghost ok: bool)
      modifies this
      ensures active <==> ok && i in old(usb.attached)
      ensures usb == Tried(old(usb), QueryCall(i, active))
    {
      var answered: bool := *;
      ok := answered;
      active := answered && i in usb.attached;
      usb := Tried(usb, QueryCall(i, active));
    }

    method DetachKernelDriver(i: Interface) returns (ok: bool)
      modifies this
      ensures usb == if ok then Detached(old(usb), i) else Tried(old(usb), DetachCall(i, false))
    {
      ok := *;
      usb := if ok then Detached(usb, i) else Tried(usb, DetachCall(i, false));
    }

    method AttachKernelDriver(i: Interface) returns (ok: bool)
      modifies this
      ensures usb == if ok then Attached(old(usb), i) else Tried(old(usb), AttachCall(i, false))
    {
      ok := *;
      usb := if ok then Attached(usb, i) else Tried(usb, AttachCall(i, false));
    }

    method ClaimInterface(i: Interface) returns (ok: bool)
      modifies this
      ensures usb == if ok then Claimed(old(usb), i) else Tried(old(usb), ClaimCall(i, false))
    {
      ok := *;
      usb := if ok then Claimed(usb, i) else Tried(usb, ClaimCall(i, false));
    }

    method ReleaseInterface(i: Interface) returns (ok: bool)
      modifies this
      ensures usb == if ok then Released(old(usb), i) else Tried(old(usb), ReleaseCall(i, false))
    {
      ok := *;
      usb := if ok then Released(usb, i) else Tried(usb, ReleaseCall(i, false));
    }
  }

  /** A handle with the two vectors that record what it must give back. */
  class Claims {
    const handle: InterfaceHandle
    var claimed: seq<Interface>
    var detached: seq<Interface>

    ghost function State(): Ledger
      reads this, handle
    {
      Ledger(handle.usb, claimed, detached)
    }

    constructor (handle: InterfaceHandle)
      ensures this.handle == handle && claimed == [] && detached == []
    {
      this.handle := handle;
      claimed, detached := [], [];
    }

    method ClaimInterface(i: Interface) returns (ok: bool, ghost fate: Fate)
      modifies this, handle
      ensures (State(), ok) == Claim(old(State()), i, fate)
    {
      var detachedHere;
      ghost var queryOk;
      detachedHere, queryOk := handle.KernelDriverActive(i);
      fate := Fate(queryOk, true, true, true);
      if detachedHere {
        var moved := handle.DetachKernelDriver(i);
        if !moved {
          fate := Fate(queryOk, false, true, true);
          return false, fate;
        }
      }
      ok := handle.ClaimInterface(i);
      if !ok {
        if detachedHere {
          var restored := handle.AttachKernelDriver(i);
          fate := Fate(queryOk, true, false, restored);
        } else {
          fate := Fate(queryOk, true, false, true);
        }
        return;
      }
      claimed := claimed + [i];
      if detachedHere {
        detached := detached + [i];
      }
    }

    /** Gives back everything past the marks, and forgets it. */
    method RollbackInterfaces(c: nat, d: nat) returns (ghost releases: seq<bool>, ghost attaches: seq<bool>)
      requires c <= |claimed| && d <= |detached|
      modifies this, handle
      ensures claimed == old(claimed)[..c] && detached == old(detached)[..d]
      ensures |releases| == |old(claimed)| - c && |attaches| == |old(detached)| - d
      ensures handle.usb == GivenBack(old(State()), c, d, releases, attaches)
    {
      releases, attaches := GiveBack(c, d);
      claimed, detached := claimed[..c], detached[..d];
    }

    method GiveBack(c: nat, d: nat) returns (ghost releases: seq<bool>, ghost attaches: seq<bool>)
      requires c <= |claimed| && d <= |detached|
      modifies handle
      ensures |releases| == |claimed| - c && |attaches| == |detached| - d
      ensures handle.usb == GivenBack(old(State()), c, d, releases, attaches)
    {
      ghost var u := handle.usb;
      releases, attaches := [], [];
      var k := |claimed|;
      while k > c
        invariant c <= k <= |claimed| && |releases| == |claimed| - k
        invariant handle.usb == ReleaseBackwards(u, claimed[k..], releases)
      {
        k := k - 1;
        var ok := handle.ReleaseInterface(claimed[k]);
        releases := [ok] + releases;
        assert claimed[k..][1..] == claimed[k + 1..] && releases[1..] + [] == releases[1..];
      }
      ghost var freed := handle.usb;
      k := |detached|;
      while k > d
        invariant d <= k <= |detached| && |attaches| == |detached| - k
        invariant handle.usb == AttachBackwards(freed, detached[k..], attaches)
      {
        k := k - 1;
        var ok := handle.AttachKernelDriver(detached[k]);
        attaches := [ok] + attaches;
        assert detached[k..][1..] == detached[k + 1..];
      }
    }

    /** One claim with its calls, and the driver it loses, if it loses one. */
    method ClaimTraced(i: Interface, ghost drivers: set<Interface>)
      returns (ok: bool, ghost lost: set<Interface>, ghost calls: seq<Call>)
      requires i !in claimed
      modifies this, handle
      ensures claimed == old(claimed) + if ok then [i] else []
      ensures !ok ==> detached == old(detached)
      ensures lost <= {i} && (ok ==> lost == {})
      ensures old(Balanced(State(), drivers)) ==> Balanced(State(), drivers - lost)
      ensures handle.usb.calls == old(handle.usb.calls) + calls && Attempt(i in old(handle.usb.attached), i, calls, ok)
      ensures forall k :: k != i ==> (k in handle.usb.attached <==> k in old(handle.usb.attached))
    {
      ghost var before := State();
      ghost var fate;
      ok, fate := ClaimInterface(i);
      lost := if LosesDriver(before, i, fate) then {i} else {};
      calls := handle.usb.calls[|before.usb.calls|..];
      ClaimIsTraced(before, i, fate);
      if Balanced(before, drivers) {
        ClaimKeepsBalance(before, i, fate, drivers);
      }
      assert drivers - {} == drivers;
    }

    /** Claims an interface the handle can do without; a failed claim is rolled back to where it started. */
    method ClaimOptional(i: Interface, ghost drivers: set<Interface>)
      returns (ok: bool, ghost lost: set<Interface>, ghost calls: seq<Call>)
      requires i !in claimed
      modifies this, handle
      ensures claimed == old(claimed) + if ok then [i] else []
      ensures !ok ==> detached == old(detached)
      ensures lost <= {i} && (ok ==> lost == {})
      ensures old(Balanced(State(), drivers)) ==> Balanced(State(), drivers - lost)
      ensures handle.usb.calls == old(handle.usb.calls) + calls && Attempt(i in old(handle.usb.attached), i, calls, ok)
    {
      var c, d := |claimed|, |detached|;
      ok, lost, calls := ClaimTraced(i, drivers);
      if !ok {
        ghost var _, _ := RollbackInterfaces(c, d);
      }
    }

    /** Dropping the handle gives everything back. */
    method Drop() returns (ghost releases: seq<bool>, ghost attaches: seq<bool>)
      modifies handle
      ensures |releases| == |claimed| && |attaches| == |detached|
      ensures handle.usb == GivenBack(old(State()), 0, 0, releases, attaches)
    {
      releases, attaches := GiveBack(0, 0);
    }
  }

  /**
   * Opening a panel: the vendor interface is required, the HID interface is
   * optional and rolled back when it cannot be claimed. What is returned
   * balances for every driver not lost to a failed claim. `first` and `second`
   * are the calls of the two attempts; each succeeds exactly when its claim is
   * answered yes, and the second is made whenever there is something to claim.
   */
  method OpenInterfaces(handle: InterfaceHandle, vendor: Interface, hid: Option<Interface>)
    returns (claims: Claims, ready: bool, hidInput: bool, ghost lost: set<Interface>,
             ghost first: seq<Call>, ghost second: seq<Call>)
    requires handle.usb.claimed == {}
    modifies handle
    ensures fresh(claims) && claims.handle == handle
    ensures Balanced(claims.State(), old(handle.usb.attached) - lost)
    ensures ready && (hid.Some? ==> hidInput) ==> lost == {}
    ensures !ready ==> claims.claimed == [] && !hidInput
    ensures ready ==> claims.claimed == if hidInput && hid.Some? && hid.value != vendor then [vendor, hid.value] else [vendor]
    ensures hid == None ==> !hidInput
    ensures ready && hid == Some(vendor) ==> hidInput
    ensures handle.usb.calls == old(handle.usb.calls) + first + second
    ensures Attempt(vendor in old(handle.usb.attached), vendor, first, ready)
    ensures ready <==> ClaimCall(vendor, true) in first
    ensures if ready && hid.Some? && hid.value != vendor then
              && Attempt(hid.value in old(handle.usb.attached), hid.value, second, hidInput)
              && (hidInput <==> ClaimCall(hid.value, true) in second)
              && (!hidInput <==> ClaimCall(hid.value, false) in second || DetachCall(hid.value, false) in second)
            else second == []
  {
    claims := new Claims(handle);
    ghost var drivers := handle.usb.attached;
    assert Balanced(claims.State(), drivers);
    ready, lost, first := claims.ClaimTraced(vendor, drivers);
    AttemptAnswered(vendor in drivers, vendor, first, ready);
    second := [];
    hidInput := ready && hid.Some?;
    if ready && hid.Some? && hid.value != vendor {
      assert drivers - {} == drivers;
      hidInput, lost, second := claims.ClaimOptional(hid.value, drivers);
      AttemptAnswered(hid.value in drivers, hid.value, second, hidInput);
    }
  }
}
