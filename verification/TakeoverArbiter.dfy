/** The takeover component itself: one pending-request map changed by methods that call each other
    re-entrantly, proved against the state machine of `TakeoverProtocol`. */
module TakeoverArbiter {
  import opened Common
  import opened TakeoverProtocol
  import opened TakeoverRuns

  class TaskCommandTakeovers {
    var pending: Pending
    var leases: map<TaskId, Lease>
    var online: set<ClientId>
    var broken: set<ClientId>
    ghost var accepted: multiset<Request>
    ghost var settled: multiset<Request>
    ghost var grants: seq<Grant>
    ghost var told: seq<(ClientId, Message)>

    ghost function State(): State
      reads this
    {
      TakeoverProtocol.State(pending, leases, online, broken, accepted, settled, grants, told)
    }

    /** Between events: every pending request asks the controller of its task, and both sides are connected. */
    ghost predicate Valid()
      reads this
    {
      Quiescent(State())
    }

    constructor ()
      ensures State() == INIT && Valid()
    {
      pending, leases, online, broken := [], map[], {}, {};
      accepted, settled, grants, told := multiset{}, multiset{}, [], [];
    }

    function CurrentController(t: TaskId): Option<ClientId>
      reads this
    {
      if t in leases then Some(leases[t].client) else None
    }

    method ControllerChange(r: Request) returns (d: Option<Decision>)
      ensures d == ControllerChangeDecision(State(), r)
    {
      var c := CurrentController(r.task);
      if c.None? {
        return Some(OwnerMissing);
      }
      if c.value == r.requester {
        return Some(Approved);
      }
      if c.value != r.target {
        return Some(Denied);
      }
      return None;
    }

    // ---- the cascade ------------------------------------------------------

    method ResolveRequest(id: string, decision: Decision)
      modifies this
      ensures State() == Resolve(old(State()), id, decision)
      decreases |pending|, 0, 0
    {
      hide Apply, Notify, Drop, Find, ControllerChangeDecision;
      var found := Find(pending, id);
      if found.None? {
        return;
      }
      var r := found.value;
      pending := Drop(pending, id);
      var resolved := decision;
      if decision == Approved || decision == OwnerMissing {
        ApplyApprovedTakeover(r);
        if CurrentController(r.task) != Some(r.requester) {
          resolved := Denied;
        }
      }
      settled := settled + multiset{r};
      SendResult(r, resolved);
    }

    method ApplyApprovedTakeover(r: Request)
      modifies this
      ensures State() == Apply(old(State()), r)
      decreases |pending|, 2, 0
    {
      hide Reconcile;
      var lease := Lease(r.requester, r.action);
      var changed := !(r.task in leases && leases[r.task] == lease);
      leases := leases[r.task := lease];
      grants := grants + [Grant(r.task, r.requester)];
      if changed {
        ReconcileTask(r.task);
      }
    }

    method SendResult(r: Request, d: Decision)
      modifies this
      ensures State() == Notify(old(State()), r, d)
      decreases |pending|, 3, 0
    {
      hide Tell;
      SendToClient(r.requester, Result(r.id, r.task, d));
      if r.target != r.requester {
        SendToClient(r.target, Result(r.id, r.task, d));
      }
    }

    method SendToClient(c: ClientId, m: Message)
      modifies this
      ensures State() == Tell(old(State()), c, m)
      decreases |pending|, 2, 0
    {
      hide CleanupRequests;
      if c !in online {
        return;
      }
      if c in broken {
        online, broken := online - {c}, broken - {c};
        CleanupRequestsForClient(c);
        return;
      }
      told := told + [(c, m)];
    }

    method ReconcileTask(t: TaskId)
      modifies this
      ensures State() == Reconcile(old(State()), t, old(pending))
      decreases |pending|, 1, |pending| + 1
    {
      hide Reconcile, Resolve, ControllerChangeDecision;
      var snapshot := pending;
      var i := 0;
      assert snapshot[0..] == snapshot;
      while i < |snapshot|
        invariant 0 <= i <= |snapshot|
        invariant Reconcile(State(), t, snapshot[i..]) == Reconcile(old(State()), t, snapshot)
        invariant |pending| <= |old(pending)|
      {
        ReconcileNext(State(), t, snapshot, i);
        var request := snapshot[i];
        i := i + 1;
        if request.task == t {
          var decision := ControllerChange(request);
          if decision.Some? {
            ResolveRequest(request.id, decision.value);
          }
        }
      }
      ReconcileNext(State(), t, snapshot, i);
    }

    method CleanupRequestsForClient(c: ClientId)
      modifies this
      ensures State() == CleanupRequests(old(State()), c, old(pending))
      decreases |pending|, 1, |pending| + 1
    {
      hide CleanupRequests, Resolve;
      var snapshot := pending;
      var i := 0;
      assert snapshot[0..] == snapshot;
      while i < |snapshot|
        invariant 0 <= i <= |snapshot|
        invariant CleanupRequests(State(), c, snapshot[i..]) == CleanupRequests(old(State()), c, snapshot)
        invariant |pending| <= |old(pending)|
      {
        CleanupNext(State(), c, snapshot, i);
        var request := snapshot[i];
        i := i + 1;
        if request.requester == c {
          ResolveRequest(request.id, Denied);
        } else if request.target == c {
          ResolveRequest(request.id, OwnerMissing);
        }
      }
      CleanupNext(State(), c, snapshot, i);
    }

    // ---- entry points -----------------------------------------------------

    method RequestTakeover(r: Request)
      requires r.requester in online
      modifies this
      ensures State() == Step(old(State()), Event.RequestTakeover(r))
      ensures WinsOnce(old(State()), Event.RequestTakeover(r), State())
    {
      hide Tell, Put, WinsOnce;
      TurnWinsOnce(State(), Event.RequestTakeover(r));
      var c := CurrentController(r.task);
      if c.None? || c.value != r.target {
        SendToClient(r.requester, Result(r.id, r.task, OwnerMissing));
      } else if r.requester == r.target {
        SendToClient(r.requester, Result(r.id, r.task, Approved));
      } else if r.target !in online {
        SendToClient(r.requester, Result(r.id, r.task, OwnerMissing));
      } else {
        pending := Put(pending, r);
        accepted := accepted + multiset{r};
        SendToClient(r.target, Ask(r));
      }
    }

    method RespondTakeover(responder: ClientId, id: string, approved: bool)
      modifies this
      ensures State() == Step(old(State()), Event.RespondTakeover(responder, id, approved))
      ensures WinsOnce(old(State()), Event.RespondTakeover(responder, id, approved), State())
    {
      hide Resolve, Find, ControllerChangeDecision, WinsOnce;
      TurnWinsOnce(State(), Event.RespondTakeover(responder, id, approved));
      var found := Find(pending, id);
      if found.None? || found.value.target != responder {
        return;
      }
      var forced := ControllerChange(found.value);
      var decision := if forced.Some? then forced.value else if approved then Approved else Denied;
      ResolveRequest(id, decision);
    }

    method RequestTimesOut(id: string, presence: Presence)
      modifies this
      ensures State() == Step(old(State()), Event.RequestTimesOut(id, presence))
      ensures WinsOnce(old(State()), Event.RequestTimesOut(id, presence), State())
    {
      hide Resolve, Find, ControllerChangeDecision, WinsOnce;
      TurnWinsOnce(State(), Event.RequestTimesOut(id, presence));
      var found := Find(pending, id);
      if found.None? {
        return;
      }
      var decision := ForceRequired;
      var forced := ControllerChange(found.value);
      if forced.Some? {
        decision := forced.value;
      } else if found.value.target !in online {
        decision := OwnerMissing;
      } else if presence == Hidden || presence == Idle {
        decision := Approved;
      }
      ResolveRequest(id, decision);
    }

    method AcquireLease(t: TaskId, c: ClientId, action: string, takeover: bool)
      modifies this
      ensures State() == Step(old(State()), Event.AcquireLease(t, c, action, takeover))
      ensures WinsOnce(old(State()), Event.AcquireLease(t, c, action, takeover), State())
    {
      hide Reconcile, WinsOnce;
      TurnWinsOnce(State(), Event.AcquireLease(t, c, action, takeover));
      if t in leases && leases[t].client != c && !takeover {
        return;
      }
      var changed := !(t in leases && leases[t] == Lease(c, action));
      leases := leases[t := Lease(c, action)];
      if changed {
        ReconcileTask(t);
      }
    }

    method AnnounceReleased(tasks: seq<TaskId>)
      modifies this
      ensures State() == ReleaseStep(old(State()), tasks)
      ensures WinsOnce(old(State()), LeasesReleased(tasks), State())
    {
      hide WinsOnce;
      TurnWinsOnce(State(), LeasesReleased(tasks));
      leases := leases - (set t | t in tasks);
      ghost var goal := ReconcileEach(State(), tasks);
      var i := 0;
      while i < |tasks|
        invariant 0 <= i <= |tasks|
        invariant ReconcileEach(State(), tasks[i..]) == goal
      {
        assert tasks[i..][1..] == tasks[i + 1..];
        ReconcileTask(tasks[i]);
        i := i + 1;
      }
    }

    method ClientDisconnects(c: ClientId)
      modifies this
      ensures State() == Step(old(State()), Event.ClientDisconnects(c))
      ensures WinsOnce(old(State()), Event.ClientDisconnects(c), State())
    {
      hide WinsOnce;
      TurnWinsOnce(State(), Event.ClientDisconnects(c));
      if c in online {
        online, broken := online - {c}, broken - {c};
        CleanupRequestsForClient(c);
      }
    }
  }

  /** From a quiescent state and with working sockets of the asked clients, the event granted each task to
      at most one client, left that client in control, and ended quiescent. */
  ghost predicate WinsOnce(s: State, e: Event, s': State) {
    Quiescent(s) && Live(s, e) ==> Quiescent(s') && forall t :: OneWinner(s, s', t)
  }

  lemma TurnWinsOnce(s: State, e: Event)
    ensures WinsOnce(s, e, Step(s, e))
  {
    hide Step, Quiescent, Live, OneWinner;
    if Quiescent(s) && Live(s, e) {
      CascadeHasOneWinner(s, e);
    }
  }

  lemma ReconcileNext(s: State, t: TaskId, todo: seq<Request>, i: nat)
    requires i <= |todo|
    ensures Reconcile(s, t, todo[i..]) ==
            if i == |todo| then s
            else
              var d := if todo[i].task == t then ControllerChangeDecision(s, todo[i]) else None;
              Reconcile(if d.Some? then Resolve(s, todo[i].id, d.value) else s, t, todo[i + 1..])
  {
    hide Resolve, ControllerChangeDecision;
    if i < |todo| {
      assert todo[i..][1..] == todo[i + 1..];
    }
  }

  lemma CleanupNext(s: State, c: ClientId, todo: seq<Request>, i: nat)
    requires i <= |todo|
    ensures CleanupRequests(s, c, todo[i..]) ==
            if i == |todo| then s
            else
              CleanupRequests(if todo[i].requester == c then Resolve(s, todo[i].id, Denied)
                              else if todo[i].target == c then Resolve(s, todo[i].id, OwnerMissing) else s,
                              c, todo[i + 1..])
  {
    hide Resolve;
    if i < |todo| {
      assert todo[i..][1..] == todo[i + 1..];
    }
  }
}
