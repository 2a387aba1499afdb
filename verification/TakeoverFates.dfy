/** What one unnoticed broken socket makes of a takeover cascade, request by request. */
module TakeoverFates {
  import opened Common
  import opened TakeoverProtocol
  import opened TakeoverProofs
  import opened TakeoverRuns

  // ---- the requests for one task ------------------------------------------------

  /** In the order of the pending map. */
  function On(ps: seq<Request>, t: TaskId): seq<Request> {
    if ps == [] then [] else (if ps[0].task == t then [ps[0]] else []) + On(ps[1..], t)
  }

  lemma {:induction false} OnMembers(ps: seq<Request>, t: TaskId)
    ensures forall r :: r in On(ps, t) <==> r in ps && r.task == t
  {
    if ps != [] {
      OnMembers(ps[1..], t);
      assert forall r :: r in ps <==> r == ps[0] || r in ps[1..];
    }
  }

  lemma {:induction false} OnDrop(ps: Pending, id: string, t: TaskId)
    requires Find(ps, id).Some?
    ensures Find(ps, id).value.task != t ==> On(Drop(ps, id), t) == On(ps, t)
    ensures Find(ps, id).value.task == t ==> |On(Drop(ps, id), t)| + 1 == |On(ps, t)|
    ensures On(ps, t) != [] && On(ps, t)[0].id == id ==> On(Drop(ps, id), t) == On(ps, t)[1..]
    decreases |ps|
  {
    hide Drop, On;
    OnFirst(ps, t);
    DropFirst(ps, id);
    OnMembers(ps[1..], t);
    assert [] + On(ps[1..], t) == On(ps[1..], t);
    assert On(ps[1..], t) != [] ==> On(ps[1..], t)[0] in ps[1..];
    if ps[0].id != id {
      OnDrop(ps[1..], id, t);
      var rest := Drop(ps[1..], id);
      OnFirst([ps[0]] + rest, t);
      assert ([ps[0]] + rest)[1..] == rest && [] + On(rest, t) == On(rest, t);
    }
  }

  lemma OnFirst(ps: seq<Request>, t: TaskId)
    requires ps != []
    ensures On(ps, t) == (if ps[0].task == t then [ps[0]] else []) + On(ps[1..], t)
  {
  }

  lemma DropFirst(ps: Pending, id: string)
    requires Find(ps, id).Some?
    ensures ps != [] && if ps[0].id == id then Drop(ps, id) == ps[1..] && Find(ps, id) == Some(ps[0])
            else Find(ps[1..], id) == Find(ps, id) && Drop(ps, id) == [ps[0]] + Drop(ps[1..], id)
  {
  }

  lemma FindMember(ps: Pending, r: Request)
    requires r in ps
    ensures Find(ps, r.id) == Some(r)
  {
    var f := Find(ps, r.id);
    assert f.Some?;
    var i :| 0 <= i < |ps| && ps[i] == r;
    var j :| 0 <= j < |ps| && ps[j] == f.value;
  }

  // ---- broken sockets -----------------------------------------------------------

  /** The client is connected through a broken socket, and nobody else is. */
  predicate OnlyBroken(s: State, x: ClientId) {
    x in s.online && x in s.dead && s.online * s.dead <= {x}
  }

  predicate AllSafe(s: State) {
    s.online * s.dead == {}
  }

  predicate AsksOnly(s: State, t: TaskId, x: ClientId) {
    forall r :: r in s.pending && r.task == t ==> r.target == x && r.requester != x
  }

  /** Telling a client through a broken socket disconnects it. */
  lemma TellLeaves(s: State, c: ClientId, m: Message)
    requires c in s.online ==> c in s.dead
    ensures c !in Tell(s, c, m).online
  {
    hide CleanupRequests;
  }

  lemma NotifyLeaves(s: State, r: Request, d: Decision, c: ClientId)
    requires Involves(r, c) && (c in s.online ==> c in s.dead)
    ensures c !in Notify(s, r, d).online
  {
    hide Tell;
    var m := Result(r.id, r.task, d);
    var s1 := Tell(s, r.requester, m);
    if r.requester == c {
      TellLeaves(s, c, m);
    } else {
      assert Follows(s, s1);
      TellLeaves(s1, c, m);
    }
    assert Follows(s1, Tell(s1, r.target, m));
  }

  /** Telling clients with working sockets only adds to what they were told. */
  lemma NotifySafe(s: State, r: Request, d: Decision)
    requires Safe(s, r.requester) && Safe(s, r.target)
    ensures Notify(s, r, d) == s.(told := Notify(s, r, d).told)
  {
  }

  /** The second of the two tells finds the broken socket and cleans up after its client. */
  lemma NotifyFinds(s: State, r: Request, d: Decision, x: ClientId) returns (s1: State)
    requires OnlyBroken(s, x) && r.target == x && r.requester != x
    ensures s1 == s.(online := s.online - {x}, dead := s.dead - {x}, told := s1.told)
    ensures Notify(s, r, d) == CleanupRequests(s1, x, s1.pending) && AllSafe(s1)
  {
    hide CleanupRequests;
    var m := Result(r.id, r.task, d);
    var s0 := Tell(s, r.requester, m);
    assert r.requester in s.online && r.requester in s.dead ==> r.requester in s.online * s.dead;
    assert s0 == s.(told := s0.told);
    s1 := s0.(online := s0.online - {x}, dead := s0.dead - {x});
  }

  // ---- tasks a request does not touch -------------------------------------------

  /** Nothing about the task changed, and nobody left. */
  predicate Frame(s: State, s': State, t: TaskId) {
    && On(s'.pending, t) == On(s.pending, t)
    && (t in s'.leases <==> t in s.leases) && (t in s.leases ==> s'.leases[t] == s.leases[t])
    && NoNewGrants(s, s', t)
    && s'.online == s.online && s'.dead == s.dead
  }

  lemma FrameTwice(a: State, b: State, c: State, t: TaskId)
    requires Follows(a, b) && Follows(b, c) && Frame(a, b, t) && Frame(b, c, t)
    ensures Frame(a, c, t)
  {
    forall i | |a.grants| <= i < |c.grants|
      ensures c.grants[i].task != t
    {
      if i < |b.grants| {
        assert b.grants[i] == c.grants[i];
      }
    }
  }

  /** No request for the task is by or to a broken socket. */
  predicate Spared(s: State, u: TaskId) {
    forall r :: r in s.pending && r.task == u ==> Safe(s, r.requester) && Safe(s, r.target)
  }

  lemma SparedStays(s: State, s': State, u: TaskId)
    requires Spared(s, u) && Follows(s, s')
    ensures Spared(s', u)
  {
  }

  /** Resolving a request for another task among working sockets. */
  lemma {:induction false} FrameResolve(s: State, id: string, d: Decision, u: TaskId, t: TaskId)
    requires u != t && Spared(s, u) && (Find(s.pending, id).Some? ==> Find(s.pending, id).value.task == u)
    ensures Frame(s, Resolve(s, id, d), t)
    decreases |s.pending|, 0, 0
  {
    hide Apply, Notify, Drop, On;
    var found := Find(s.pending, id);
    if found.Some? {
      var r := found.value;
      var s1 := s.(pending := Drop(s.pending, id));
      OnDrop(s.pending, id, t);
      if Grants(d) {
        FrameApply(s1, r, t);
      }
      var s2 := if Grants(d) then Apply(s1, r) else s1;
      var s3 := s2.(settled := s2.settled + multiset{r});
      assert r in s.pending;
      var resolved := if Grants(d) && Controller(s2, r.task) != Some(r.requester) then Denied else d;
      NotifySafe(s3, r, resolved);
    }
  }

  lemma {:induction false} FrameApply(s: State, r: Request, t: TaskId)
    requires r.task != t && Spared(s, r.task)
    ensures Frame(s, Apply(s, r), t)
    decreases |s.pending|, 2, 0
  {
    hide Reconcile, On;
    var lease := Lease(r.requester, r.action);
    var s1 := s.(leases := s.leases[r.task := lease], grants := s.grants + [Grant(r.task, r.requester)]);
    assert Frame(s, s1, t) && Follows(s, s1);
    FrameReconcile(s1, r.task, s1.pending, t);
    FrameTwice(s, s1, Reconcile(s1, r.task, s1.pending), t);
  }

  lemma {:induction false} FrameReconcile(s: State, u: TaskId, todo: seq<Request>, t: TaskId)
    requires u != t && Spared(s, u) && Snapshot(s, todo)
    ensures Frame(s, Reconcile(s, u, todo), t)
    decreases |s.pending|, 1, |todo|
  {
    hide Resolve, On;
    if todo != [] {
      var d := if todo[0].task == u then ControllerChangeDecision(s, todo[0]) else None;
      if d.Some? {
        FrameResolve(s, todo[0].id, d.value, u, t);
      }
      var s1 := if d.Some? then Resolve(s, todo[0].id, d.value) else s;
      SparedStays(s, s1, u);
      FrameReconcile(s1, u, todo[1..], t);
      FrameTwice(s, s1, Reconcile(s1, u, todo[1..]), t);
    }
  }

  // ---- the fate of a task ---------------------------------------------------------

  /** Who holds the task in the end, and whether the client that held it at the beginning was granted it
      on the way. (If that is one client the second part says nothing.) */
  datatype Fate = Fate(holder: ClientId, granted: bool)

  function LeaseFor(r: Request): Lease {
    Lease(r.requester, r.action)
  }

  /** Once the broken socket was found, its client's requests are granted one after the other. The first
      that moves the lease closes all that are left. */
  function Sweep(lease: Lease, rs: seq<Request>): Fate
    decreases |rs|
  {
    if rs == [] then Fate(lease.client, false)
    else if LeaseFor(rs[0]) == lease then Sweep(lease, rs[1..]).(granted := true)
    else Fate(rs[0].requester, false)
  }

  /** The lease has just moved and the other requests are being closed. The first that is told finds the
      broken socket: a denied one, or one of the holder that asks for nothing new. */
  function Cascade(lease: Lease, qs: seq<Request>): Fate
    decreases |qs|
  {
    if qs == [] then Fate(lease.client, false)
    else if qs[0].requester != lease.client then Sweep(lease, qs[1..])
    else if LeaseFor(qs[0]) == lease then Sweep(lease, qs[1..]).(granted := true)
    else Cascade(LeaseFor(qs[0]), qs[1..]).(granted := true)
  }

  ghost predicate GrantedTo(s: State, s': State, t: TaskId, b: ClientId) {
    exists i :: |s.grants| <= i < |s'.grants| && s'.grants[i] == Grant(t, b)
  }

  ghost predicate GrantsOnlyTo(s: State, s': State, t: TaskId, a: ClientId, b: ClientId) {
    forall i :: |s.grants| <= i < |s'.grants| && s'.grants[i].task == t ==> s'.grants[i].client in {a, b}
  }

  ghost predicate Fated(s: State, s': State, t: TaskId, h: ClientId, f: Fate) {
    && Taken(s', t, f.holder)
    && GrantsOnlyTo(s, s', t, h, f.holder)
    && (f.holder != h ==> GrantedTo(s, s', t, f.holder) && (GrantedTo(s, s', t, h) <==> f.granted))
  }

  lemma GrantedStays(s: State, s1: State, s2: State, t: TaskId, b: ClientId)
    requires Follows(s, s1) && Follows(s1, s2)
    ensures GrantedTo(s, s2, t, b) <==> GrantedTo(s, s1, t, b) || GrantedTo(s1, s2, t, b)
  {
    if i :| |s.grants| <= i < |s1.grants| && s1.grants[i] == Grant(t, b) {
      assert s2.grants[i] == Grant(t, b);
    }
    if i :| |s1.grants| <= i < |s2.grants| && s2.grants[i] == Grant(t, b) {
      assert |s.grants| <= i;
    }
    if i :| |s.grants| <= i < |s2.grants| && s2.grants[i] == Grant(t, b) && i < |s1.grants| {
      assert s1.grants[i] == Grant(t, b);
    }
  }

  lemma OnlyToTwice(s: State, s1: State, s2: State, t: TaskId, a: ClientId, b: ClientId)
    requires Follows(s, s1) && Follows(s1, s2) && GrantsOnlyTo(s, s1, t, a, b) && GrantsOnlyTo(s1, s2, t, a, b)
    ensures GrantsOnlyTo(s, s2, t, a, b)
  {
    forall i | |s.grants| <= i < |s2.grants| && s2.grants[i].task == t
      ensures s2.grants[i].client in {a, b}
    {
      if i < |s1.grants| {
        assert s1.grants[i] == s2.grants[i];
      }
    }
  }

  lemma NotGranted(s: State, s': State, t: TaskId, a: ClientId, b: ClientId)
    requires NewGrantsTo(s, s', t, a) && a != b
    ensures !GrantedTo(s, s', t, b)
  {
  }

  /** First only the holder was granted the task, or nobody; then came the rest. */
  lemma FatedAfter(s: State, s1: State, s2: State, t: TaskId, h: ClientId, f: Fate, before: bool)
    requires Follows(s, s1) && Follows(s1, s2) && NewGrantsTo(s, s1, t, h)
    requires GrantedTo(s, s1, t, h) <==> before
    requires Fated(s1, s2, t, h, f)
    ensures Fated(s, s2, t, h, f.(granted := before || f.granted))
  {
    hide GrantedTo;
    GrantedStays(s, s1, s2, t, h);
    GrantedStays(s, s1, s2, t, f.holder);
    OnlyToTwice(s, s1, s2, t, h, f.holder);
  }

  /** What follows only grants the task to its new holder. */
  lemma FatedThen(s: State, s1: State, s2: State, t: TaskId, h: ClientId, f: Fate)
    requires Follows(s, s1) && Follows(s1, s2) && Fated(s, s1, t, h, f)
    requires Closing(s2, t, f.holder) && NewGrantsTo(s1, s2, t, f.holder)
    ensures Fated(s, s2, t, h, f)
  {
    hide GrantedTo;
    TakenStays(s1, s2, t, f.holder);
    OnlyToTwice(s, s1, s2, t, h, f.holder);
    GrantedStays(s, s1, s2, t, f.holder);
    if f.holder != h {
      GrantedStays(s, s1, s2, t, h);
      NotGranted(s1, s2, t, f.holder, h);
    }
  }

  lemma FatedAtOnce(s: State, s': State, t: TaskId, h: ClientId, b: ClientId)
    requires Taken(s', t, b) && NewGrantsTo(s, s', t, b) && GrantedTo(s, s', t, b)
    ensures Fated(s, s', t, h, Fate(b, false))
  {
    if b != h {
      NotGranted(s, s', t, b, h);
    }
  }

  lemma FatedQuietly(s: State, t: TaskId, h: ClientId)
    requires Controller(s, t) == Some(h) && On(s.pending, t) == []
    ensures Fated(s, s, t, h, Fate(h, false))
  {
    OnMembers(s.pending, t);
  }

  /** One winner, or two. */
  lemma FateDecides(s: State, s': State, t: TaskId, h: ClientId, f: Fate)
    requires Fated(s, s', t, h, f)
    ensures OneWinner(s, s', t) <==> f.holder == h || !f.granted
  {
    if f.holder == h {
      assert NewGrantsTo(s, s', t, h);
    } else if f.granted {
      var i :| |s.grants| <= i < |s'.grants| && s'.grants[i] == Grant(t, h);
      assert s'.grants[i].task == t;
    } else {
      forall i | |s.grants| <= i < |s'.grants| && s'.grants[i].task == t
        ensures s'.grants[i].client == f.holder
      {
        assert s'.grants[i] == Grant(t, s'.grants[i].client);
      }
      assert NewGrantsTo(s, s', t, f.holder);
    }
  }

  // ---- after the broken socket was found --------------------------------------------

  /** Granting a request. */
  lemma ApplyGrants(s: State, r: Request)
    ensures GrantedTo(s, Apply(s, r), r.task, r.requester)
  {
    hide Reconcile;
    var s1 := s.(leases := s.leases[r.task := LeaseFor(r)], grants := s.grants + [Grant(r.task, r.requester)]);
    assert s1.grants[|s.grants|] == Grant(r.task, r.requester);
    assert Follows(s1, Reconcile(s1, r.task, s1.pending));
    assert Apply(s, r).grants[|s.grants|] == Grant(r.task, r.requester);
  }

  lemma ResolveGrants(s: State, id: string, d: Decision)
    requires Grants(d) && Find(s.pending, id).Some?
    ensures GrantedTo(s, Resolve(s, id, d), Find(s.pending, id).value.task, Find(s.pending, id).value.requester)
  {
    hide Apply, Notify, Drop, GrantedTo;
    var r := Find(s.pending, id).value;
    var s1 := s.(pending := Drop(s.pending, id));
    ApplyGrants(s1, r);
    var s2 := Apply(s1, r);
    var s3 := s2.(settled := s2.settled + multiset{r});
    var resolved := if Controller(s2, r.task) != Some(r.requester) then Denied else d;
    SettlingFollows(s, id, s2);
    SameGranted(s, s1, s2, s3, r.task, r.requester);
    GrantedStays(s, s3, Notify(s3, r, resolved), r.task, r.requester);
  }

  lemma SameGranted(s: State, s1: State, s2: State, s3: State, t: TaskId, b: ClientId)
    requires s1.grants == s.grants && s3.grants == s2.grants
    ensures GrantedTo(s, s3, t, b) <==> GrantedTo(s1, s2, t, b)
  {
  }

  /** Granting the holder what it has, among working sockets: no lease moves, nothing else is resolved. */
  lemma RepeatIsSmall(s: State, r: Request, d: Decision)
    requires AllSafe(s) && r in s.pending && Grants(d)
    requires r.task in s.leases && s.leases[r.task] == LeaseFor(r)
    ensures var s' := Resolve(s, r.id, d);
            && s'.pending == Drop(s.pending, r.id) && s'.leases == s.leases
            && s'.online == s.online && s'.dead == s.dead
            && s'.grants == s.grants + [Grant(r.task, r.requester)]
  {
    hide Drop, Reconcile, Find, Notify;
    FindMember(s.pending, r);
    var s1 := s.(pending := Drop(s.pending, r.id));
    assert s1.leases[r.task := LeaseFor(r)] == s1.leases;
    var s2 := Apply(s1, r);
    assert s2 == s1.(grants := s1.grants + [Grant(r.task, r.requester)]);
    var s3 := s2.(settled := s2.settled + multiset{r});
    AllSafeMeansEach(s3);
    NotifySafe(s3, r, d);
  }

  lemma OneGrant(s: State, s': State, t: TaskId, h: ClientId)
    requires s'.grants == s.grants + [Grant(t, h)]
    ensures NewGrantsTo(s, s', t, h) && GrantedTo(s, s', t, h)
  {
    assert s'.grants[|s.grants|] == Grant(t, h);
  }

  lemma NoGrants(s: State, s': State, t: TaskId, h: ClientId)
    requires NoNewGrants(s, s', t)
    ensures NewGrantsTo(s, s', t, h) && !GrantedTo(s, s', t, h)
  {
  }

  lemma SafeStays(s: State, s': State)
    requires AllSafe(s) && Follows(s, s')
    ensures AllSafe(s')
  {
    assert s'.online * s'.dead <= s.online * s.dead;
  }

  lemma AllSafeMeansEach(s: State)
    requires AllSafe(s)
    ensures forall c :: Safe(s, c)
    ensures forall u :: Spared(s, u) && LiveTargets(s, u)
  {
    forall c
      ensures Safe(s, c)
    {
      assert c in s.online && c in s.dead ==> c in s.online * s.dead;
    }
  }

  /** Cleaning up after the client with the broken socket is the sweep. */
  lemma {:induction false} CleanupSweeps(s: State, x: ClientId, todo: seq<Request>, t: TaskId)
    requires AllSafe(s) && x !in s.online && Snapshot(s, todo) && AsksOnly(s, t, x)
    requires t in s.leases && s.leases[t].client != x
    requires On(todo, t) == On(s.pending, t)
    ensures Fated(s, CleanupRequests(s, x, todo), t, s.leases[t].client, Sweep(s.leases[t], On(s.pending, t)))
    decreases |todo|
  {
    hide Resolve, Fated, Frame;
    var h := s.leases[t].client;
    if todo == [] {
      FatedQuietly(s, t, h);
    } else {
      var p, rest := todo[0], todo[1..];
      AllSafeMeansEach(s);
      if p.task != t {
        var s1 := if p.requester == x then Resolve(s, p.id, Denied)
                  else if p.target == x then Resolve(s, p.id, OwnerMissing) else s;
        SideStep(s, x, p, s1, t);
        SafeStays(s, s1);
        CleanupSweeps(s1, x, rest, t);
        NoGrants(s, s1, t, h);
        FatedAfter(s, s1, CleanupRequests(s1, x, rest), t, h, Sweep(s.leases[t], On(s.pending, t)), false);
      } else {
        OnMembers(s.pending, t);
        assert p == On(s.pending, t)[0] && p in s.pending;
        OnDrop(s.pending, p.id, t);
        FindMember(s.pending, p);
        var s1 := Resolve(s, p.id, OwnerMissing);
        if LeaseFor(p) == s.leases[t] {
          RepeatIsSmall(s, p, OwnerMissing);
          CleanupSweeps(s1, x, rest, t);
          OneGrant(s, s1, t, h);
          FatedAfter(s, s1, CleanupRequests(s1, x, rest), t, h, Sweep(s.leases[t], On(s1.pending, t)), true);
        } else {
          MoveTakes(s, p.id, OwnerMissing);
          ResolveGrants(s, p.id, OwnerMissing);
          FatedAtOnce(s, s1, t, h, p.requester);
          TakenIsClosing(s1, t, p.requester);
          ClosingCleanup(s1, x, rest, t, p.requester);
          FatedThen(s, s1, CleanupRequests(s1, x, rest), t, h, Fate(p.requester, false));
        }
      }
    }
  }

  lemma SideStep(s: State, x: ClientId, p: Request, s1: State, t: TaskId)
    requires p.task != t && Spared(s, p.task) && Snapshot(s, [p])
    requires s1 == if p.requester == x then Resolve(s, p.id, Denied)
                   else if p.target == x then Resolve(s, p.id, OwnerMissing) else s
    ensures Frame(s, s1, t) && Follows(s, s1) && On(s1.pending, t) == On(s.pending, t) && NoNewGrants(s, s1, t)
    ensures (t in s1.leases <==> t in s.leases) && (t in s.leases ==> s1.leases[t] == s.leases[t])
    ensures s1.online == s.online
  {
    hide Resolve, On;
    assert p in [p];
    FrameResolve(s, p.id, Denied, p.task, t);
    FrameResolve(s, p.id, OwnerMissing, p.task, t);
  }

  // ---- with the broken socket still unnoticed -------------------------------------------

  /** Telling the two sides of a settled request sets off the sweep. */
  lemma NotifySweeps(s: State, r: Request, d: Decision, x: ClientId, t: TaskId)
    requires OnlyBroken(s, x) && r.target == x && r.requester != x && AsksOnly(s, t, x)
    requires t in s.leases && s.leases[t].client != x
    ensures Fated(s, Notify(s, r, d), t, s.leases[t].client, Sweep(s.leases[t], On(s.pending, t)))
    ensures x !in Notify(s, r, d).online
  {
    hide Notify, CleanupRequests, Fated, On;
    var s1 := NotifyFinds(s, r, d, x);
    CleanupSweeps(s1, x, s1.pending, t);
    SameFate(s, s1, CleanupRequests(s1, x, s1.pending), t, s.leases[t].client, Sweep(s.leases[t], On(s.pending, t)));
    assert Follows(s1, CleanupRequests(s1, x, s1.pending));
  }

  lemma SameFate(s: State, s1: State, s2: State, t: TaskId, h: ClientId, f: Fate)
    requires s1.grants == s.grants && Fated(s1, s2, t, h, f)
    ensures Fated(s, s2, t, h, f)
  {
  }

  lemma Settled(s2: State, r: Request, s': State, t: TaskId, h: ClientId, f: Fate)
    requires Fated(s2.(settled := s2.settled + multiset{r}), s', t, h, f)
    ensures Fated(s2, s', t, h, f)
  {
  }

  /** A denied request. */
  lemma DenialSweeps(s: State, q: Request, x: ClientId)
    requires OnlyBroken(s, x) && AsksOnly(s, q.task, x) && q in s.pending
    requires q.task in s.leases && s.leases[q.task].client != x
    ensures Fated(s, Resolve(s, q.id, Denied), q.task, s.leases[q.task].client,
                  Sweep(s.leases[q.task], On(Drop(s.pending, q.id), q.task)))
    ensures x !in Resolve(s, q.id, Denied).online
  {
    hide Notify, Drop, Find, Fated, On;
    FindMember(s.pending, q);
    var s1 := s.(pending := Drop(s.pending, q.id));
    var s3 := s1.(settled := s1.settled + multiset{q});
    NotifySweeps(s3, q, Denied, x, q.task);
    SameFate(s, s3, Notify(s3, q, Denied), q.task, s.leases[q.task].client,
             Sweep(s.leases[q.task], On(s3.pending, q.task)));
  }

  /** A request granted to the client that has the task already. */
  lemma RepeatSweeps(s: State, q: Request, x: ClientId, d: Decision)
    requires OnlyBroken(s, x) && AsksOnly(s, q.task, x) && q in s.pending && Grants(d)
    requires q.task in s.leases && s.leases[q.task] == LeaseFor(q)
    ensures Fated(s, Resolve(s, q.id, d), q.task, q.requester,
                  Sweep(LeaseFor(q), On(Drop(s.pending, q.id), q.task)).(granted := true))
    ensures x !in Resolve(s, q.id, d).online
  {
    hide Notify, Drop, Find, Fated, On, Reconcile, Sweep;
    FindMember(s.pending, q);
    var t, h := q.task, q.requester;
    var s1 := s.(pending := Drop(s.pending, q.id));
    assert s1.leases[t := LeaseFor(q)] == s1.leases;
    var s2 := Apply(s1, q);
    assert s2 == s1.(grants := s1.grants + [Grant(t, h)]);
    var s3 := s2.(settled := s2.settled + multiset{q});
    NotifySweeps(s3, q, d, x, t);
    SettlingFollows(s, q.id, s2);
    OneGrant(s, s3, t, h);
    FatedAfter(s, s3, Notify(s3, q, d), t, h, Sweep(LeaseFor(q), On(s3.pending, t)), true);
  }

  /** Granting a request moves the lease; what comes of it is the cascade over the other requests for the
      task, and the broken socket is found. */
  lemma {:induction false} ResolveFates(s: State, q: Request, d: Decision, x: ClientId)
    requires OnlyBroken(s, x) && AsksOnly(s, q.task, x) && q in s.pending && Grants(d)
    requires !(q.task in s.leases && s.leases[q.task] == LeaseFor(q))
    ensures Fated(s, Resolve(s, q.id, d), q.task, q.requester,
                  Cascade(LeaseFor(q), On(Drop(s.pending, q.id), q.task)).(granted := true))
    ensures x !in Resolve(s, q.id, d).online
    decreases |s.pending|, 0, 0
  {
    hide Notify, Drop, Find, Fated, On, Reconcile, Cascade;
    FindMember(s.pending, q);
    var t, h := q.task, q.requester;
    var s1 := s.(pending := Drop(s.pending, q.id));
    var s2 := s1.(leases := s1.leases[t := LeaseFor(q)], grants := s1.grants + [Grant(t, h)]);
    ReconcileFates(s2, t, s2.pending, x);
    var s3 := Reconcile(s2, t, s2.pending);
    assert Apply(s1, q) == s3;
    var f := Cascade(LeaseFor(q), On(s2.pending, t));
    OneGrant(s, s2, t, h);
    DroppedFollows(s, q.id, s3);
    FatedAcross(s, s1, s2, s3, t, h, f);
    var resolved := if Controller(s3, t) != Some(h) then Denied else d;
    NotifyAfter(s, s3, q, resolved, t, h, f.(granted := true), x);
  }

  lemma DroppedFollows(s: State, id: string, s3: State)
    requires Find(s.pending, id).Some? && Follows(s.(pending := Drop(s.pending, id)), s3)
    ensures s.grants <= s3.grants && s3.online <= s.online && s3.dead <= s.dead && s3.online * s.dead <= s3.dead
  {
  }

  lemma FatedAcross(s: State, s1: State, s2: State, s3: State, t: TaskId, h: ClientId, f: Fate)
    requires s1.grants == s.grants && s2.grants == s.grants + [Grant(t, h)] && s2.grants <= s3.grants
    requires Fated(s2, s3, t, h, f)
    ensures Fated(s, s3, t, h, f.(granted := true))
  {
    assert s3.grants[|s.grants|] == s2.grants[|s.grants|] == Grant(t, h);
    assert GrantedTo(s, s3, t, h);
    forall i | |s.grants| <= i < |s3.grants| && s3.grants[i].task == t
      ensures s3.grants[i].client in {h, f.holder}
    {
      if i < |s2.grants| {
        assert s3.grants[i] == s2.grants[i];
      }
    }
    if f.holder != h {
      var i :| |s2.grants| <= i < |s3.grants| && s3.grants[i] == Grant(t, f.holder);
      assert |s.grants| <= i;
    }
  }

  /** Announcing an outcome no longer changes it. */
  lemma NotifyAfter(s: State, s2: State, q: Request, d: Decision, t: TaskId, h: ClientId, f: Fate, x: ClientId)
    requires Fated(s, s2, t, h, f) && s.grants <= s2.grants
    requires q.target == x && (x in s2.online ==> x in s2.dead)
    ensures var s3 := s2.(settled := s2.settled + multiset{q});
            Fated(s, Notify(s3, q, d), t, h, f) && x !in Notify(s3, q, d).online
  {
    hide Notify, GrantedTo;
    var s3 := s2.(settled := s2.settled + multiset{q});
    var s4 := Notify(s3, q, d);
    TakenIsClosing(s3, t, f.holder);
    ClosingNotify(s3, q, d, t, f.holder);
    NotifyLeaves(s3, q, d, x);
    LaterGrants(s, s2, s4, t, h, f);
  }

  lemma LaterGrants(s: State, s2: State, s4: State, t: TaskId, h: ClientId, f: Fate)
    requires Fated(s, s2, t, h, f) && s.grants <= s2.grants <= s4.grants
    requires Taken(s4, t, f.holder) && NewGrantsTo(s2, s4, t, f.holder)
    ensures Fated(s, s4, t, h, f)
  {
    forall i | |s.grants| <= i < |s4.grants| && s4.grants[i].task == t
      ensures s4.grants[i].client in {h, f.holder}
    {
      if i < |s2.grants| {
        assert s4.grants[i] == s2.grants[i];
      }
    }
    if f.holder != h {
      var i :| |s.grants| <= i < |s2.grants| && s2.grants[i] == Grant(t, f.holder);
      assert s4.grants[i] == Grant(t, f.holder);
      if f.granted {
        var j :| |s.grants| <= j < |s2.grants| && s2.grants[j] == Grant(t, h);
        assert s4.grants[j] == Grant(t, h);
      }
      if j :| |s.grants| <= j < |s4.grants| && s4.grants[j] == Grant(t, h) && j < |s2.grants| {
        assert s2.grants[j] == Grant(t, h);
      }
    }
  }

  /** Reconciling a task whose lease has just moved is the cascade. */
  lemma {:induction false} ReconcileFates(s: State, t: TaskId, todo: seq<Request>, x: ClientId)
    requires OnlyBroken(s, x) && Snapshot(s, todo) && AsksOnly(s, t, x)
    requires t in s.leases && s.leases[t].client != x
    requires On(todo, t) == On(s.pending, t)
    ensures Fated(s, Reconcile(s, t, todo), t, s.leases[t].client, Cascade(s.leases[t], On(s.pending, t)))
    decreases |s.pending|, 1, |todo|
  {
    hide Resolve, Fated;
    var h := s.leases[t].client;
    if todo == [] {
      FatedQuietly(s, t, h);
    } else {
      var q, rest := todo[0], todo[1..];
      if q.task != t {
        ReconcileFates(s, t, rest, x);
      } else {
        OnMembers(s.pending, t);
        assert q == On(s.pending, t)[0] && q in s.pending;
        OnDrop(s.pending, q.id, t);
        FindMember(s.pending, q);
        var d := if q.requester == h then Approved else Denied;
        assert ControllerChangeDecision(s, q) == Some(d);
        var f := Cascade(s.leases[t], On(s.pending, t));
        var s1 := Resolve(s, q.id, d);
        if q.requester != h {
          DenialSweeps(s, q, x);
        } else if LeaseFor(q) == s.leases[t] {
          RepeatSweeps(s, q, x, d);
        } else {
          ResolveFates(s, q, d, x);
        }
        assert Fated(s, s1, t, h, f);
        ReconcileAfter(s, s1, t, rest, h, f);
      }
    }
  }

  lemma ReconcileAfter(s: State, s1: State, t: TaskId, rest: seq<Request>, h: ClientId, f: Fate)
    requires Fated(s, s1, t, h, f) && Follows(s, s1) && Snapshot(s1, rest)
    ensures Fated(s, Reconcile(s1, t, rest), t, h, f)
  {
    hide Reconcile, GrantedTo;
    TakenIsClosing(s1, t, f.holder);
    ClosingReconcile(s1, t, rest, t, f.holder);
    FatedThen(s, s1, Reconcile(s1, t, rest), t, h, f);
  }

  /** Reconciling a task that nobody holds grants its first request. */
  lemma {:induction false} UnownedFates(s: State, u: TaskId, todo: seq<Request>, x: ClientId)
    requires OnlyBroken(s, x) && Snapshot(s, todo) && AsksOnly(s, u, x) && u !in s.leases
    requires On(todo, u) == On(s.pending, u) != []
    ensures var qs := On(s.pending, u);
            Fated(s, Reconcile(s, u, todo), u, qs[0].requester, Cascade(LeaseFor(qs[0]), qs[1..]).(granted := true))
    ensures x !in Reconcile(s, u, todo).online
    decreases |todo|
  {
    hide Resolve, Fated;
    var q, rest := todo[0], todo[1..];
    if q.task != u {
      UnownedFates(s, u, rest, x);
    } else {
      OnMembers(s.pending, u);
      assert q == On(s.pending, u)[0] && q in s.pending;
      OnDrop(s.pending, q.id, u);
      assert ControllerChangeDecision(s, q) == Some(OwnerMissing);
      var s1 := Resolve(s, q.id, OwnerMissing);
      ResolveFates(s, q, OwnerMissing, x);
      ReconcileAfter(s, s1, u, rest, q.requester, Cascade(LeaseFor(q), On(s.pending, u)[1..]).(granted := true));
      assert Follows(s1, Reconcile(s1, u, rest));
    }
  }
}
