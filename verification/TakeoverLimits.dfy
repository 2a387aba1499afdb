/** Where the single-winner guarantee ends, and what each side is told. */
module TakeoverLimits {
  import opened Common
  import opened TakeoverProtocol
  import opened TakeoverProofs
  import opened TakeoverRuns

  predicate Distinct(a: ClientId, b: ClientId, c: ClientId, x: ClientId) {
    a != b && a != c && a != x && b != c && b != x && c != x
  }

  /** The request with this id by which a client asks `x` for the task. */
  function Asking(id: string, c: ClientId, x: ClientId): (r: Request)
    ensures r.id == id && r.target == x
  {
    Request(id, "t", c, x, "", 0)
  }

  // ---- runs that get there ---------------------------------------------------

  /** Clients connect and `x`, whose socket is about to break, takes the task. */
  function Opening(a: ClientId, b: ClientId, c: ClientId, x: ClientId): seq<Event> {
    [ClientConnects(x)] + [ClientConnects(a)] + [ClientConnects(b)] + [ClientConnects(c)]
      + [AcquireLease("t", x, "", false)]
  }

  /** `x` holds the task, the others are connected, and these requests are pending. */
  function Crowd(a: ClientId, b: ClientId, c: ClientId, x: ClientId, rs: Pending, dead: set<ClientId>): State {
    State(rs, map["t" := Lease(x, "")], {x, a, b, c}, dead, multiset(rs), multiset{}, [], Told(x, rs))
  }

  function Told(x: ClientId, rs: seq<Request>): seq<(ClientId, Message)> {
    seq(|rs|, i requires 0 <= i < |rs| => (x, Ask(rs[i])))
  }

  lemma Opened(a: ClientId, b: ClientId, c: ClientId, x: ClientId)
    ensures LiveRun(INIT, Opening(a, b, c, x)) && Run(INIT, Opening(a, b, c, x)) == Crowd(a, b, c, x, [], {})
  {
    hide Run, LiveRun;
    var e1, e2, e3, e4 := ClientConnects(x), ClientConnects(a), ClientConnects(b), ClientConnects(c);
    var e5 := AcquireLease("t", x, "", false);
    var s1, s2 := INIT.(online := {x}), INIT.(online := {x, a});
    var s3, s4 := INIT.(online := {x, a, b}), INIT.(online := {x, a, b, c});
    assert Step(INIT, e1) == s1 && Step(s1, e2) == s2 && Step(s2, e3) == s3 && Step(s3, e4) == s4;
    var s5 := s4.(leases := map["t" := Lease(x, "")]);
    assert Reconcile(s5, "t", []) == s5;
    assert Step(s4, e5) == s5;
    OneStep(INIT, e1);
    Extend([e1], s1, e2);
    Extend([e1] + [e2], s2, e3);
    Extend([e1] + [e2] + [e3], s3, e4);
    Extend([e1] + [e2] + [e3] + [e4], s4, e5);
  }

  /** One more client asks. */
  lemma Joins(events: seq<Event>, a: ClientId, b: ClientId, c: ClientId, x: ClientId, rs: Pending, id: string,
              who: ClientId)
    requires LiveRun(INIT, events) && Run(INIT, events) == Crowd(a, b, c, x, rs, {})
    requires who in {a, b, c} && who != x && forall p :: p in rs ==> p.id != id
    ensures LiveRun(INIT, events + [RequestTakeover(Asking(id, who, x))])
    ensures Run(INIT, events + [RequestTakeover(Asking(id, who, x))])
        == Crowd(a, b, c, x, rs + [Asking(id, who, x)], {})
  {
    hide Run, LiveRun;
    var r := Asking(id, who, x);
    var s := Crowd(a, b, c, x, rs, {});
    PutFresh(rs, r);
    var s1 := s.(pending := rs + [r], accepted := s.accepted + multiset{r});
    assert Told(x, rs + [r]) == Told(x, rs) + [(x, Ask(r))];
    assert Tell(s1, x, Ask(r)) == Crowd(a, b, c, x, rs + [r], {});
    assert Accepts(s, r) && Step(s, RequestTakeover(r)) == Accept(s, r);
    Extend(events, s, RequestTakeover(r));
  }

  lemma Breaks(events: seq<Event>, a: ClientId, b: ClientId, c: ClientId, x: ClientId, rs: Pending)
    requires LiveRun(INIT, events) && Run(INIT, events) == Crowd(a, b, c, x, rs, {})
    ensures LiveRun(INIT, events + [SocketBreaks(x)])
    ensures Run(INIT, events + [SocketBreaks(x)]) == Crowd(a, b, c, x, rs, {x})
  {
    hide Run, LiveRun;
    Extend(events, Crowd(a, b, c, x, rs, {}), SocketBreaks(x));
  }

  /** Three clients ask `x` for the task, then the socket of `x` breaks and nobody notices. */
  function Contested(a: ClientId, b: ClientId, c: ClientId, x: ClientId): State {
    Crowd(a, b, c, x, [Asking("1", a, x), Asking("2", b, x), Asking("3", c, x)], {x})
  }

  function Contesting(a: ClientId, b: ClientId, c: ClientId, x: ClientId): seq<Event> {
    Opening(a, b, c, x) + [RequestTakeover(Asking("1", a, x))] + [RequestTakeover(Asking("2", b, x))]
    + [RequestTakeover(Asking("3", c, x))] + [SocketBreaks(x)]
  }

  lemma ContestedIsReached(a: ClientId, b: ClientId, c: ClientId, x: ClientId)
    requires Distinct(a, b, c, x)
    ensures LiveRun(INIT, Contesting(a, b, c, x)) && Run(INIT, Contesting(a, b, c, x)) == Contested(a, b, c, x)
  {
    hide Run, LiveRun, Opening, Crowd, Asking;
    var r1, r2, r3 := Asking("1", a, x), Asking("2", b, x), Asking("3", c, x);
    var two := Opening(a, b, c, x) + [RequestTakeover(r1)] + [RequestTakeover(r2)];
    TwoJoin(a, b, c, x, "2", b);
    Joins(two, a, b, c, x, [r1, r2], "3", c);
    assert [r1, r2] + [r3] == [r1, r2, r3];
    Breaks(two + [RequestTakeover(r3)], a, b, c, x, [r1, r2, r3]);
  }

  lemma TwoJoin(a: ClientId, b: ClientId, c: ClientId, x: ClientId, id: string, who: ClientId)
    requires Distinct(a, b, c, x) && id != "1" && who in {b, c}
    ensures var r1, r := Asking("1", a, x), Asking(id, who, x);
            var events := Opening(a, b, c, x) + [RequestTakeover(r1)] + [RequestTakeover(r)];
            LiveRun(INIT, events) && Run(INIT, events) == Crowd(a, b, c, x, [r1, r], {})
  {
    hide Run, LiveRun, Opening, Crowd, Asking;
    var r1, r := Asking("1", a, x), Asking(id, who, x);
    Opened(a, b, c, x);
    Joins(Opening(a, b, c, x), a, b, c, x, [], "1", a);
    assert [] + [r1] == [r1];
    Joins(Opening(a, b, c, x) + [RequestTakeover(r1)], a, b, c, x, [r1], id, who);
    assert [r1] + [r] == [r1, r];
  }

  /** The same with two clients asking. */
  function Disputed(a: ClientId, b: ClientId, c: ClientId, x: ClientId): State {
    Crowd(a, b, c, x, [Asking("1", a, x), Asking("3", c, x)], {x})
  }

  function Disputing(a: ClientId, b: ClientId, c: ClientId, x: ClientId): seq<Event> {
    Opening(a, b, c, x) + [RequestTakeover(Asking("1", a, x))] + [RequestTakeover(Asking("3", c, x))]
      + [SocketBreaks(x)]
  }

  lemma DisputedIsReached(a: ClientId, b: ClientId, c: ClientId, x: ClientId)
    requires Distinct(a, b, c, x)
    ensures LiveRun(INIT, Disputing(a, b, c, x)) && Run(INIT, Disputing(a, b, c, x)) == Disputed(a, b, c, x)
  {
    hide Run, LiveRun, Opening, Crowd, Asking;
    var r1, r3 := Asking("1", a, x), Asking("3", c, x);
    TwoJoin(a, b, c, x, "3", c);
    Breaks(Opening(a, b, c, x) + [RequestTakeover(r1)] + [RequestTakeover(r3)], a, b, c, x, [r1, r3]);
  }

  // ---- what a broken socket does ----------------------------------------------

  lemma DropEach(r1: Request, r2: Request, r3: Request)
    requires r1.id == "1" && r2.id == "2" && r3.id == "3"
    ensures Drop([r1, r2, r3], "1") == [r2, r3] && Drop([r1, r3], "1") == [r3]
    ensures Drop([r2, r3], "2") == [r3]
    ensures Drop([r3], "3") == []
    ensures Find([r1, r2, r3], "1") == Some(r1) && Find([r2, r3], "2") == Some(r2) && Find([r3], "3") == Some(r3)
    ensures Find([r1, r3], "1") == Some(r1)
  {
  }

  /** Cleaning up after `x` hands the task to whoever still asks `x` for it. */
  lemma CleanupGrantsThird(t0: State, t1: State, a: ClientId, c: ClientId, x: ClientId, r3: Request)
    requires r3 == Asking("3", c, x) && a != c && c != x && x !in t0.online && c in t0.online && t0.dead == {}
    requires t0.pending == [r3] && t0.leases == map["t" := Lease(a, "")]
    requires t1 == t0.(pending := [], leases := map["t" := Lease(c, "")], grants := t0.grants + [Grant("t", c)],
                       settled := t0.settled + multiset{r3}, told := t0.told + [(c, Result("3", "t", OwnerMissing))])
    ensures CleanupRequests(t0, x, [r3]) == t1
  {
    var s1 := t0.(pending := []);
    assert Drop([r3], "3") == [];
    var s2 := s1.(leases := s1.leases["t" := Lease(c, "")], grants := s1.grants + [Grant("t", c)]);
    assert s2.leases == map["t" := Lease(c, "")];
    assert Reconcile(s2, "t", s2.pending) == s2;
    assert Apply(s1, r3) == s2;
    var s3 := s2.(settled := s2.settled + multiset{r3});
    assert Tell(s3, c, Result("3", "t", OwnerMissing)) == t1;
    assert Tell(t1, x, Result("3", "t", OwnerMissing)) == t1;
    assert Notify(s3, r3, OwnerMissing) == t1;
    assert Find([r3], "3") == Some(r3);
    assert Resolve(t0, "3", OwnerMissing) == t1;
    assert [r3][1..] == [];
    assert CleanupRequests(t1, x, []) == t1;
  }

  /** Telling `x` of a decision finds the broken socket. */
  lemma TellingFindsOut(s: State, t0: State, t1: State, r: Request, d: Decision, x: ClientId)
    requires r.requester in s.online && r.requester != x && r.target == x && x in s.online && s.dead == {x}
    requires t0 == s.(online := s.online - {x}, dead := {}, told := s.told + [(r.requester, Result(r.id, r.task, d))])
    requires CleanupRequests(t0, x, s.pending) == t1
    ensures Notify(s, r, d) == t1
  {
    hide CleanupRequests;
    var m := Result(r.id, r.task, d);
    var s1 := s.(told := s.told + [(r.requester, m)]);
    assert Tell(s, r.requester, m) == s1;
    assert s1.(online := s1.online - {x}, dead := s1.dead - {x}) == t0;
    assert Tell(s1, x, m) == t1;
  }

  /** The second request is denied; announcing that hands the task to the third. */
  lemma DenySecond(s: State, t0: State, t1: State, r2: Request, r3: Request, x: ClientId)
    requires s.pending == [r2, r3] && r2.id == "2" && r3.id == "3" && r2.target == x && r2.requester != x
    requires r2.requester in s.online && x in s.online && s.dead == {x}
    requires t0 == s.(pending := [r3], online := s.online - {x}, dead := {}, settled := s.settled + multiset{r2},
                      told := s.told + [(r2.requester, Result("2", r2.task, Denied))])
    requires CleanupRequests(t0, x, [r3]) == t1
    ensures Resolve(s, "2", Denied) == t1
  {
    hide CleanupRequests, Notify;
    DropEach(r2.(id := "1"), r2, r3);
    TellingFindsOut(s.(pending := [r3], settled := s.settled + multiset{r2}), t0, t1, r2, Denied, x);
  }

  lemma ResolveNothing(s: State, id: string, d: Decision)
    requires s.pending == []
    ensures Find(s.pending, id).None? && Resolve(s, id, d) == s
  {
  }

  lemma {:induction false} ReconcileNothing(s: State, t: TaskId, todo: seq<Request>)
    requires s.pending == []
    ensures Reconcile(s, t, todo) == s
    decreases |todo|
  {
    hide Resolve;
    if todo != [] {
      var d := ControllerChangeDecision(s, todo[0]);
      if d.Some? {
        ResolveNothing(s, todo[0].id, d.value);
      }
      ReconcileNothing(s, t, todo[1..]);
    }
  }

  /** What the failing runs end with. */
  predicate TwoWinners(s': State, a: ClientId, c: ClientId) {
    && s'.grants == [Grant("t", a), Grant("t", c)] && a != c
    && Controller(s', "t") == Some(c)
    && s'.pending == []
  }

  lemma TwoWinnersAreTooMany(s: State, s': State, a: ClientId, c: ClientId)
    requires s.grants == [] && TwoWinners(s', a, c)
    ensures !OneWinner(s, s', "t")
  {
    assert s'.grants[0].client == a && s'.grants[1].client == c;
  }

  /** With the first request granted, denying the second ends with the third in control. */
  lemma DenialGrantsThird(s2: State, a: ClientId, b: ClientId, c: ClientId, x: ClientId) returns (t1: State)
    requires Distinct(a, b, c, x) && s2.pending == [Asking("2", b, x), Asking("3", c, x)]
    requires s2.leases == map["t" := Lease(a, "")] && s2.grants == [Grant("t", a)]
    requires s2.online == {x, a, b, c} && s2.dead == {x}
    ensures Resolve(s2, "2", Denied) == t1 && TwoWinners(t1, a, c)
    ensures a in t1.online && x !in t1.online && t1.dead == {}
  {
    hide Resolve, CleanupRequests;
    var r2, r3 := Asking("2", b, x), Asking("3", c, x);
    var t0 := s2.(pending := [r3], online := s2.online - {x}, dead := {}, settled := s2.settled + multiset{r2},
                  told := s2.told + [(b, Result("2", "t", Denied))]);
    t1 := t0.(pending := [], leases := map["t" := Lease(c, "")], grants := t0.grants + [Grant("t", c)],
              settled := t0.settled + multiset{r3}, told := t0.told + [(c, Result("3", "t", OwnerMissing))]);
    CleanupGrantsThird(t0, t1, a, c, x, r3);
    DenySecond(s2, t0, t1, r2, r3, x);
  }

  lemma MovesLease(s1: State, s2: State, r1: Request, a: ClientId)
    requires r1.task == "t" && r1.requester == a && r1.action == ""
    requires s1.leases == map[] || (exists x :: x != a && s1.leases == map["t" := Lease(x, "")])
    requires s2 == s1.(leases := map["t" := Lease(a, "")], grants := s1.grants + [Grant("t", a)])
    ensures Apply(s1, r1) == Reconcile(s2, "t", s2.pending)
  {
    hide Reconcile;
    assert s1.leases["t" := Lease(a, "")] == s2.leases;
  }

  /** Granting the first of three requests, with the lease still at `x` or already gone: the second is
      denied, telling `x` so finds its socket broken, and cleaning up after `x` hands the task to the third. */
  lemma FirstLoses(s: State, a: ClientId, b: ClientId, c: ClientId, x: ClientId, d: Decision)
    requires Distinct(a, b, c, x) && Grants(d)
    requires s == Contested(a, b, c, x).(leases := s.leases) && s.leases in [map["t" := Lease(x, "")], map[]]
    ensures TwoWinners(Resolve(s, "1", d), a, c) && (a, Result("1", "t", Denied)) in Resolve(s, "1", d).told
  {
    hide Resolve, Reconcile, Apply, Drop, Find;
    var r1, r2, r3 := Asking("1", a, x), Asking("2", b, x), Asking("3", c, x);
    DropEach(r1, r2, r3);
    var s1 := s.(pending := [r2, r3]);
    var s2 := s1.(leases := map["t" := Lease(a, "")], grants := [Grant("t", a)]);
    var t1 := DenialGrantsThird(s2, a, b, c, x);
    ThirdAlreadyServed(s2, t1, a, r2, r3, x);
    MovesLease(s1, s2, r1, a);
    FirstTold(s, t1, r1, a, x, d);
  }

  lemma ThirdAlreadyServed(s2: State, t1: State, a: ClientId, r2: Request, r3: Request, x: ClientId)
    requires s2.pending == [r2, r3] && r2.id == "2" && r2.task == "t" && r2.requester != a && r2.target == x && a != x
    requires s2.leases == map["t" := Lease(a, "")] && t1.pending == []
    requires Resolve(s2, "2", Denied) == t1
    ensures Reconcile(s2, "t", s2.pending) == t1
  {
    hide Resolve;
    var todo := [r2, r3];
    assert todo[1..] == [r3];
    assert ControllerChangeDecision(s2, r2) == Some(Denied);
    ReconcileNothing(t1, "t", [r3]);
    assert Reconcile(s2, "t", todo) == Reconcile(Resolve(s2, "2", Denied), "t", todo[1..]);
  }

  lemma FirstTold(s: State, t1: State, r1: Request, a: ClientId, x: ClientId, d: Decision)
    requires Find(s.pending, "1") == Some(r1) && r1 == Asking("1", a, x) && a != x && Grants(d)
    requires Apply(s.(pending := Drop(s.pending, "1")), r1) == t1
    requires Controller(t1, "t") != Some(a) && a in t1.online && x !in t1.online && t1.dead == {}
    ensures Resolve(s, "1", d)
            == t1.(settled := t1.settled + multiset{r1}, told := t1.told + [(a, Result("1", "t", Denied))])
    ensures (a, Result("1", "t", Denied)) in Resolve(s, "1", d).told
  {
    hide Apply, Drop, Find;
    var s3 := t1.(settled := t1.settled + multiset{r1});
    var m := Result("1", "t", Denied);
    var s4 := s3.(told := s3.told + [(a, m)]);
    assert Tell(s3, a, m) == s4 && Tell(s4, x, m) == s4;
    assert Notify(s3, r1, Denied) == s4;
    assert s4.told[|s3.told|] == (a, m);
  }

  /** `x` approves the first of three requests through a socket that is broken for writing. The task is
      granted twice, and the client that was approved is told it was denied. */
  lemma BrokenTargetTwoWinners(a: ClientId, b: ClientId, c: ClientId, x: ClientId)
    requires Distinct(a, b, c, x)
    ensures var s := Run(INIT, Contesting(a, b, c, x));
            var s' := Step(s, RespondTakeover(x, "1", true));
            && LiveRun(INIT, Contesting(a, b, c, x))
            && TwoWinners(s', a, c) && !OneWinner(s, s', "t")
            && (a, Result("1", "t", Denied)) in s'.told
  {
    hide Run, LiveRun, Resolve, OneWinner;
    var s := Contested(a, b, c, x);
    ContestedIsReached(a, b, c, x);
    DropEach(Asking("1", a, x), Asking("2", b, x), Asking("3", c, x));
    FirstLoses(s, a, b, c, x, Approved);
    assert ResponseDecision(s, Asking("1", a, x), true) == Approved;
    TwoWinnersAreTooMany(s, Step(s, RespondTakeover(x, "1", true)), a, c);
  }

  /** The first request runs out while `x` is hidden. */
  lemma TimeoutTwoWinners(a: ClientId, b: ClientId, c: ClientId, x: ClientId)
    requires Distinct(a, b, c, x)
    ensures var s := Contested(a, b, c, x);
            TwoWinners(Step(s, RequestTimesOut("1", Hidden)), a, c)
  {
    hide Resolve;
    var s := Contested(a, b, c, x);
    DropEach(Asking("1", a, x), Asking("2", b, x), Asking("3", c, x));
    FirstLoses(s, a, b, c, x, Approved);
    assert TimeoutDecision(s, Asking("1", a, x), Hidden) == Approved;
  }

  /** The lease of `x` is released. */
  lemma ReleaseTwoWinners(a: ClientId, b: ClientId, c: ClientId, x: ClientId)
    requires Distinct(a, b, c, x)
    ensures var s := Contested(a, b, c, x);
            TwoWinners(Step(s, LeasesReleased(["t"])), a, c)
  {
    hide Resolve;
    var s := Contested(a, b, c, x);
    var s1 := s.(leases := map[]);
    assert s.leases - (set t | t in ["t"]) == map[];
    FirstLoses(s1, a, b, c, x, OwnerMissing);
    var s2 := Resolve(s1, "1", OwnerMissing);
    var todo := s.pending;
    assert ControllerChangeDecision(s1, todo[0]) == Some(OwnerMissing);
    ReconcileNothing(s2, "t", todo[1..]);
    assert Reconcile(s1, "t", todo) == s2;
    assert ["t"][1..] == [];
    assert ReconcileEach(s2, []) == s2;
    assert ReconcileEach(s1, ["t"]) == s2;
  }

  /** Approving the request of the client already in control, by telling `x`, hands the task to the other. */
  lemma ApprovalGrantsThird(s1: State, a: ClientId, c: ClientId, x: ClientId) returns (t1: State)
    requires a != c && a != x && c != x && s1.pending == [Asking("1", a, x), Asking("3", c, x)]
    requires s1.leases == map["t" := Lease(a, "")] && s1.grants == []
    requires {x, a, c} <= s1.online && s1.dead == {x}
    ensures Resolve(s1, "1", Approved) == t1 && TwoWinners(t1, a, c)
  {
    hide CleanupRequests, Notify, Apply, Drop, Find;
    var r1, r3 := Asking("1", a, x), Asking("3", c, x);
    DropEach(r1, Asking("2", c, x), r3);
    var s2 := s1.(pending := [r3], grants := [Grant("t", a)]);
    var s3 := s2.(settled := s2.settled + multiset{r1});
    var t0 := s3.(online := s3.online - {x}, dead := {}, told := s3.told + [(a, Result("1", "t", Approved))]);
    t1 := t0.(pending := [], leases := map["t" := Lease(c, "")], grants := t0.grants + [Grant("t", c)],
              settled := t0.settled + multiset{r3}, told := t0.told + [(c, Result("3", "t", OwnerMissing))]);
    CleanupGrantsThird(t0, t1, a, c, x, r3);
    TellingFindsOut(s3, t0, t1, r1, Approved, x);
    AlreadyHeld(s1.(pending := [r3]), s2, r1, a);
    assert Find(s1.pending, "1") == Some(r1) && Drop(s1.pending, "1") == [r3];
  }

  lemma AlreadyHeld(s1: State, s2: State, r1: Request, a: ClientId)
    requires r1.task == "t" && r1.requester == a && r1.action == ""
    requires s1.leases == map["t" := Lease(a, "")] && s2 == s1.(grants := s1.grants + [Grant("t", a)])
    ensures Apply(s1, r1) == s2
  {
    hide Reconcile;
    assert s1.leases["t" := Lease(a, "")] == s1.leases;
  }

  /** One of two asking clients acquires the task: its request is approved, telling `x` so finds the broken
      socket, and cleaning up after `x` hands the task to the other. */
  lemma AcquireTwoWinners(a: ClientId, b: ClientId, c: ClientId, x: ClientId)
    requires Distinct(a, b, c, x)
    ensures var s := Disputed(a, b, c, x);
            TwoWinners(Step(s, AcquireLease("t", a, "", true)), a, c)
  {
    hide Resolve;
    var s := Disputed(a, b, c, x);
    var todo := s.pending;
    var s1 := s.(leases := map["t" := Lease(a, "")]);
    assert s.leases["t" := Lease(a, "")] == s1.leases;
    var t1 := ApprovalGrantsThird(s1, a, c, x);
    ReconcileNothing(t1, "t", todo[1..]);
    assert ControllerChangeDecision(s1, todo[0]) == Some(Approved);
    assert Reconcile(s1, "t", todo) == t1;
  }

  // ---- the exact condition ------------------------------------------------------

  /** The kinds of event that can grant a task. */
  datatype Kind = Answered | TimedOut | Acquired | Released

  predicate OfKind(e: Event, kind: Kind) {
    match kind
    case Answered => e.RespondTakeover?
    case TimedOut => e.RequestTimesOut?
    case Acquired => e.AcquireLease?
    case Released => e.LeasesReleased?
  }

  /** Every request the event may resolve asks `x`. */
  predicate Concerns(s: State, e: Event, x: ClientId) {
    match e
    case RespondTakeover(_, id, _) => Find(s.pending, id).Some? ==> Find(s.pending, id).value.target == x
    case RequestTimesOut(id, _) => Find(s.pending, id).Some? ==> Find(s.pending, id).value.target == x
    case AcquireLease(t, _, _, _) => forall r :: r in s.pending && r.task == t ==> r.target == x
    case LeasesReleased(tasks) => forall r :: r in s.pending && r.task in tasks ==> r.target == x
    case _ => false
  }

  /** After any run, an event of this kind about requests to `x`, with its socket broken or not, grants no
      task to two clients. */
  ghost predicate GrantsOnce(kind: Kind, x: ClientId, broken: bool) {
    forall events: seq<Event>, e: Event ::
      LiveRun(INIT, events) && OfKind(e, kind) && Concerns(Run(INIT, events), e, x)
        && (Safe(Run(INIT, events), x) <==> !broken)
      ==> forall t: TaskId :: OneWinner(Run(INIT, events), Step(Run(INIT, events), e), t)
  }

  lemma Breach(kind: Kind, x: ClientId, events: seq<Event>, e: Event, s: State, a: ClientId, c: ClientId)
    requires LiveRun(INIT, events) && Run(INIT, events) == s && OfKind(e, kind) && Concerns(s, e, x) && !Safe(s, x)
    requires s.grants == [] && TwoWinners(Step(s, e), a, c)
    ensures !GrantsOnce(kind, x, true)
  {
    hide Step, Run, LiveRun, OneWinner;
    TwoWinnersAreTooMany(s, Step(s, e), a, c);
  }

  /** A working socket of the asked client suffices and cannot be dropped, for each kind of granting event and
      each client: with it nothing such an event sets off grants a task twice; without it some run and some
      event of that kind do. Which ones do, event by event, is `TakeoverExact.OneWinnerExactly`. */
  lemma SingleWinnerNeedsLiveTarget(kind: Kind, x: ClientId, broken: bool)
    ensures GrantsOnce(kind, x, broken) <==> !broken
  {
    hide Step, OneWinner, LiveRun, Run;
    if broken {
      var a, b, c := x + "a", x + "b", x + "c";
      assert a[|x|] == 'a' && b[|x|] == 'b' && c[|x|] == 'c';
      BreachOf(kind, a, b, c, x);
    } else {
      forall events: seq<Event>, e: Event, t: TaskId |
        LiveRun(INIT, events) && OfKind(e, kind) && Concerns(Run(INIT, events), e, x) && Safe(Run(INIT, events), x)
        ensures OneWinner(Run(INIT, events), Step(Run(INIT, events), e), t)
      {
        RunsFromStart(events);
        CascadeHasOneWinner(Run(INIT, events), e);
      }
    }
  }

  lemma AllAskBroken(a: ClientId, b: ClientId, c: ClientId, x: ClientId)
    requires Distinct(a, b, c, x)
    ensures var s := Contested(a, b, c, x);
            s.grants == [] && !Safe(s, x) && forall r :: r in s.pending ==> r.target == x
    ensures var s := Disputed(a, b, c, x);
            s.grants == [] && !Safe(s, x) && forall r :: r in s.pending ==> r.target == x
  {
  }

  lemma BreachOf(kind: Kind, a: ClientId, b: ClientId, c: ClientId, x: ClientId)
    requires Distinct(a, b, c, x)
    ensures !GrantsOnce(kind, x, true)
  {
    hide Step, OneWinner, LiveRun, Run, GrantsOnce, TwoWinners, Contested, Disputed, Contesting, Disputing, Find,
        Safe, Distinct;
    AllAskBroken(a, b, c, x);
    ContestedIsReached(a, b, c, x);
    var s := Contested(a, b, c, x);
    var events := Contesting(a, b, c, x);
    match kind {
      case Answered =>
        BrokenTargetTwoWinners(a, b, c, x);
        Breach(kind, x, events, RespondTakeover(x, "1", true), s, a, c);
      case TimedOut =>
        TimeoutTwoWinners(a, b, c, x);
        Breach(kind, x, events, RequestTimesOut("1", Hidden), s, a, c);
      case Released =>
        ReleaseTwoWinners(a, b, c, x);
        Breach(kind, x, events, LeasesReleased(["t"]), s, a, c);
      case Acquired =>
        DisputedIsReached(a, b, c, x);
        AcquireTwoWinners(a, b, c, x);
        Breach(kind, x, Disputing(a, b, c, x), AcquireLease("t", a, "", true), Disputed(a, b, c, x), a, c);
    }
  }

  // ---- what the two sides are told ---------------------------------------------

  predicate Reachable(s: State, c: ClientId) {
    c in s.online && c !in s.dead
  }

  lemma TellReaches(s: State, c: ClientId, m: Message)
    requires Reachable(s, c)
    ensures Tell(s, c, m) == s.(told := s.told + [(c, m)])
  {
  }

  /** A settled request is announced to both sides with one and the same decision, and it says the
      takeover happened only if the requester holds the task at that moment. */
  lemma BothSidesAreTold(s: State, id: string, d: Decision) returns (resolved: Decision)
    requires Find(s.pending, id).Some?
    requires Reachable(s, Find(s.pending, id).value.requester) && Reachable(s, Find(s.pending, id).value.target)
    ensures var r := Find(s.pending, id).value;
            && (r.requester, Result(id, r.task, resolved)) in Resolve(s, id, d).told[|s.told|..]
            && (r.target, Result(id, r.task, resolved)) in Resolve(s, id, d).told[|s.told|..]
    ensures var r := Find(s.pending, id).value;
            Grants(resolved) ==> resolved == d && Controller(Resolve(s, id, d), r.task) == Some(r.requester)
  {
    hide Apply, Drop, Find, Notify, Reachable;
    var r := Find(s.pending, id).value;
    var s1 := s.(pending := Drop(s.pending, id));
    var s2 := if Grants(d) then Apply(s1, r) else s1;
    resolved := if Grants(d) && Controller(s2, r.task) != Some(r.requester) then Denied else d;
    var s3 := s2.(settled := s2.settled + multiset{r});
    StaysReachable(s, s3, r.requester);
    StaysReachable(s, s3, r.target);
    BothHear(s3, r, resolved);
    LaterTold(s.told, s3.told, Notify(s3, r, resolved).told, (r.requester, Result(r.id, r.task, resolved)));
    LaterTold(s.told, s3.told, Notify(s3, r, resolved).told, (r.target, Result(r.id, r.task, resolved)));
  }

  lemma StaysReachable(s: State, s': State, c: ClientId)
    requires Reachable(s, c) && s'.dead <= s.dead && s.online - s.dead <= s'.online
    ensures Reachable(s', c)
  {
  }

  lemma LaterTold(a: seq<(ClientId, Message)>, b: seq<(ClientId, Message)>, c: seq<(ClientId, Message)>,
                  m: (ClientId, Message))
    requires a <= b <= c && m in c[|b|..]
    ensures m in c[|a|..]
  {
    var i :| 0 <= i < |c[|b|..]| && c[|b|..][i] == m;
    assert c[|a|..][|b| - |a| + i] == m;
  }

  lemma BothHear(s: State, r: Request, d: Decision)
    requires Reachable(s, r.requester) && Reachable(s, r.target)
    ensures var s' := Notify(s, r, d);
            && s'.leases == s.leases && s.told <= s'.told
            && (r.requester, Result(r.id, r.task, d)) in s'.told[|s.told|..]
            && (r.target, Result(r.id, r.task, d)) in s'.told[|s.told|..]
  {
    var m := Result(r.id, r.task, d);
    TellReaches(s, r.requester, m);
    var s4 := s.(told := s.told + [(r.requester, m)]);
    if r.target != r.requester {
      TellReaches(s4, r.target, m);
      var s5 := s4.(told := s4.told + [(r.target, m)]);
      assert s5.told[|s.told|..] == [(r.requester, m), (r.target, m)];
    } else {
      assert s4.told[|s.told|..] == [(r.requester, m)];
    }
  }
}
