/** Takeover arbitration as a state machine (server/browser-task-command-takeovers.ts with the lease,
    reconcile and disconnect glue of server/browser-control-plane.ts). Resolving one request moves a
    lease, which reconciles the task, which resolves other requests; every notification may find a
    broken socket, which disconnects that client and resolves its requests too. */
module TakeoverProtocol {
  import opened Common

  type ClientId = string
  type TaskId = string

  datatype Request = Request(id: string, task: TaskId, requester: ClientId, target: ClientId, action: string,
    expiresAt: int)

  datatype Decision = Approved | Denied | ForceRequired | OwnerMissing

  datatype Lease = Lease(client: ClientId, action: string)

  datatype Grant = Grant(task: TaskId, client: ClientId)

  datatype Message = Result(id: string, task: TaskId, decision: Decision) | Ask(request: Request)

  predicate UniqueIds(ps: seq<Request>) {
    forall i, j :: 0 <= i < j < |ps| ==> ps[i].id != ps[j].id
  }

  /** A Map from request id to request, in insertion order. */
  type Pending = ps: seq<Request> | UniqueIds(ps) witness []

  /** `dead` are the connected clients whose sockets will turn out broken at the next send. The last
      four fields are histories. */
  datatype State = State(
    pending: Pending,
    leases: map<TaskId, Lease>,
    online: set<ClientId>,
    dead: set<ClientId>,
    accepted: multiset<Request>,
    settled: multiset<Request>,
    grants: seq<Grant>,
    told: seq<(ClientId, Message)>)

  const INIT := State([], map[], {}, {}, multiset{}, multiset{}, [], [])

  // ---- the pending map ----------------------------------------------------

  function Find(ps: Pending, id: string): (r: Option<Request>)
    ensures r.Some? ==> r.value in ps && r.value.id == id
    ensures r.None? ==> forall p :: p in ps ==> p.id != id
  {
    if ps == [] then None
    else if ps[0].id == id then Some(ps[0])
    else
      assert forall p :: p in ps ==> p == ps[0] || p in ps[1..];
      Find(ps[1..], id)
  }

  function Drop(ps: Pending, id: string): (r: Pending)
    ensures forall p :: p in r <==> p in ps && p.id != id
    ensures |r| <= |ps| && (Find(ps, id).Some? ==> |r| < |ps|)
  {
    if ps == [] then []
    else if ps[0].id == id then
      assert forall p :: p in ps <==> p == ps[0] || p in ps[1..];
      assert forall p :: p in ps[1..] ==> p.id != id;
      ps[1..]
    else
      var rest := Drop(ps[1..], id);
      assert forall p :: p in ps <==> p == ps[0] || p in ps[1..];
      assert forall p :: p in rest ==> p.id != ps[0].id;
      [ps[0]] + rest
  }

  lemma {:induction false} DropTakesOne(ps: Pending, id: string)
    requires Find(ps, id).Some?
    ensures multiset(ps) == multiset(Drop(ps, id)) + multiset{Find(ps, id).value}
  {
    assert ps == [ps[0]] + ps[1..];
    if ps[0].id != id {
      DropTakesOne(ps[1..], id);
    }
  }

  /** Map.set: an existing key keeps its place. */
  function Put(ps: Pending, r: Request): (q: Pending)
    ensures forall p :: p in q <==> p == r || (p in ps && p.id != r.id)
  {
    if ps == [] then [r]
    else if ps[0].id == r.id then
      assert forall p :: p in ps[1..] ==> p.id != r.id;
      [r] + ps[1..]
    else
      var rest := Put(ps[1..], r);
      assert forall p :: p in rest ==> p.id != ps[0].id;
      [ps[0]] + rest
  }

  // ---- decisions ----------------------------------------------------------

  function Controller(s: State, t: TaskId): Option<ClientId> {
    if t in s.leases then Some(s.leases[t].client) else None
  }

  function ControllerChangeDecision(s: State, r: Request): Option<Decision> {
    var c := Controller(s, r.task);
    if c.None? then Some(OwnerMissing)
    else if c.value == r.requester then Some(Approved)
    else if c.value != r.target then Some(Denied)
    else None
  }

  function ResponseDecision(s: State, r: Request, approved: bool): Decision {
    var d := ControllerChangeDecision(s, r);
    if d.Some? then d.value else if approved then Approved else Denied
  }

  /** What is known of the target's presence when a request times out. */
  datatype Presence = Unknown | Hidden | Idle | Active

  function TimeoutDecision(s: State, r: Request, presence: Presence): Decision {
    var d := ControllerChangeDecision(s, r);
    if d.Some? then d.value
    else if r.target !in s.online then OwnerMissing
    else if presence == Hidden || presence == Idle then Approved
    else ForceRequired
  }

  predicate Grants(d: Decision) {
    d == Approved || d == OwnerMissing
  }

  // ---- the cascade --------------------------------------------------------

  /** What every part of a cascade keeps, whatever the sockets do: requests only leave, each into
      `settled`; clients only leave; histories only grow. */
  predicate Follows(s: State, s': State) {
    && |s'.pending| <= |s.pending|
    && (forall p :: p in s'.pending ==> p in s.pending)
    && s'.online <= s.online && s'.dead <= s.dead && s.online - s.dead <= s'.online
    && s'.online * s.dead <= s'.dead
    && multiset(s'.pending) + s'.settled == multiset(s.pending) + s.settled
    && s'.accepted == s.accepted
    && s.grants <= s'.grants && s.told <= s'.told
  }

  function Resolve(s: State, id: string, d: Decision): (s': State)
    ensures Follows(s, s')
    decreases |s.pending|, 0, 0
  {
    var found := Find(s.pending, id);
    if found.None? then s
    else
      var r := found.value;
      var s1 := s.(pending := Drop(s.pending, id));
      var s2 := if Grants(d) then Apply(s1, r) else s1;
      var resolved := if Grants(d) && Controller(s2, r.task) != Some(r.requester) then Denied else d;
      var s3 := s2.(settled := s2.settled + multiset{r});
      SettlingFollows(s, id, s2);
      var s' := Notify(s3, r, resolved);
      FollowsTwice(s, s3, s');
      s'
  }

  /** Removing a request, letting a cascade run, then settling the request. */
  lemma SettlingFollows(s: State, id: string, s2: State)
    requires Find(s.pending, id).Some?
    requires Follows(s.(pending := Drop(s.pending, id)), s2)
    ensures Follows(s, s2.(settled := s2.settled + multiset{Find(s.pending, id).value}))
  {
    hide Drop, Find;
    var r := Find(s.pending, id).value;
    DropTakesOne(s.pending, id);
    assert multiset(s2.pending) + (s2.settled + multiset{r}) == multiset(s2.pending) + s2.settled + multiset{r};
    assert multiset(Drop(s.pending, id)) + s.settled + multiset{r} == multiset(s.pending) + s.settled;
  }

  lemma FollowsTwice(a: State, b: State, c: State)
    requires Follows(a, b) && Follows(b, c)
    ensures Follows(a, c)
  {
  }

  /** Both sides learn the outcome. */
  function Notify(s: State, r: Request, d: Decision): (s': State)
    ensures Follows(s, s')
    decreases |s.pending|, 3, 0
  {
    var s1 := Tell(s, r.requester, Result(r.id, r.task, d));
    if r.target == r.requester then s1
    else
      var s2 := Tell(s1, r.target, Result(r.id, r.task, d));
      FollowsTwice(s, s1, s2);
      s2
  }

  /** The lease moves to the requester; if that changed anything the task is reconciled. */
  function Apply(s: State, r: Request): (s': State)
    ensures Follows(s, s')
    decreases |s.pending|, 2, 0
  {
    var lease := Lease(r.requester, r.action);
    var s1 := s.(leases := s.leases[r.task := lease], grants := s.grants + [Grant(r.task, r.requester)]);
    if r.task in s.leases && s.leases[r.task] == lease then s1 else Reconcile(s1, r.task, s1.pending)
  }

  /** Goes through a snapshot of the pending requests. */
  function Reconcile(s: State, t: TaskId, todo: seq<Request>): (s': State)
    ensures Follows(s, s')
    decreases |s.pending|, 1, |todo|
  {
    if todo == [] then s
    else
      var d := if todo[0].task == t then ControllerChangeDecision(s, todo[0]) else None;
      Reconcile(if d.Some? then Resolve(s, todo[0].id, d.value) else s, t, todo[1..])
  }

  /** A send to a client: dropped if it is gone; if its socket is broken it leaves, with its requests. */
  function Tell(s: State, c: ClientId, m: Message): (s': State)
    ensures Follows(s, s')
    decreases |s.pending|, 2, 0
  {
    if c !in s.online then s
    else if c in s.dead then
      var s1 := s.(online := s.online - {c}, dead := s.dead - {c});
      CleanupRequests(s1, c, s1.pending)
    else s.(told := s.told + [(c, m)])
  }

  function CleanupRequests(s: State, c: ClientId, todo: seq<Request>): (s': State)
    ensures Follows(s, s')
    decreases |s.pending|, 1, |todo|
  {
    if todo == [] then s
    else
      var s1 :=
        if todo[0].requester == c then Resolve(s, todo[0].id, Denied)
        else if todo[0].target == c then Resolve(s, todo[0].id, OwnerMissing)
        else s;
      CleanupRequests(s1, c, todo[1..])
  }

  // ---- events -------------------------------------------------------------

  datatype Event =
    | RequestTakeover(request: Request)
    | RespondTakeover(responder: ClientId, id: string, approved: bool)
    | RequestTimesOut(id: string, presence: Presence)
    | AcquireLease(task: TaskId, client: ClientId, action: string, takeover: bool)
    | LeasesReleased(tasks: seq<TaskId>)
    | LeaseLapsesUnseen(task: TaskId)
    | ClientConnects(client: ClientId)
    | ClientDisconnects(client: ClientId)
    | SocketBreaks(client: ClientId)
    | InactiveClientReleased(client: ClientId, order: seq<TaskId>)

  function Accept(s: State, r: Request): State {
    Tell(s.(pending := Put(s.pending, r), accepted := s.accepted + multiset{r}), r.target, Ask(r))
  }

  function RequestStep(s: State, r: Request): State {
    if Controller(s, r.task) != Some(r.target) then Tell(s, r.requester, Result(r.id, r.task, OwnerMissing))
    else if r.requester == r.target then Tell(s, r.requester, Result(r.id, r.task, Approved))
    else if r.target !in s.online then Tell(s, r.requester, Result(r.id, r.task, OwnerMissing))
    else Accept(s, r)
  }

  /** Is the request taken in, rather than answered at once? */
  predicate Accepts(s: State, r: Request) {
    Controller(s, r.task) == Some(r.target) && r.requester != r.target && r.target in s.online
  }

  function AcquireStep(s: State, t: TaskId, c: ClientId, action: string, takeover: bool): State {
    if t in s.leases && s.leases[t].client != c && !takeover then s
    else
      var s1 := s.(leases := s.leases[t := Lease(c, action)]);
      if t in s.leases && s.leases[t] == Lease(c, action) then s1 else Reconcile(s1, t, s1.pending)
  }

  function DisconnectStep(s: State, c: ClientId): State {
    if c !in s.online then s
    else
      var s1 := s.(online := s.online - {c}, dead := s.dead - {c});
      CleanupRequests(s1, c, s1.pending)
  }

  /** Announces lease changes one task after the other. */
  function ReconcileEach(s: State, tasks: seq<TaskId>): (s': State)
    ensures Follows(s, s')
    decreases |tasks|
  {
    if tasks == [] then s else ReconcileEach(Reconcile(s, tasks[0], s.pending), tasks[1..])
  }

  /** All leases go first, then each release is announced. */
  function ReleaseStep(s: State, tasks: seq<TaskId>): State {
    ReconcileEach(s.(leases := s.leases - (set t | t in tasks)), tasks)
  }

  function HeldBy(s: State, c: ClientId): set<TaskId> {
    set t | t in s.leases && s.leases[t].client == c
  }

  predicate Held(s: State, c: ClientId, tasks: seq<TaskId>) {
    (set t | t in tasks) == HeldBy(s, c)
  }

  /** `order` lists the tasks the client still holds, in the order they are announced. */
  function ReleaseClientStep(s: State, c: ClientId, order: seq<TaskId>): State {
    var s1 := CleanupRequests(s, c, s.pending);
    if Held(s1, c, order) then ReleaseStep(s1, order) else s1
  }

  function Step(s: State, e: Event): State {
    match e
    case RequestTakeover(r) => if r.requester in s.online then RequestStep(s, r) else s
    case RespondTakeover(c, id, approved) =>
      var found := Find(s.pending, id);
      if found.None? || found.value.target != c then s
      else Resolve(s, id, ResponseDecision(s, found.value, approved))
    case RequestTimesOut(id, presence) =>
      var found := Find(s.pending, id);
      if found.None? then s else Resolve(s, id, TimeoutDecision(s, found.value, presence))
    case AcquireLease(t, c, action, takeover) => AcquireStep(s, t, c, action, takeover)
    case LeasesReleased(tasks) => ReleaseStep(s, tasks)
    case LeaseLapsesUnseen(t) => s.(leases := s.leases - {t})
    case ClientConnects(c) => s.(online := s.online + {c}, dead := s.dead - {c})
    case ClientDisconnects(c) => DisconnectStep(s, c)
    case SocketBreaks(c) => s.(dead := s.dead + {c})
    case InactiveClientReleased(c, order) => if c in s.online then s else ReleaseClientStep(s, c, order)
  }

  function Run(s: State, events: seq<Event>): State
    decreases |events|
  {
    if events == [] then s else Run(Step(s, events[0]), events[1..])
  }
}
