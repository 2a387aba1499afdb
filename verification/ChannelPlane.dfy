/** The terminal channel plane as a state machine (server/browser-channels.ts with
    server/browser-outbound-lanes.ts): fanout, per-client backpressure queues, degradation to a single
    recovery marker, the lane-ordered drain, binding and cleanup. Every send, transport-busy query and
    socket-buffer query asks the environment, indexed by a running tick. */
module ChannelPlane {
  import opened Common
  import opened ChannelQueues

  type Client = nat
  datatype Key = Key(client: Client, channel: Channel)

  /** `Closed`: the send found a broken socket, and tearing the client down unsubscribed it everywhere
      before the call returned. */
  datatype Outcome = Accepted | Refused | Closed

  datatype Env = Env(send: nat -> Outcome, busy: nat -> bool, buffered: nat -> nat)

  datatype Config = Config(
    pendingMaxBytes: nat,
    coalesceMaxBytes: nat,
    degradeDrainPasses: nat,
    degradeQueueAgeMs: nat,
    degradeQueuedBytes: nat,
    backgroundBudgetBytes: nat,
    bulkSoftCapBytes: nat)

  const DEFAULT_CONFIG := Config(2 * 1024 * 1024, 256 * 1024, 2, 500, 256 * 1024, 32 * 1024, 256 * 1024)

  /** `wire` is a history: everything each client received on each channel since it last bound it. */
  datatype State = State(
    queues: map<Key, Queue>,
    flagged: set<Key>,
    subscribers: map<Channel, OrderedSet<Client>>,
    pending: map<Channel, Queue>,
    pendingFlagged: set<Channel>,
    cleanupTimers: set<Channel>,
    backlogTimers: set<Channel>,
    backpressured: OrderedSet<Channel>,
    drainTimer: bool,
    focused: set<Channel>,
    rotation: nat,
    tick: nat,
    wire: map<Key, seq<Token>>)

  const INIT := State(map[], {}, map[], map[], {}, {}, {}, [], false, {}, 0, 0, map[])

  function Wire(s: State, k: Key): seq<Token> {
    if k in s.wire then s.wire[k] else []
  }

  function Subscribers(s: State, ch: Channel): OrderedSet<Client> {
    if ch in s.subscribers then s.subscribers[ch] else []
  }

  function QueueOf(s: State, k: Key): Queue {
    if k in s.queues then s.queues[k] else EMPTY_QUEUE
  }

  function PendingOf(s: State, ch: Channel): Queue {
    if ch in s.pending then s.pending[ch] else EMPTY_QUEUE
  }

  predicate HasQueued(s: State, k: Key) {
    QueueOf(s, k).messages != []
  }

  function Ticked(s: State): State {
    s.(tick := s.tick + 1)
  }

  function Deliver(s: State, k: Key, ts: seq<Token>): State {
    s.(wire := s.wire[k := Wire(s, k) + ts])
  }

  /** Neither the drain schedule nor the lane order is touched. */
  predicate SameSchedule(s: State, s': State) {
    && s'.backpressured == s.backpressured && s'.drainTimer == s.drainTimer
    && s'.focused == s.focused && s'.rotation == s.rotation
  }

  // ---- recovery -----------------------------------------------------------

  function MarkClient(s: State, k: Key, now: int): (r: State)
    ensures SameSchedule(s, r)
  {
    if k in s.flagged then s
    else s.(flagged := s.flagged + {k}, queues := s.queues[k := RecoveryQueue(k.channel, now)])
  }

  function MarkPending(s: State, ch: Channel, now: int): State {
    if ch in s.pendingFlagged then s
    else s.(pendingFlagged := s.pendingFlagged + {ch}, pending := s.pending[ch := RecoveryQueue(ch, now)])
  }

  predicate OverThreshold(cfg: Config, q: Queue, now: int) {
    || q.totalBytes > cfg.degradeQueuedBytes
    || QueueAge(q, now) > cfg.degradeQueueAgeMs
    || q.drainPasses >= cfg.degradeDrainPasses
  }

  function MaybeDegrade(cfg: Config, s: State, k: Key, now: int): (r: State)
    ensures SameSchedule(s, r)
  {
    if k !in s.flagged && OverThreshold(cfg, QueueOf(s, k), now) then MarkClient(s, k, now) else s
  }

  // ---- queueing -----------------------------------------------------------

  function EnqueuePending(cfg: Config, s: State, ch: Channel, p: Payload, now: int): State {
    if ch in s.pendingFlagged && IsChannelData(p) then s
    else
      var q := PendingOf(s, ch);
      var s1 := s.(pending := s.pending[ch := Grown(cfg, ch, q, p, now)]);
      if Overflows(cfg, ch, q, p, now) then MarkPending(s1, ch, now) else s1
  }

  /** The queue after one more message: merged if possible, then trimmed from the front. */
  function Grown(cfg: Config, ch: Channel, q: Queue, p: Payload, now: int): Queue {
    Trim(Appended(cfg, ch, q, p, now), cfg.pendingMaxBytes)
  }

  function Appended(cfg: Config, ch: Channel, q: Queue, p: Payload, now: int): Queue {
    Append(ch, q, CreateMessage(ch, p, now), cfg.coalesceMaxBytes)
  }

  predicate Overflows(cfg: Config, ch: Channel, q: Queue, p: Payload, now: int) {
    |Grown(cfg, ch, q, p, now).messages| < |Appended(cfg, ch, q, p, now).messages|
  }

  function StoreQueue(cfg: Config, s: State, k: Key, q: Queue, overflowed: bool, now: int): (r: State)
    ensures SameSchedule(s, r)
  {
    var s1 := s.(queues := s.queues[k := q]);
    if overflowed then MarkClient(s1, k, now) else MaybeDegrade(cfg, s1, k, now)
  }

  function EnqueueClient(cfg: Config, s: State, k: Key, p: Payload, now: int): (r: State)
    ensures SameSchedule(s, r)
  {
    if k in s.flagged && IsChannelData(p) then s
    else
      var q := QueueOf(s, k);
      StoreQueue(cfg, s, k, Grown(cfg, k.channel, q, p, now), Overflows(cfg, k.channel, q, p, now), now)
  }

  // ---- subscribers --------------------------------------------------------

  function RemoveSubscriber(s: State, ch: Channel, c: Client): State {
    if ch !in s.subscribers then s
    else
      var rest := RemoveFrom(s.subscribers[ch], c);
      if rest != [] then s.(subscribers := s.subscribers[ch := rest])
      else s.(subscribers := s.subscribers - {ch}, cleanupTimers := s.cleanupTimers + {ch})
  }

  function CleanupClient(s: State, c: Client): (r: State)
    ensures SameSchedule(s, r)
  {
    s.(subscribers := (map ch | ch in s.subscribers && RemoveFrom(s.subscribers[ch], c) != [] ::
                         RemoveFrom(s.subscribers[ch], c)),
       cleanupTimers := s.cleanupTimers
                        + (set ch | ch in s.subscribers && RemoveFrom(s.subscribers[ch], c) == []),
       queues := (map k | k in s.queues && k.client != c :: s.queues[k]),
       flagged := (set k | k in s.flagged && k.client != c))
  }

  function Unbind(s: State, k: Key): State {
    var s1 := RemoveSubscriber(s, k.channel, k.client);
    s1.(cleanupTimers := s1.cleanupTimers - {k.channel},
        queues := s1.queues - {k},
        flagged := s1.flagged - {k})
  }

  // ---- flushing -----------------------------------------------------------

  /** How far a flush got: messages sent, their bytes, the next tick, whether the socket broke. */
  datatype Pumped = Pumped(sent: nat, bytes: int, tick: nat, closed: bool)

  function Pump(env: Env, tick: nat, ms: seq<Message>, limit: nat, budget: Option<nat>, sentBytes: int): (p: Pumped)
    ensures p.sent <= |ms|
    ensures p.closed ==> p.sent < |ms|
    decreases |ms|
  {
    if ms == [] then Pumped(0, 0, tick, false)
    else match env.send(tick)
      case Refused => Pumped(0, 0, tick + 1, false)
      case Closed => Pumped(0, 0, tick + 1, true)
      case Accepted =>
        var size := ms[0].sizeBytes;
        if limit <= 1 || (budget.Some? && sentBytes + size >= budget.value) then Pumped(1, size, tick + 1, false)
        else
          var rest := Pump(env, tick + 1, ms[1..], limit - 1, budget, sentBytes + size);
          Pumped(rest.sent + 1, rest.bytes + size, rest.tick, rest.closed)
  }

  /** The queue after its first messages went out; an emptied queue and its flag disappear together. */
  function Shift(s: State, k: Key, p: Pumped): (r: State)
    requires p.sent <= |QueueOf(s, k).messages|
    ensures SameSchedule(s, r)
  {
    var q := QueueOf(s, k);
    if p.sent < |q.messages| then
      s.(queues := s.queues[k := Queue(0, q.messages[p.sent..], q.totalBytes - p.bytes)])
    else
      s.(queues := s.queues - {k}, flagged := s.flagged - {k})
  }

  function Flushed(s: State, k: Key, p: Pumped): (r: State)
    requires p.sent <= |QueueOf(s, k).messages|
    ensures SameSchedule(s, r)
  {
    var s1 := Deliver(s.(tick := p.tick), k, Tokens(QueueOf(s, k).messages[..p.sent]));
    if p.closed then CleanupClient(s1, k.client)
    else if p.sent == 0 then s1
    else Shift(s1, k, p)
  }

  /** The result says whether the flush made progress. */
  function Flush(env: Env, s: State, k: Key, budget: Option<nat>): (r: (State, bool))
    ensures SameSchedule(s, r.0)
  {
    var ms := QueueOf(s, k).messages;
    if ms == [] then (s, false)
    else
      var limit := if env.busy(s.tick) then 1 else |ms|;
      var p := Pump(env, s.tick + 1, ms, limit, budget, 0);
      (Flushed(s, k, p), p.sent > 0)
  }

  // ---- live sends ---------------------------------------------------------

  predicate DefersBulk(cfg: Config, s: State, ch: Channel, buffered: nat) {
    ch !in s.focused && buffered > cfg.bulkSoftCapBytes
  }

  function SendDirect(env: Env, cfg: Config, s: State, k: Key, p: Payload, now: int): (r: (State, bool))
    ensures SameSchedule(s, r.0)
  {
    match env.send(s.tick)
    case Accepted => (Deliver(Ticked(s), k, PayloadTokens(p)), false)
    case Refused => (EnqueueClient(cfg, Ticked(s), k, p, now), true)
    case Closed => (EnqueueClient(cfg, CleanupClient(Ticked(s), k.client), k, p, now), true)
  }

  /** One subscriber's turn. The result says whether something was left queued. */
  function SendTo(env: Env, cfg: Config, s: State, k: Key, p: Payload, now: int): (r: (State, bool))
    ensures SameSchedule(s, r.0)
  {
    if k in s.flagged && IsChannelData(p) then (s, false)
    else if HasQueued(s, k) then (EnqueueClient(cfg, s, k, p, now), true)
    else if !IsChannelData(p) then SendDirect(env, cfg, s, k, p, now)
    else if DefersBulk(cfg, s, k.channel, env.buffered(s.tick)) then
      (EnqueueClient(cfg, Ticked(s), k, p, now), true)
    else SendDirect(env, cfg, Ticked(s), k, p, now)
  }

  function SendAll(env: Env, cfg: Config, s: State, ch: Channel, p: Payload, clients: seq<Client>,
                   now: int): (r: (State, bool))
    ensures SameSchedule(s, r.0)
    decreases |clients|
  {
    if clients == [] then (s, false)
    else
      var (s1, left) := SendTo(env, cfg, s, Key(clients[0], ch), p, now);
      var (s2, more) := SendAll(env, cfg, s1, ch, p, clients[1..], now);
      (s2, left || more)
  }

  function ScheduleDrain(s: State, ch: Channel): State {
    s.(backpressured := AddTo(s.backpressured, ch), drainTimer := true)
  }

  function Send(env: Env, cfg: Config, s: State, ch: Channel, p: Payload, now: int): State {
    var clients := Subscribers(s, ch);
    if clients == [] then EnqueuePending(cfg, s, ch, p, now)
    else
      var (s1, left) := SendAll(env, cfg, s, ch, p, clients, now);
      if left then ScheduleDrain(s1, ch) else s1
  }

  // ---- the drain ----------------------------------------------------------

  function Only(chs: seq<Channel>, keep: set<Channel>): seq<Channel> {
    if chs == [] then [] else (if chs[0] in keep then [chs[0]] else []) + Only(chs[1..], keep)
  }

  function Except(chs: seq<Channel>, drop: set<Channel>): seq<Channel> {
    if chs == [] then [] else (if chs[0] in drop then [] else [chs[0]]) + Except(chs[1..], drop)
  }

  function Rotate(xs: seq<Channel>, n: nat): seq<Channel> {
    if xs == [] then [] else xs[n % |xs|..] + xs[..n % |xs|]
  }

  /** Focused channels first, then the background ones rotated by the pass counter. */
  function OrderForDrain(chs: seq<Channel>, focused: set<Channel>, rotation: nat): seq<Channel> {
    Only(chs, focused) + Rotate(Except(chs, focused), rotation)
  }

  function NextRotation(chs: seq<Channel>, focused: set<Channel>, rotation: nat): nat {
    if |Except(chs, focused)| > 1 then rotation + 1 else rotation
  }

  /** One subscriber's turn in a drain pass. */
  function DrainClient(env: Env, cfg: Config, s: State, k: Key, budget: Option<nat>, now: int): (r: State)
    ensures SameSchedule(s, r)
  {
    var (s1, progress) := Flush(env, s, k, budget);
    if !HasQueued(s1, k) then s1
    else
      MaybeDegrade(cfg, if progress then s1 else CountPass(env, s1, k), k, now)
  }

  /** A pass without progress counts against the queue, unless the transport itself is busy. */
  function CountPass(env: Env, s: State, k: Key): (r: State)
    ensures SameSchedule(s, r)
  {
    if env.busy(s.tick) then Ticked(s)
    else
      var q := QueueOf(s, k);
      Ticked(s).(queues := s.queues[k := q.(drainPasses := q.drainPasses + 1)])
  }

  /** All subscribers of a channel. The result says whether any still has queued messages. */
  function DrainClients(env: Env, cfg: Config, s: State, ch: Channel, clients: seq<Client>, budget: Option<nat>,
                        now: int): (r: (State, bool))
    ensures SameSchedule(s, r.0)
    decreases |clients|
  {
    if clients == [] then (s, false)
    else
      var k := Key(clients[0], ch);
      var s1 := DrainClient(env, cfg, s, k, budget, now);
      var (s2, more) := DrainClients(env, cfg, s1, ch, clients[1..], budget, now);
      (s2, HasQueued(s1, k) || more)
  }

  function DrainChannel(env: Env, cfg: Config, s: State, ch: Channel, now: int): State {
    var clients := Subscribers(s, ch);
    if clients == [] then s.(backpressured := RemoveFrom(s.backpressured, ch))
    else
      var budget := if ch in s.focused then None else Some(cfg.backgroundBudgetBytes);
      var (s1, queued) := DrainClients(env, cfg, s, ch, clients, budget, now);
      if queued then s1 else s1.(backpressured := RemoveFrom(s1.backpressured, ch))
  }

  function DrainChannels(env: Env, cfg: Config, s: State, chs: seq<Channel>, now: int): State
    decreases |chs|
  {
    if chs == [] then s else DrainChannels(env, cfg, DrainChannel(env, cfg, s, chs[0], now), chs[1..], now)
  }

  function DrainPass(env: Env, cfg: Config, s: State, now: int): State {
    var order := OrderForDrain(s.backpressured, s.focused, s.rotation);
    var s1 := s.(drainTimer := false, rotation := NextRotation(s.backpressured, s.focused, s.rotation));
    var s2 := DrainChannels(env, cfg, s1, order, now);
    if s2.backpressured != [] then s2.(drainTimer := true) else s2
  }

  // ---- binding ------------------------------------------------------------

  predicate BacklogNeedsRecovery(cfg: Config, s: State, ch: Channel, now: int) {
    var q := PendingOf(s, ch);
    || ch in s.pendingFlagged
    || q.totalBytes > cfg.degradeQueuedBytes
    || QueueAge(q, now) > cfg.degradeQueueAgeMs
  }

  function CopyAll(cfg: Config, ch: Channel, q: Queue, ms: seq<Message>): Queue
    decreases |ms|
  {
    if ms == [] then q else CopyAll(cfg, ch, Append(ch, q, ms[0], cfg.coalesceMaxBytes), ms[1..])
  }

  function CopyBacklog(cfg: Config, s: State, k: Key, now: int): (r: State)
    ensures SameSchedule(s, r)
  {
    var q := PendingOf(s, k.channel);
    if q.messages == [] then s
    else
      var s1 := s.(backlogTimers := s.backlogTimers + {k.channel});
      if BacklogNeedsRecovery(cfg, s, k.channel, now) then MarkClient(s1, k, now)
      else s1.(queues := s1.queues[k := CopyAll(cfg, k.channel, QueueOf(s, k), q.messages)])
  }

  function Subscribe(s: State, k: Key): State {
    s.(cleanupTimers := s.cleanupTimers - {k.channel},
       subscribers := s.subscribers[k.channel := AddTo(Subscribers(s, k.channel), k.client)],
       wire := s.wire[k := []])
  }

  function Bind(env: Env, cfg: Config, s: State, k: Key, now: int): State {
    var s2 := CopyBacklog(cfg, Subscribe(s, k), k, now);
    var (s3, _) := Flush(env, s2, k, None);
    if HasQueued(s3, k) then ScheduleDrain(s3, k.channel) else s3
  }

  // ---- runs ---------------------------------------------------------------

  datatype Event =
    | SendMessage(channel: Channel, payload: Payload, now: int)
    | DrainTimerFires(now: int)
    | BindChannel(key: Key, now: int)
    | UnbindChannel(key: Key)
    | ClientGone(client: Client)
    | Focus(channels: set<Channel>)
    | CleanupTimerFires(channel: Channel)
    | BacklogTimerFires(channel: Channel)
    | Shutdown

  /** Timer events happen only while their timer is armed. */
  predicate Enabled(s: State, e: Event) {
    match e
    case DrainTimerFires(_) => s.drainTimer
    case CleanupTimerFires(ch) => ch in s.cleanupTimers
    case BacklogTimerFires(ch) => ch in s.backlogTimers
    case _ => true
  }

  function DropPending(s: State, ch: Channel): State {
    s.(pending := s.pending - {ch}, pendingFlagged := s.pendingFlagged - {ch})
  }

  function CleanupAll(s: State): State {
    s.(drainTimer := false, backpressured := [], pending := map[], pendingFlagged := {},
       subscribers := map[], cleanupTimers := {}, backlogTimers := {})
  }

  function Step(env: Env, cfg: Config, s: State, e: Event): State
    requires Enabled(s, e)
  {
    match e
    case SendMessage(ch, p, now) => Send(env, cfg, s, ch, p, now)
    case DrainTimerFires(now) => DrainPass(env, cfg, s, now)
    case BindChannel(k, now) => Bind(env, cfg, s, k, now)
    case UnbindChannel(k) => Unbind(s, k)
    case ClientGone(c) => CleanupClient(s, c)
    case Focus(chs) => s.(focused := chs)
    case CleanupTimerFires(ch) =>
      var s1 := s.(cleanupTimers := s.cleanupTimers - {ch});
      if Subscribers(s, ch) != [] then s1 else DropPending(s1, ch)
    case BacklogTimerFires(ch) => DropPending(s.(backlogTimers := s.backlogTimers - {ch}), ch)
    case Shutdown => CleanupAll(s)
  }

  /** Events whose timer is not armed do not happen: they are skipped. */
  function Run(env: Env, cfg: Config, s: State, events: seq<Event>): State
    decreases |events|
  {
    if events == [] then s
    else Run(env, cfg, if Enabled(s, events[0]) then Step(env, cfg, s, events[0]) else s, events[1..])
  }

  /** The data stream of a channel: everything sent on it, in order. */
  function StreamOf(events: seq<Event>, ch: Channel): seq<Datum> {
    if events == [] then []
    else
      (if events[0].SendMessage? && events[0].channel == ch then DataOf(events[0].payload) else [])
      + StreamOf(events[1..], ch)
  }
}
