/** Marked gaps over whole runs: for every client from each of its binds on, and for a client that binds a
    channel once, as its first subscriber, from the first thing sent. */
module ChannelGapRuns {
  import opened Common
  import opened ChannelQueues
  import opened ChannelPlane
  import opened ChannelGaps

  // ---- what the rest of the plane can do to one lane -------------------------

  /** Work on other lanes: this lane is untouched, or its client was torn down. The channel's backlog
      and timers are untouched unless the channel had a subscriber to lose. */
  predicate Apart(s: State, s': State, k: Key) {
    && Wire(s', k) == Wire(s, k)
    && PendingOf(s', k.channel) == PendingOf(s, k.channel)
    && (k.channel in s'.pendingFlagged <==> k.channel in s.pendingFlagged)
    && (k.channel in s'.backlogTimers ==> k.channel in s.backlogTimers)
    && (k.channel !in s.subscribers ==>
          k.channel !in s'.subscribers && (k.channel in s'.cleanupTimers ==> k.channel in s.cleanupTimers))
    && (k in s'.queues ==> k in s.queues)
    && ((QueueOf(s', k) == QueueOf(s, k) && (k in s'.flagged <==> k in s.flagged))
        || (k !in s'.queues && k !in s'.flagged))
    && (k.client in Subscribers(s', k.channel) ==> SameLane(s, s', k))
  }

  /** Before anyone bound the channel: the backlog holds everything sent, or is flagged. */
  ghost predicate Unbound(s: State, k: Key, stream: seq<Datum>) {
    && k.channel !in s.subscribers
    && k.channel !in s.cleanupTimers && k.channel !in s.backlogTimers
    && k !in s.queues && k !in s.flagged && Wire(s, k) == []
    && (if k.channel in s.pendingFlagged then PendingOf(s, k.channel).messages != []
        else CaughtUp(Tokens(PendingOf(s, k.channel).messages), stream))
  }

  ghost predicate Tracked(s: State, k: Key, stream: seq<Datum>, bound: bool) {
    if bound then LaneOk(s, k, stream) else Unbound(s, k, stream)
  }

  lemma ApartKeepsTrack(s: State, s': State, k: Key, stream: seq<Datum>, bound: bool)
    requires Apart(s, s', k) && Tracked(s, k, stream, bound)
    ensures Tracked(s', k, stream, bound)
  {
    if bound {
      LaneHasMarkedGaps(s, k, stream);
    }
  }

  lemma ApartTwice(a: State, b: State, c: State, k: Key)
    requires Apart(a, b, k) && Apart(b, c, k)
    ensures Apart(a, c, k)
  {
  }

  lemma MarkApart(s: State, k: Key, now: int, other: Key)
    requires other != k
    ensures Apart(s, MarkClient(s, k, now), other)
  {
    MarkElsewhere(s, k, now, other);
  }

  lemma CleanupApart(s: State, c: Client, k: Key)
    ensures Apart(s, CleanupClient(s, c), k)
  {
    CleanupSubscribers(s, c, k);
  }

  lemma StoreApart(cfg: Config, s: State, k: Key, q: Queue, overflowed: bool, now: int, other: Key)
    requires other != k
    ensures Apart(s, StoreQueue(cfg, s, k, q, overflowed, now), other)
  {
    hide MarkClient, OverThreshold, SameLane;
    var s1 := s.(queues := s.queues[k := q]);
    assert SameLane(s, s1, other) by { SetQueueElsewhere(s, k, q, other); }
    MarkApart(s1, k, now, other);
    ApartTwiceOrOnce(s, s1, StoreQueue(cfg, s, k, q, overflowed, now), other);
  }

  lemma SetQueueElsewhere(s: State, k: Key, q: Queue, other: Key)
    requires other != k
    ensures SameLane(s, s.(queues := s.queues[k := q]), other)
  {
  }

  lemma ApartTwiceOrOnce(a: State, b: State, c: State, k: Key)
    requires Apart(a, b, k) && (b == c || Apart(b, c, k))
    ensures Apart(a, c, k)
  {
  }

  lemma EnqueueApart(cfg: Config, s: State, k: Key, p: Payload, now: int, other: Key)
    requires other != k
    ensures Apart(s, EnqueueClient(cfg, s, k, p, now), other)
  {
    hide StoreQueue, Grown, Overflows;
    var q := QueueOf(s, k);
    StoreApart(cfg, s, k, Grown(cfg, k.channel, q, p, now), Overflows(cfg, k.channel, q, p, now), now, other);
  }

  lemma TickAndDeliverApart(s: State, k: Key, tick: nat, ts: seq<Token>, other: Key)
    requires other != k
    ensures Apart(s, s.(tick := tick), other) && Apart(s, Deliver(s.(tick := tick), k, ts), other)
  {
    hide Apart, Deliver;
    TickApart(s, tick, other);
    DeliverApart(s.(tick := tick), k, ts, other);
    ApartTwice(s, s.(tick := tick), Deliver(s.(tick := tick), k, ts), other);
  }

  lemma TickApart(s: State, tick: nat, k: Key)
    ensures Apart(s, s.(tick := tick), k)
  {
  }

  lemma DeliverApart(s: State, k: Key, ts: seq<Token>, other: Key)
    requires other != k
    ensures Apart(s, Deliver(s, k, ts), other)
  {
  }

  lemma SendDirectApart(env: Env, cfg: Config, s: State, k: Key, p: Payload, now: int, other: Key)
    requires other != k
    ensures Apart(s, SendDirect(env, cfg, s, k, p, now).0, other)
  {
    hide EnqueueClient, CleanupClient, PayloadTokens, Apart, Deliver;
    var s1 := Ticked(s);
    TickAndDeliverApart(s, k, s.tick + 1, PayloadTokens(p), other);
    match env.send(s.tick) {
      case Accepted =>
      case Refused =>
        EnqueueApart(cfg, s1, k, p, now, other);
        ApartTwice(s, s1, EnqueueClient(cfg, s1, k, p, now), other);
      case Closed =>
        var s2 := CleanupClient(s1, k.client);
        CleanupApart(s1, k.client, other);
        ApartTwice(s, s1, s2, other);
        EnqueueApart(cfg, s2, k, p, now, other);
        ApartTwice(s, s2, EnqueueClient(cfg, s2, k, p, now), other);
    }
  }

  lemma NothingApart(s: State, k: Key)
    ensures Apart(s, s, k)
  {
  }

  lemma SendToApart(env: Env, cfg: Config, s: State, k: Key, p: Payload, now: int, other: Key)
    requires other != k
    ensures Apart(s, SendTo(env, cfg, s, k, p, now).0, other)
  {
    hide EnqueueClient, SendDirect, Apart, DefersBulk;
    NothingApart(s, other);
    if HasQueued(s, k) {
      EnqueueApart(cfg, s, k, p, now, other);
    } else if !IsChannelData(p) {
      SendDirectApart(env, cfg, s, k, p, now, other);
    } else {
      var s1 := Ticked(s);
      TickAndDeliverApart(s, k, s.tick + 1, [], other);
      EnqueueApart(cfg, s1, k, p, now, other);
      ApartTwice(s, s1, EnqueueClient(cfg, s1, k, p, now), other);
      SendDirectApart(env, cfg, s1, k, p, now, other);
      ApartTwice(s, s1, SendDirect(env, cfg, s1, k, p, now).0, other);
    }
  }

  lemma {:induction false} SendAllApart(env: Env, cfg: Config, s: State, ch: Channel, p: Payload,
                                        clients: seq<Client>, now: int, other: Key)
    requires other.channel != ch
    ensures Apart(s, SendAll(env, cfg, s, ch, p, clients, now).0, other)
    decreases |clients|
  {
    hide SendTo, Apart;
    NothingApart(s, other);
    if clients != [] {
      var s1 := SendTo(env, cfg, s, Key(clients[0], ch), p, now).0;
      SendToApart(env, cfg, s, Key(clients[0], ch), p, now, other);
      SendAllApart(env, cfg, s1, ch, p, clients[1..], now, other);
      ApartTwice(s, s1, SendAll(env, cfg, s1, ch, p, clients[1..], now).0, other);
    }
  }

  lemma ShiftApart(s: State, k: Key, p: Pumped, other: Key)
    requires other != k && p.sent <= |QueueOf(s, k).messages|
    ensures Apart(s, Shift(s, k, p), other)
  {
  }

  lemma FlushApart(env: Env, s: State, k: Key, budget: Option<nat>, other: Key)
    requires other != k
    ensures Apart(s, Flush(env, s, k, budget).0, other)
  {
    hide CleanupClient, Shift, Deliver, Apart, Pump, Tokens;
    NothingApart(s, other);
    var ms := QueueOf(s, k).messages;
    if ms != [] {
      var p := Pump(env, s.tick + 1, ms, if env.busy(s.tick) then 1 else |ms|, budget, 0);
      FlushedApart(s, k, p, other);
    }
  }

  lemma FlushedApart(s: State, k: Key, p: Pumped, other: Key)
    requires other != k && p.sent <= |QueueOf(s, k).messages|
    ensures Apart(s, Flushed(s, k, p), other)
  {
    hide CleanupClient, Shift, Apart, Tokens;
    var ts := Tokens(QueueOf(s, k).messages[..p.sent]);
    var s1 := Deliver(s.(tick := p.tick), k, ts);
    TickAndDeliverApart(s, k, p.tick, ts, other);
    if p.closed {
      CleanupApart(s1, k.client, other);
      ApartTwice(s, s1, CleanupClient(s1, k.client), other);
    } else if p.sent > 0 {
      ShiftApart(s1, k, p, other);
      ApartTwice(s, s1, Shift(s1, k, p), other);
    }
  }

  lemma CountPassApart(env: Env, s: State, k: Key, other: Key)
    requires other != k
    ensures Apart(s, CountPass(env, s, k), other)
  {
    hide SameLane;
    var q := QueueOf(s, k);
    var s1 := s.(queues := s.queues[k := q.(drainPasses := q.drainPasses + 1)]);
    SetQueueElsewhere(s, k, q.(drainPasses := q.drainPasses + 1), other);
    TickUnseen(s, other);
    TickUnseen(s1, other);
    SameLaneTwice(s, s1, Ticked(s1), other);
  }

  lemma TickUnseen(s: State, k: Key)
    ensures SameLane(s, Ticked(s), k)
  {
  }

  lemma DrainClientApart(env: Env, cfg: Config, s: State, k: Key, budget: Option<nat>, now: int, other: Key)
    requires other != k
    ensures Apart(s, DrainClient(env, cfg, s, k, budget, now), other)
  {
    hide Flush, CountPass, MarkClient, Apart, OverThreshold;
    var (s1, progress) := Flush(env, s, k, budget);
    FlushApart(env, s, k, budget, other);
    var s2 := if progress then s1 else CountPass(env, s1, k);
    CountPassApart(env, s1, k, other);
    NothingApart(s1, other);
    ApartTwice(s, s1, s2, other);
    MarkApart(s2, k, now, other);
    ApartTwice(s, s2, MarkClient(s2, k, now), other);
  }

  lemma {:induction false} DrainClientsApart(env: Env, cfg: Config, s: State, ch: Channel, clients: seq<Client>,
                                             budget: Option<nat>, now: int, other: Key)
    requires other.channel != ch
    ensures Apart(s, DrainClients(env, cfg, s, ch, clients, budget, now).0, other)
    decreases |clients|
  {
    hide DrainClient, Apart;
    NothingApart(s, other);
    if clients != [] {
      var s1 := DrainClient(env, cfg, s, Key(clients[0], ch), budget, now);
      DrainClientApart(env, cfg, s, Key(clients[0], ch), budget, now, other);
      DrainClientsApart(env, cfg, s1, ch, clients[1..], budget, now, other);
      ApartTwice(s, s1, DrainClients(env, cfg, s1, ch, clients[1..], budget, now).0, other);
    }
  }

  // ---- one event at a time ----------------------------------------------------

  function Streamed(stream: seq<Datum>, ch: Channel, p: Payload, k: Key): seq<Datum> {
    if ch == k.channel then stream + DataOf(p) else stream
  }

  lemma BookkeepingApart(s: State, ch: Channel, k: Key)
    ensures Apart(s, ScheduleDrain(s, ch), k)
    ensures Apart(s, s.(backpressured := RemoveFrom(s.backpressured, ch)), k)
  {
    hide RemoveFrom, AddTo, Apart;
    ScheduleApart(s, AddTo(s.backpressured, ch), true, k);
    ScheduleApart(s, RemoveFrom(s.backpressured, ch), s.drainTimer, k);
  }

  lemma ScheduleApart(s: State, chs: OrderedSet<Channel>, timer: bool, k: Key)
    ensures Apart(s, s.(backpressured := chs, drainTimer := timer), k)
  {
  }

  lemma PendingElsewhere(cfg: Config, s: State, ch: Channel, p: Payload, now: int, k: Key)
    requires ch != k.channel
    ensures Apart(s, EnqueuePending(cfg, s, ch, p, now), k)
  {
    hide EnqueuePending, Apart;
    EnqueueTouches(cfg, s, ch, p, now, k.channel);
    var s' := EnqueuePending(cfg, s, ch, p, now);
    PendingFieldsApart(s, s'.pending, s'.pendingFlagged, k);
  }

  /** Only the backlog of its own channel. */
  lemma EnqueueTouches(cfg: Config, s: State, ch: Channel, p: Payload, now: int, other: Channel)
    ensures var s' := EnqueuePending(cfg, s, ch, p, now);
            && s' == s.(pending := s'.pending, pendingFlagged := s'.pendingFlagged)
            && (other != ch ==> SamePending(s, s'.pending, s'.pendingFlagged, other))
  {
    hide Grown, Overflows, MarkPending, PendingOf;
    MarkPendingTouches(s.(pending := s.pending[ch := Grown(cfg, ch, PendingOf(s, ch), p, now)]), ch, now, other);
  }

  lemma MarkPendingTouches(s: State, ch: Channel, now: int, other: Channel)
    ensures var s' := MarkPending(s, ch, now);
            && s' == s.(pending := s'.pending, pendingFlagged := s'.pendingFlagged)
            && (other != ch ==> SamePending(s, s'.pending, s'.pendingFlagged, other))
  {
    hide RecoveryQueue;
  }

  predicate SamePending(s: State, pending: map<Channel, Queue>, flagged: set<Channel>, ch: Channel) {
    && (ch in pending <==> ch in s.pending) && (ch in pending ==> pending[ch] == s.pending[ch])
    && (ch in flagged <==> ch in s.pendingFlagged)
  }

  lemma PendingFieldsApart(s: State, pending: map<Channel, Queue>, flagged: set<Channel>, k: Key)
    requires SamePending(s, pending, flagged, k.channel)
    ensures Apart(s, s.(pending := pending, pendingFlagged := flagged), k)
  {
    hide SameLane;
    PendingFieldsUnseen(s, pending, flagged, k);
  }

  lemma PendingUnseen(cfg: Config, s: State, ch: Channel, p: Payload, now: int, k: Key)
    ensures SameLane(s, EnqueuePending(cfg, s, ch, p, now), k)
  {
    hide EnqueuePending, SameLane;
    EnqueueTouches(cfg, s, ch, p, now, k.channel);
    var s' := EnqueuePending(cfg, s, ch, p, now);
    PendingFieldsUnseen(s, s'.pending, s'.pendingFlagged, k);
  }

  lemma PendingFieldsUnseen(s: State, pending: map<Channel, Queue>, flagged: set<Channel>, k: Key)
    ensures SameLane(s, s.(pending := pending, pendingFlagged := flagged), k)
  {
  }

  lemma BacklogKeepsAll(cfg: Config, s: State, k: Key, p: Payload, now: int, stream: seq<Datum>)
    requires Unbound(s, k, stream)
    ensures Unbound(EnqueuePending(cfg, s, k.channel, p, now), k, stream + DataOf(p))
  {
    hide Grown, Overflows, Appended, CaughtUp, PayloadTokens;
    var q := PendingOf(s, k.channel);
    GrownIsNotEmpty(cfg, k.channel, q, p, now);
    if k.channel !in s.pendingFlagged && !Overflows(cfg, k.channel, q, p, now) {
      GrownFreeQueue(cfg, k.channel, q, p, now);
      CaughtUpWithPayload(Tokens(q.messages), stream, p);
    }
  }

  lemma GrownIsNotEmpty(cfg: Config, ch: Channel, q: Queue, p: Payload, now: int)
    ensures Grown(cfg, ch, q, p, now).messages != []
  {
    TrimShape(Appended(cfg, ch, q, p, now), cfg.pendingMaxBytes);
  }

  lemma AbsentLaneGrows(s: State, k: Key, stream: seq<Datum>, more: seq<Datum>)
    requires LaneOk(s, k, stream) && k.client !in Subscribers(s, k.channel)
    ensures LaneOk(s, k, stream + more)
  {
    GapsSurviveGrowth(Wire(s, k), stream, more);
  }

  lemma SendKeepsTrack(env: Env, cfg: Config, s: State, ch: Channel, p: Payload, now: int, k: Key, stream: seq<Datum>,
                       bound: bool)
    requires Tracked(s, k, stream, bound)
    requires bound && ch == k.channel && k.client in Subscribers(s, ch) ==> !Loses(cfg, s, k, p)
    ensures Tracked(Send(env, cfg, s, ch, p, now), k, Streamed(stream, ch, p, k), bound)
  {
    hide EnqueuePending, SendAll, ScheduleDrain, Apart, LaneOk, Loses;
    var clients := Subscribers(s, ch);
    if ch != k.channel {
      hide Tracked;
      if clients == [] {
        PendingElsewhere(cfg, s, ch, p, now, k);
        ApartKeepsTrack(s, EnqueuePending(cfg, s, ch, p, now), k, stream, bound);
      } else {
        var (s1, left) := SendAll(env, cfg, s, ch, p, clients, now);
        SendAllApart(env, cfg, s, ch, p, clients, now, k);
        ApartKeepsTrack(s, s1, k, stream, bound);
        BookkeepingApart(s1, ch, k);
        ApartKeepsTrack(s1, ScheduleDrain(s1, ch), k, stream, bound);
      }
    } else if !bound {
      BacklogKeepsAll(cfg, s, k, p, now, stream);
    } else if clients == [] {
      AbsentLaneGrows(s, k, stream, DataOf(p));
      PendingUnseen(cfg, s, ch, p, now, k);
      SameLaneStaysOk(s, EnqueuePending(cfg, s, ch, p, now), k, stream + DataOf(p));
    } else {
      var (s1, left) := SendAll(env, cfg, s, ch, p, clients, now);
      SendAllKeepsLane(env, cfg, s, k, p, clients, now, stream);
      if k.client !in clients {
        AbsentLaneGrows(s, k, stream, DataOf(p));
        SameLaneStaysOk(s, s1, k, stream + DataOf(p));
      }
      BookkeepingApart(s1, ch, k);
      ApartKeepsTrack(s1, ScheduleDrain(s1, ch), k, stream + DataOf(p), true);
    }
  }

  lemma DrainChannelKeepsTrack(env: Env, cfg: Config, s: State, ch: Channel, now: int, k: Key, stream: seq<Datum>,
                               bound: bool)
    requires Tracked(s, k, stream, bound)
    ensures Tracked(DrainChannel(env, cfg, s, ch, now), k, stream, bound)
  {
    hide DrainClients, Apart, LaneOk;
    var clients := Subscribers(s, ch);
    if clients == [] {
      BookkeepingApart(s, ch, k);
      ApartKeepsTrack(s, s.(backpressured := RemoveFrom(s.backpressured, ch)), k, stream, bound);
    } else {
      var budget := if ch in s.focused then None else Some(cfg.backgroundBudgetBytes);
      var (s1, queued) := DrainClients(env, cfg, s, ch, clients, budget, now);
      if ch == k.channel {
        assert bound;
        DrainClientsKeepLane(env, cfg, s, ch, clients, budget, now, k, stream);
      } else {
        DrainClientsApart(env, cfg, s, ch, clients, budget, now, k);
        ApartKeepsTrack(s, s1, k, stream, bound);
      }
      BookkeepingApart(s1, ch, k);
      ApartKeepsTrack(s1, s1.(backpressured := RemoveFrom(s1.backpressured, ch)), k, stream, bound);
    }
  }

  lemma {:induction false} DrainChannelsKeepTrack(env: Env, cfg: Config, s: State, chs: seq<Channel>, now: int,
                                                  k: Key, stream: seq<Datum>, bound: bool)
    requires Tracked(s, k, stream, bound)
    ensures Tracked(DrainChannels(env, cfg, s, chs, now), k, stream, bound)
    decreases |chs|
  {
    hide DrainChannel, Tracked;
    if chs != [] {
      DrainChannelKeepsTrack(env, cfg, s, chs[0], now, k, stream, bound);
      DrainChannelsKeepTrack(env, cfg, DrainChannel(env, cfg, s, chs[0], now), chs[1..], now, k, stream, bound);
    }
  }

  lemma DrainPassKeepsTrack(env: Env, cfg: Config, s: State, now: int, k: Key, stream: seq<Datum>, bound: bool)
    requires Tracked(s, k, stream, bound)
    ensures Tracked(DrainPass(env, cfg, s, now), k, stream, bound)
  {
    hide DrainChannels, Apart, Tracked, OrderForDrain, NextRotation;
    var order := OrderForDrain(s.backpressured, s.focused, s.rotation);
    var s1 := s.(drainTimer := false, rotation := NextRotation(s.backpressured, s.focused, s.rotation));
    TimerApart(s, k, false, s1.rotation);
    ApartKeepsTrack(s, s1, k, stream, bound);
    DrainChannelsKeepTrack(env, cfg, s1, order, now, k, stream, bound);
    var s2 := DrainChannels(env, cfg, s1, order, now);
    TimerApart(s2, k, true, s2.rotation);
    ApartKeepsTrack(s2, s2.(drainTimer := true), k, stream, bound);
  }

  lemma TimerApart(s: State, k: Key, timer: bool, rotation: nat)
    ensures Apart(s, s.(drainTimer := timer, rotation := rotation), k)
  {
  }

  // ---- binding and unbinding ---------------------------------------------------

  /** Copying the backlog message by message reproduces its stream. */
  lemma {:induction false} CopyKeepsStream(cfg: Config, ch: Channel, q: Queue, ms: seq<Message>)
    ensures Tokens(CopyAll(cfg, ch, q, ms).messages) == Tokens(q.messages) + Tokens(ms)
    decreases |ms|
  {
    hide Append, MessageTokens;
    if ms == [] {
      NoTokens();
    } else {
      var q1 := Append(ch, q, ms[0], cfg.coalesceMaxBytes);
      AppendKeepsStream(ch, q, ms[0], cfg.coalesceMaxBytes);
      CopyKeepsStream(cfg, ch, q1, ms[1..]);
      TokensOfFirst(ms);
      ConcatAssociates(Tokens(q.messages), MessageTokens(ms[0]), Tokens(ms[1..]));
    }
  }

  lemma TokensOfFirst(ms: seq<Message>)
    requires ms != []
    ensures Tokens(ms) == MessageTokens(ms[0]) + Tokens(ms[1..])
  {
    hide MessageTokens;
    TokensSplit(ms, 1);
    assert ms[..1][..0] == [];
    assert Tokens(ms[..1]) == Tokens(ms[..1][..0]) + MessageTokens(ms[0]);
  }

  /** The first bind hands the client the whole backlog, or a marker for it. */
  lemma CopyStartsLane(cfg: Config, s: State, k: Key, now: int, stream: seq<Datum>)
    requires k.client in Subscribers(s, k.channel) && Wire(s, k) == []
    requires k !in s.queues && k !in s.flagged
    requires if k.channel in s.pendingFlagged then PendingOf(s, k.channel).messages != []
             else CaughtUp(Tokens(PendingOf(s, k.channel).messages), stream)
    ensures LaneOk(CopyBacklog(cfg, s, k, now), k, stream)
  {
    hide MarkedGaps, CaughtUp, Tokens, CopyAll, MarkClient;
    var q := PendingOf(s, k.channel);
    NothingSeen(stream);
    NoTokens();
    assert [] + Tokens([]) == [];
    if q.messages != [] {
      if BacklogNeedsRecovery(cfg, s, k.channel, now) {
        MarkKeepsLane(s.(backlogTimers := s.backlogTimers + {k.channel}), k, now, stream);
      } else {
        CopyKeepsStream(cfg, k.channel, EMPTY_QUEUE, q.messages);
        assert [] + Tokens(q.messages) == Tokens(q.messages);
        assert [] + ([] + Tokens(q.messages)) == Tokens(q.messages);
      }
    }
  }

  lemma FirstBindStartsTrack(env: Env, cfg: Config, s: State, k: Key, now: int, stream: seq<Datum>)
    requires Unbound(s, k, stream)
    ensures LaneOk(Bind(env, cfg, s, k, now), k, stream)
  {
    hide CopyBacklog, Flush, LaneOk, Apart, CaughtUp;
    var s1 := Subscribe(s, k);
    CopyStartsLane(cfg, s1, k, now, stream);
    CopyKeepsSubscribers(cfg, s1, k, now);
    var s2 := CopyBacklog(cfg, s1, k, now);
    FlushKeepsLane(env, s2, k, None, k, stream);
    var s3 := Flush(env, s2, k, None).0;
    BookkeepingApart(s3, k.channel, k);
    ApartKeepsTrack(s3, ScheduleDrain(s3, k.channel), k, stream, true);
  }

  lemma CopyKeepsSubscribers(cfg: Config, s: State, k: Key, now: int)
    ensures CopyBacklog(cfg, s, k, now).subscribers == s.subscribers
  {
    hide CopyAll;
  }

  lemma CopyUnseen(cfg: Config, s: State, k: Key, now: int, other: Key)
    requires other != k
    ensures SameLane(s, CopyBacklog(cfg, s, k, now), other)
  {
    hide CopyAll, SameLane, MarkClient, BacklogNeedsRecovery;
    var s1 := s.(backlogTimers := s.backlogTimers + {k.channel});
    TimersUnseen(s, s.cleanupTimers, s1.backlogTimers, other);
    NothingUnseen(s, other);
    MarkElsewhere(s1, k, now, other);
    SameLaneTwice(s, s1, MarkClient(s1, k, now), other);
    var q := CopyAll(cfg, k.channel, QueueOf(s, k), PendingOf(s, k.channel).messages);
    SetQueueElsewhere(s1, k, q, other);
    SameLaneTwice(s, s1, s1.(queues := s1.queues[k := q]), other);
  }

  lemma NothingUnseen(s: State, k: Key)
    ensures SameLane(s, s, k)
  {
  }

  lemma TimersUnseen(s: State, cleanup: set<Channel>, backlog: set<Channel>, k: Key)
    ensures SameLane(s, s.(cleanupTimers := cleanup, backlogTimers := backlog), k)
  {
  }

  lemma CopyTouches(cfg: Config, s: State, k: Key, now: int, other: Key)
    requires other.channel != k.channel
    ensures var s' := CopyBacklog(cfg, s, k, now);
            && s' == s.(queues := s'.queues, flagged := s'.flagged, backlogTimers := s'.backlogTimers)
            && (other in s'.queues <==> other in s.queues)
            && (other.channel in s'.backlogTimers <==> other.channel in s.backlogTimers)
  {
    hide CopyAll, MarkClient, BacklogNeedsRecovery, PendingOf, QueueOf;
    MarkTouches(s.(backlogTimers := s.backlogTimers + {k.channel}), k, now, other);
  }

  lemma MarkTouches(s: State, k: Key, now: int, other: Key)
    requires other != k
    ensures var s' := MarkClient(s, k, now);
            s' == s.(queues := s'.queues, flagged := s'.flagged) && (other in s'.queues <==> other in s.queues)
  {
    hide RecoveryQueue;
  }

  lemma CopyApart(cfg: Config, s: State, k: Key, now: int, other: Key)
    requires other.channel != k.channel
    ensures Apart(s, CopyBacklog(cfg, s, k, now), other)
  {
    hide CopyAll, RecoveryQueue, BacklogNeedsRecovery, CopyBacklog;
    CopyUnseen(cfg, s, k, now, other);
    CopyTouches(cfg, s, k, now, other);
  }

  lemma SubscribeUnseen(s: State, k: Key, other: Key)
    requires other != k
    ensures SameLane(s, Subscribe(s, k), other)
    ensures other.channel != k.channel ==> Apart(s, Subscribe(s, k), other)
  {
  }

  lemma OtherBindKeepsTrack(env: Env, cfg: Config, s: State, b: Key, now: int, k: Key, stream: seq<Datum>, bound: bool)
    requires Tracked(s, k, stream, bound) && b != k
    requires !bound ==> b.channel != k.channel
    ensures Tracked(Bind(env, cfg, s, b, now), k, stream, bound)
  {
    hide CopyBacklog, Flush, LaneOk, Apart, Subscribe, SameLane, Unbound;
    var s1 := Subscribe(s, b);
    var s2 := CopyBacklog(cfg, s1, b, now);
    var s3 := Flush(env, s2, b, None).0;
    SubscribeUnseen(s, b, k);
    if b.channel == k.channel {
      CopyUnseen(cfg, s1, b, now, k);
      SameLaneStaysOk(s, s1, k, stream);
      SameLaneStaysOk(s1, s2, k, stream);
    } else {
      CopyApart(cfg, s1, b, now, k);
      ApartKeepsTrack(s, s1, k, stream, bound);
      ApartKeepsTrack(s1, s2, k, stream, bound);
    }
    FlushApart(env, s2, b, None, k);
    ApartKeepsTrack(s2, s3, k, stream, bound);
    BookkeepingApart(s3, b.channel, k);
    ApartKeepsTrack(s3, ScheduleDrain(s3, b.channel), k, stream, bound);
  }

  lemma UnbindKeepsTrack(s: State, b: Key, k: Key, stream: seq<Datum>, bound: bool)
    requires Tracked(s, k, stream, bound)
    ensures Tracked(Unbind(s, b), k, stream, bound)
  {
    hide CaughtUp, Tokens;
    if !bound {
      hide LaneOk;
      UnbindBeforeBind(s, b, k, stream);
    } else {
      hide LaneFine, Unbound, Unbind;
      LaneHasMarkedGaps(s, k, stream);
      if b == k {
        UnbindLeaves(s, k);
        AbsentLane(Unbind(s, b), k, stream);
      } else {
        UnbindUnseen(s, b, k);
        SameLaneStaysOk(s, Unbind(s, b), k, stream);
      }
    }
  }

  lemma UnbindBeforeBind(s: State, b: Key, k: Key, stream: seq<Datum>)
    requires Unbound(s, k, stream)
    ensures Unbound(Unbind(s, b), k, stream)
  {
    hide CaughtUp, Tokens, RemoveSubscriber;
    RemoveSubscriberBeforeBind(s, b.channel, b.client, k.channel);
    var s1 := RemoveSubscriber(s, b.channel, b.client);
    assert s1 == s.(subscribers := s1.subscribers, cleanupTimers := s1.cleanupTimers);
  }

  lemma RemoveSubscriberBeforeBind(s: State, ch: Channel, c: Client, other: Channel)
    requires other !in s.subscribers && other !in s.cleanupTimers
    ensures var s1 := RemoveSubscriber(s, ch, c);
            && other !in s1.subscribers && other !in s1.cleanupTimers
            && s1 == s.(subscribers := s1.subscribers, cleanupTimers := s1.cleanupTimers)
  {
  }

  lemma AbsentLane(s: State, k: Key, stream: seq<Datum>)
    requires MarkedGaps(Wire(s, k), stream) && k.client !in Subscribers(s, k.channel)
    ensures LaneOk(s, k, stream)
  {
  }

  lemma UnbindLeaves(s: State, k: Key)
    ensures Wire(Unbind(s, k), k) == Wire(s, k) && k.client !in Subscribers(Unbind(s, k), k.channel)
  {
  }

  lemma RemoveSubscriberUnseen(s: State, b: Key, k: Key)
    requires b != k
    ensures SameLane(s, RemoveSubscriber(s, b.channel, b.client), k)
  {
  }

  lemma UnbindUnseen(s: State, b: Key, k: Key)
    requires b != k
    ensures SameLane(s, Unbind(s, b), k)
  {
    hide RemoveSubscriber, SameLane;
    var s1 := RemoveSubscriber(s, b.channel, b.client);
    RemoveSubscriberUnseen(s, b, k);
    ForgetUnseen(s1, b, k);
    SameLaneTwice(s, s1, Unbind(s, b), k);
  }

  lemma ForgetUnseen(s: State, b: Key, k: Key)
    requires b != k
    ensures SameLane(s, s.(cleanupTimers := s.cleanupTimers - {b.channel}, queues := s.queues - {b},
                           flagged := s.flagged - {b}), k)
  {
  }

  lemma QuietEventKeepsTrack(env: Env, cfg: Config, s: State, e: Event, k: Key, stream: seq<Datum>, bound: bool)
    requires Enabled(s, e) && Tracked(s, k, stream, bound)
    requires e.Focus? || e.CleanupTimerFires? || e.BacklogTimerFires? || e.Shutdown?
    ensures Tracked(Step(env, cfg, s, e), k, if e.Shutdown? && !bound then [] else stream, bound)
  {
    hide Send, DrainPass, Bind, Unbind, CleanupClient, Tracked, Apart, DropPending, CleanupAll;
    match e {
      case Focus(chs) =>
        FocusApart(s, chs, k);
        ApartKeepsTrack(s, s.(focused := chs), k, stream, bound);
      case CleanupTimerFires(ch) =>
        var s1 := s.(cleanupTimers := s.cleanupTimers - {ch});
        TimersApart(s, s1.cleanupTimers, s.backlogTimers, k);
        ApartKeepsTrack(s, s1, k, stream, bound);
        DroppedKeepsTrack(s, s1, ch, k, stream, bound);
      case BacklogTimerFires(ch) =>
        var s1 := s.(backlogTimers := s.backlogTimers - {ch});
        TimersApart(s, s.cleanupTimers, s1.backlogTimers, k);
        ApartKeepsTrack(s, s1, k, stream, bound);
        DroppedKeepsTrack(s, s1, ch, k, stream, bound);
      case Shutdown => ShutdownKeepsTrack(s, k, stream, bound);
    }
  }

  lemma FocusApart(s: State, chs: set<Channel>, k: Key)
    ensures Apart(s, s.(focused := chs), k)
  {
  }

  lemma TimersApart(s: State, cleanup: set<Channel>, backlog: set<Channel>, k: Key)
    requires cleanup <= s.cleanupTimers && backlog <= s.backlogTimers
    ensures Apart(s, s.(cleanupTimers := cleanup, backlogTimers := backlog), k)
  {
    hide SameLane;
    TimersUnseen(s, cleanup, backlog, k);
  }

  /** The timer was armed, so the channel was bound before, or is another one. */
  lemma DroppedKeepsTrack(s: State, s1: State, ch: Channel, k: Key, stream: seq<Datum>, bound: bool)
    requires Tracked(s, k, stream, bound) && Tracked(s1, k, stream, bound)
    requires ch in s.cleanupTimers || ch in s.backlogTimers
    ensures Tracked(DropPending(s1, ch), k, stream, bound)
  {
    hide LaneOk, Apart, CaughtUp, Tokens;
    if bound {
      PendingFieldsUnseen(s1, s1.pending - {ch}, s1.pendingFlagged - {ch}, k);
      SameLaneStaysOk(s1, DropPending(s1, ch), k, stream);
    } else {
      assert ch != k.channel;
      PendingFieldsApart(s1, s1.pending - {ch}, s1.pendingFlagged - {ch}, k);
      ApartKeepsTrack(s1, DropPending(s1, ch), k, stream, bound);
    }
  }

  lemma ShutdownKeepsTrack(s: State, k: Key, stream: seq<Datum>, bound: bool)
    requires Tracked(s, k, stream, bound)
    ensures Tracked(CleanupAll(s), k, if bound then stream else [], bound)
  {
    hide LaneFine, CaughtUp;
    NothingSeen([]);
    NoTokens();
    if bound {
      LaneHasMarkedGaps(s, k, stream);
      AbsentLane(CleanupAll(s), k, stream);
    }
  }

  // ---- whole runs ----------------------------------------------------------------

  predicate Binds(e: Event, k: Key) {
    e.BindChannel? && e.key == k
  }

  /** A shutdown drops a backlog nobody has bound. */
  function Sent(e: Event, k: Key, stream: seq<Datum>, bound: bool): seq<Datum> {
    if e.Shutdown? && !bound then [] else stream + StreamOf([e], k.channel)
  }

  /** What the guarantee asks of one event: the client binds the channel once and before anyone else,
      and no control message evicts the only marker it has. */
  ghost predicate Fits(cfg: Config, s: State, e: Event, k: Key, bound: bool) {
    match e
    case BindChannel(b, _) => b.channel == k.channel ==> (bound <==> b != k)
    case SendMessage(ch, p, _) =>
      bound && ch == k.channel && k.client in Subscribers(s, ch) ==> !Loses(cfg, s, k, p)
    case _ => true
  }

  lemma StepKeepsTrack(env: Env, cfg: Config, s: State, e: Event, k: Key, stream: seq<Datum>, bound: bool)
    requires Enabled(s, e) && Tracked(s, k, stream, bound) && Fits(cfg, s, e, k, bound)
    ensures Tracked(Step(env, cfg, s, e), k, Sent(e, k, stream, bound), bound || Binds(e, k))
  {
    hide Send, DrainPass, Bind, Unbind, CleanupClient, Apart, LaneOk, Unbound;
    assert StreamOf([e][1..], k.channel) == [];
    assert !e.SendMessage? ==> StreamOf([e], k.channel) == [];
    assert stream + [] == stream;
    match e {
      case SendMessage(ch, p, now) =>
        assert StreamOf([e], k.channel) == if ch == k.channel then DataOf(p) else [];
        SendKeepsTrack(env, cfg, s, ch, p, now, k, stream, bound);
      case DrainTimerFires(now) => DrainPassKeepsTrack(env, cfg, s, now, k, stream, bound);
      case BindChannel(b, now) =>
        if b == k {
          FirstBindStartsTrack(env, cfg, s, k, now, stream);
        } else {
          OtherBindKeepsTrack(env, cfg, s, b, now, k, stream, bound);
        }
      case UnbindChannel(b) => UnbindKeepsTrack(s, b, k, stream, bound);
      case ClientGone(c) =>
        CleanupApart(s, c, k);
        ApartKeepsTrack(s, CleanupClient(s, c), k, stream, bound);
      case _ => QuietEventKeepsTrack(env, cfg, s, e, k, stream, bound);
    }
  }

  ghost predicate FitsRun(env: Env, cfg: Config, s: State, events: seq<Event>, k: Key, bound: bool)
    decreases |events|
  {
    events == []
    || (if Enabled(s, events[0]) then
          && Fits(cfg, s, events[0], k, bound)
          && FitsRun(env, cfg, Step(env, cfg, s, events[0]), events[1..], k, bound || Binds(events[0], k))
        else
          FitsRun(env, cfg, s, events[1..], k, bound))
  }

  function SentAll(events: seq<Event>, k: Key, stream: seq<Datum>, bound: bool): seq<Datum>
    decreases |events|
  {
    if events == [] then stream
    else SentAll(events[1..], k, Sent(events[0], k, stream, bound), bound || Binds(events[0], k))
  }

  lemma {:induction false} RunKeepsTrack(env: Env, cfg: Config, s: State, events: seq<Event>, k: Key,
                                         stream: seq<Datum>, bound: bool)
    requires Tracked(s, k, stream, bound) && FitsRun(env, cfg, s, events, k, bound)
    ensures MarkedGaps(Wire(Run(env, cfg, s, events), k), SentAll(events, k, stream, bound))
    decreases |events|
  {
    hide Step, Fits, LaneOk, Apart, Sent;
    if events == [] {
      if bound {
        LaneHasMarkedGaps(s, k, stream);
      } else {
        NothingSeen(stream);
      }
    } else {
      var e := events[0];
      if Enabled(s, e) {
        StepKeepsTrack(env, cfg, s, e, k, stream, bound);
        RunKeepsTrack(env, cfg, Step(env, cfg, s, e), events[1..], k, Sent(e, k, stream, bound), bound || Binds(e, k));
      } else {
        SkippedSendsNothing(s, e, k, stream, bound);
        RunKeepsTrack(env, cfg, s, events[1..], k, stream, bound);
      }
    }
  }

  lemma SkippedSendsNothing(s: State, e: Event, k: Key, stream: seq<Datum>, bound: bool)
    requires !Enabled(s, e)
    ensures Sent(e, k, stream, bound) == stream && !Binds(e, k)
  {
    assert StreamOf([e][1..], k.channel) == [];
  }

  lemma StreamOfFirst(events: seq<Event>, ch: Channel)
    requires events != []
    ensures StreamOf(events, ch) == StreamOf([events[0]], ch) + StreamOf(events[1..], ch)
    ensures !events[0].SendMessage? ==> StreamOf(events, ch) == StreamOf(events[1..], ch)
  {
    assert [events[0]][1..] == [];
    assert StreamOf([events[0]][1..], ch) == [];
  }

  /** Without a shutdown that is everything sent on the channel. */
  lemma {:induction false} SentIsEverything(events: seq<Event>, k: Key, stream: seq<Datum>, bound: bool)
    requires Shutdown !in events
    ensures SentAll(events, k, stream, bound) == stream + StreamOf(events, k.channel)
    decreases |events|
  {
    if events == [] {
      assert stream + [] == stream;
    } else {
      var e := events[0];
      assert e in events && forall f :: f in events[1..] ==> f in events;
      SentIsEverything(events[1..], k, Sent(e, k, stream, bound), bound || Binds(e, k));
      StreamOfFirst(events, k.channel);
      var rest := StreamOf(events[1..], k.channel);
      assert stream + StreamOf([e], k.channel) + rest == stream + (StreamOf([e], k.channel) + rest);
    }
  }

  /** From the first thing sent: over every run and every behaviour of the transport, a client that binds
      a channel once, before anyone else, and never loses its marker, sees everything sent on the channel
      (a shutdown before the bind starts anew) with gaps only where a recovery marker stands. */
  lemma FirstBinderMissesNothing(env: Env, cfg: Config, events: seq<Event>, k: Key)
    requires FitsRun(env, cfg, INIT, events, k, false)
    ensures MarkedGaps(Wire(Run(env, cfg, INIT, events), k), SentAll(events, k, [], false))
    ensures Shutdown !in events ==> MarkedGaps(Wire(Run(env, cfg, INIT, events), k), StreamOf(events, k.channel))
    ensures forall base :: Numbered(SentAll(events, k, [], false), base) ==>
              InOrderOnce(Wire(Run(env, cfg, INIT, events), k), base)
  {
    hide FitsRun, Run, StreamOf, SentAll, Numbered, InOrderOnce;
    NothingSeen([]);
    NoTokens();
    RunKeepsTrack(env, cfg, INIT, events, k, [], false);
    forall base | Numbered(SentAll(events, k, [], false), base)
      ensures InOrderOnce(Wire(Run(env, cfg, INIT, events), k), base)
    {
      MarkedGapsAreLiteral(Wire(Run(env, cfg, INIT, events), k), SentAll(events, k, [], false), base);
    }
    if Shutdown !in events {
      SentIsEverything(events, k, [], false);
      assert [] + StreamOf(events, k.channel) == StreamOf(events, k.channel);
    }
  }

  // ---- every client, from each of its binds on -------------------------------------

  /** What a bind owes the client at once: the data that waits for it then. If that was replaced by a
      marker, nothing. */
  function OwedAtBind(cfg: Config, s: State, k: Key, now: int): seq<Datum> {
    var s1 := CopyBacklog(cfg, Subscribe(s, k), k, now);
    if k in s1.flagged then [] else DataIn(Tokens(QueueOf(s1, k).messages))
  }

  /** And everything sent later. */
  function OwedAfter(cfg: Config, s: State, e: Event, k: Key, owed: seq<Datum>): seq<Datum> {
    if Binds(e, k) then OwedAtBind(cfg, s, k, e.now) else owed + StreamOf([e], k.channel)
  }

  /** What a client is owed at the end of a run, counted from its last bind. */
  function Owed(env: Env, cfg: Config, s: State, events: seq<Event>, k: Key, owed: seq<Datum>): seq<Datum>
    decreases |events|
  {
    if events == [] then owed
    else if !Enabled(s, events[0]) then Owed(env, cfg, s, events[1..], k, owed)
    else
      var e := events[0];
      Owed(env, cfg, Step(env, cfg, s, e), events[1..], k, OwedAfter(cfg, s, e, k, owed))
  }

  predicate OnlyControls(ms: seq<Message>) {
    forall i :: 0 <= i < |ms| ==> ms[i].Serialized? && ms[i].body.ControlBody?
  }

  /** Binding again while recovering: the marker still waits, and the backlog has no data to queue behind it,
      or calls for recovery itself. */
  predicate RebindFits(cfg: Config, s: State, k: Key, now: int) {
    k in s.flagged ==>
      && MarkerFirst(QueueOf(s, k).messages) && Recovering(QueueOf(s, k).messages)
      && (OnlyControls(PendingOf(s, k.channel).messages) || BacklogNeedsRecovery(cfg, s, k.channel, now))
  }

  /** What the guarantee asks of one event: a client that binds again while recovering still has its marker
      waiting and gets no backlog data, and no control message evicts the only marker it has. */
  ghost predicate Keeps(cfg: Config, s: State, e: Event, k: Key) {
    match e
    case BindChannel(b, now) => b == k ==> RebindFits(cfg, s, k, now)
    case SendMessage(ch, p, _) => ch == k.channel && k.client in Subscribers(s, ch) ==> !Loses(cfg, s, k, p)
    case _ => true
  }

  ghost predicate KeepsAll(env: Env, cfg: Config, s: State, events: seq<Event>, k: Key)
    decreases |events|
  {
    events == []
    || (if Enabled(s, events[0]) then
          Keeps(cfg, s, events[0], k) && KeepsAll(env, cfg, Step(env, cfg, s, events[0]), events[1..], k)
        else KeepsAll(env, cfg, s, events[1..], k))
  }

  /** A bind, the first or a later one, with other subscribers or without. */
  lemma BindStartsLane(env: Env, cfg: Config, s: State, k: Key, now: int)
    requires RebindFits(cfg, s, k, now)
    ensures LaneOk(Bind(env, cfg, s, k, now), k, OwedAtBind(cfg, s, k, now))
  {
    hide CopyBacklog, Flush, LaneOk, Apart, Recovering;
    var s1 := Subscribe(s, k);
    var s2 := CopyBacklog(cfg, s1, k, now);
    if k in s.flagged {
      SubscribeSees(cfg, s, k, now);
      CopyWhileRecovering(cfg, s1, k, now);
    } else {
      CopyStartsAfresh(cfg, s1, k, now);
    }
    CopyKeepsSubscribers(cfg, s1, k, now);
    var owed := OwedAtBind(cfg, s, k, now);
    FlushKeepsLane(env, s2, k, None, k, owed);
    var s3 := Flush(env, s2, k, None).0;
    BookkeepingApart(s3, k.channel, k);
    ApartKeepsTrack(s3, ScheduleDrain(s3, k.channel), k, owed, true);
  }

  lemma CopyStartsAfresh(cfg: Config, s: State, k: Key, now: int)
    requires k.client in Subscribers(s, k.channel) && Wire(s, k) == [] && k !in s.flagged
    ensures var s1 := CopyBacklog(cfg, s, k, now);
            LaneOk(s1, k, if k in s1.flagged then [] else DataIn(Tokens(QueueOf(s1, k).messages)))
  {
    hide MarkedGaps, CaughtUp, Tokens, CopyAll, MarkClient, BacklogNeedsRecovery;
    NothingSeen([]);
    var s1 := CopyBacklog(cfg, s, k, now);
    if PendingOf(s, k.channel).messages != [] && BacklogNeedsRecovery(cfg, s, k.channel, now) {
      MarkKeepsLane(s.(backlogTimers := s.backlogTimers + {k.channel}), k, now, []);
      MarkFlags(s.(backlogTimers := s.backlogTimers + {k.channel}), k, now);
    } else {
      var ts := Tokens(QueueOf(s1, k).messages);
      CaughtUpWithOwnData(ts);
      assert [] + ts == ts;
    }
  }

  lemma SubscribeSees(cfg: Config, s: State, k: Key, now: int)
    ensures RebindFits(cfg, Subscribe(s, k), k, now) <==> RebindFits(cfg, s, k, now)
    ensures k in s.flagged && RebindFits(cfg, s, k, now) ==> QueueOf(Subscribe(s, k), k).messages != []
  {
  }

  lemma {:induction false} CopyKeepsFirst(cfg: Config, ch: Channel, q: Queue, ms: seq<Message>)
    requires q.messages != []
    ensures var q' := CopyAll(cfg, ch, q, ms);
            q'.messages != [] && (MarkerFirst(q'.messages) <==> MarkerFirst(q.messages))
    decreases |ms|
  {
    hide CreateMessage, DataSize;
    if ms != [] {
      CopyKeepsFirst(cfg, ch, Append(ch, q, ms[0], cfg.coalesceMaxBytes), ms[1..]);
    }
  }

  lemma AppendKeepsRecovering(cfg: Config, ch: Channel, q: Queue, m: Message)
    requires q.messages != []
    ensures var q' := Append(ch, q, m, cfg.coalesceMaxBytes);
            && q'.messages != []
            && (Recovering(q'.messages) <==> Recovering(q.messages) && OnlyControls([m]))
  {
    hide DataSize;
    var n := |q.messages|;
    var q' := Append(ch, q, m, cfg.coalesceMaxBytes);
    if |q'.messages| == n {
      assert q.messages[n - 1].TerminalData? && q'.messages[n - 1].TerminalData?;
    } else {
      assert q'.messages == q.messages + [m];
      assert q'.messages[n] == m && forall i :: 0 <= i < n ==> q'.messages[i] == q.messages[i];
      assert [m][0] == m;
    }
  }

  lemma {:induction false} CopyKeepsRecovering(cfg: Config, ch: Channel, q: Queue, ms: seq<Message>)
    requires q.messages != []
    ensures Recovering(CopyAll(cfg, ch, q, ms).messages) <==> Recovering(q.messages) && OnlyControls(ms)
    decreases |ms|
  {
    hide Append, Recovering;
    if ms != [] {
      AppendKeepsRecovering(cfg, ch, q, ms[0]);
      CopyKeepsRecovering(cfg, ch, Append(ch, q, ms[0], cfg.coalesceMaxBytes), ms[1..]);
      assert ms == [ms[0]] + ms[1..];
    }
  }

  /** The exact guard for binding again while recovering: on what waits for the client and on the backlog. */
  lemma CopyWhileRecovering(cfg: Config, s: State, k: Key, now: int)
    requires k.client in Subscribers(s, k.channel) && Wire(s, k) == [] && k in s.flagged && QueueOf(s, k).messages != []
    ensures k in CopyBacklog(cfg, s, k, now).flagged
    ensures LaneOk(CopyBacklog(cfg, s, k, now), k, []) <==> RebindFits(cfg, s, k, now)
  {
    hide MarkedGaps, CaughtUp, Tokens, CopyAll, BacklogNeedsRecovery, Recovering, OnlyControls, MarkerFirst;
    NothingSeen([]);
    var q, ms := QueueOf(s, k), PendingOf(s, k.channel).messages;
    CopyKeepsFirst(cfg, k.channel, q, ms);
    CopyKeepsRecovering(cfg, k.channel, q, ms);
    if ms == [] {
      NoControls();
    }
  }

  lemma NoControls()
    ensures OnlyControls([])
  {
  }

  lemma MarkFlags(s: State, k: Key, now: int)
    ensures k in MarkClient(s, k, now).flagged
  {
  }

  lemma StepKeepsLane(env: Env, cfg: Config, s: State, e: Event, k: Key, owed: seq<Datum>)
    requires Enabled(s, e) && LaneOk(s, k, owed) && Keeps(cfg, s, e, k)
    ensures LaneOk(Step(env, cfg, s, e), k, OwedAfter(cfg, s, e, k, owed))
  {
    hide LaneOk, Bind, OwedAtBind;
    if Binds(e, k) {
      BindStartsLane(env, cfg, s, k, e.now);
    } else {
      StepKeepsTrack(env, cfg, s, e, k, owed, true);
    }
  }

  lemma {:induction false} RunKeepsLane(env: Env, cfg: Config, s: State, events: seq<Event>, k: Key, owed: seq<Datum>)
    requires LaneOk(s, k, owed) && KeepsAll(env, cfg, s, events, k)
    ensures LaneOk(Run(env, cfg, s, events), k, Owed(env, cfg, s, events, k, owed))
    decreases |events|
  {
    hide Step, Keeps, LaneOk, OwedAfter;
    if events != [] {
      var e := events[0];
      if Enabled(s, e) {
        StepKeepsLane(env, cfg, s, e, k, owed);
        RunKeepsLane(env, cfg, Step(env, cfg, s, e), events[1..], k, OwedAfter(cfg, s, e, k, owed));
      } else {
        RunKeepsLane(env, cfg, s, events[1..], k, owed);
      }
    }
  }

  /** Without another bind by the client, what it is owed only grows by what is sent. */
  lemma {:induction false} OwedGrows(env: Env, cfg: Config, s: State, events: seq<Event>, k: Key, owed: seq<Datum>)
    requires forall e :: e in events ==> !Binds(e, k)
    ensures Owed(env, cfg, s, events, k, owed) == owed + StreamOf(events, k.channel)
    decreases |events|
  {
    hide Step, OwedAtBind;
    if events == [] {
      assert owed + [] == owed;
    } else {
      var e := events[0];
      assert e in events && forall f :: f in events[1..] ==> f in events;
      StreamOfFirst(events, k.channel);
      var rest := StreamOf(events[1..], k.channel);
      if Enabled(s, e) {
        OwedGrows(env, cfg, Step(env, cfg, s, e), events[1..], k, owed + StreamOf([e], k.channel));
        assert owed + StreamOf([e], k.channel) + rest == owed + (StreamOf([e], k.channel) + rest);
      } else {
        OwedGrows(env, cfg, s, events[1..], k, owed);
      }
    }
  }

  /** And a bind that finds nothing waiting starts from nothing, so that the client is then owed exactly what
      is sent from there on, place after place. Otherwise what waits comes first: with a backlog that is older
      than what the channel's other subscribers got in the meantime, or a queue the client still has from
      before, the places owed need not count up, and only the order of what waited and what followed is kept. */
  lemma BindWithNothingWaiting(cfg: Config, s: State, k: Key, now: int)
    requires !HasQueued(s, k) && PendingOf(s, k.channel).messages == []
    ensures OwedAtBind(cfg, s, k, now) == []
  {
    NoTokens();
  }

  /** Marked gaps only: over every run and every behaviour of the transport, what any client has received
      on a channel since it last bound it is what waited for it at that bind followed by everything sent
      since, with gaps only where a recovery marker stands. */
  lemma MarkedGapsOnly(env: Env, cfg: Config, events: seq<Event>, k: Key)
    requires KeepsAll(env, cfg, INIT, events, k)
    ensures var s, owed := Run(env, cfg, INIT, events), Owed(env, cfg, INIT, events, k, []);
            MarkedGaps(Wire(s, k), owed) && forall base :: Numbered(owed, base) ==> InOrderOnce(Wire(s, k), base)
  {
    hide Run, Owed, KeepsAll, Numbered, InOrderOnce;
    NothingSeen([]);
    RunKeepsLane(env, cfg, INIT, events, k, []);
    var s, owed := Run(env, cfg, INIT, events), Owed(env, cfg, INIT, events, k, []);
    LaneHasMarkedGaps(s, k, owed);
    forall base | Numbered(owed, base)
      ensures InOrderOnce(Wire(s, k), base)
    {
      MarkedGapsAreLiteral(Wire(s, k), owed, base);
    }
  }
}
