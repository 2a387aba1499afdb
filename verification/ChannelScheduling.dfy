/** No stranded queue and exact byte accounting, in every reachable state of the channel plane. */
module ChannelScheduling {
  import opened Common
  import opened ChannelQueues
  import opened ChannelPlane
  import opened ChannelGaps
  import opened ChannelGapRuns

  /** A flagged channel has something queued; a subscriber with something queued is on the drain list;
      byte counts are exact. */
  predicate Tended(s: State, k: Key) {
    && (k in s.flagged ==> HasQueued(s, k))
    && (k.client in Subscribers(s, k.channel) && HasQueued(s, k) ==> k.channel in s.backpressured)
    && Accounted(QueueOf(s, k)) && Accounted(PendingOf(s, k.channel))
  }

  /** As `Tended`, while the channel itself is being worked on. */
  predicate Kept(s: State, k: Key) {
    && (k in s.flagged ==> HasQueued(s, k))
    && Accounted(QueueOf(s, k)) && Accounted(PendingOf(s, k.channel))
  }

  predicate Armed(s: State) {
    s.backpressured != [] ==> s.drainTimer
  }

  lemma NoBytes()
    ensures Accounted(EMPTY_QUEUE)
  {
  }

  lemma ApartKeepsKept(s: State, s': State, k: Key)
    requires Apart(s, s', k) && Kept(s, k)
    ensures Kept(s', k)
  {
    NoBytes();
  }

  lemma ApartKeepsTended(s: State, s': State, k: Key)
    requires Apart(s, s', k) && Tended(s, k)
    requires k.channel in s.backpressured ==> k.channel in s'.backpressured
    ensures Tended(s', k)
  {
    ApartKeepsKept(s, s', k);
  }

  lemma RecoveryAccounted(ch: Channel, now: int)
    ensures Accounted(RecoveryQueue(ch, now)) && RecoveryQueue(ch, now).messages != []
  {
    var ms := RecoveryQueue(ch, now).messages;
    assert ms[..0] == [];
    assert SumBytes(ms) == SumBytes(ms[..0]) + ms[0].sizeBytes;
  }

  lemma GrownAccounted(cfg: Config, ch: Channel, q: Queue, p: Payload, now: int)
    requires Accounted(q)
    ensures Accounted(Grown(cfg, ch, q, p, now)) && Grown(cfg, ch, q, p, now).messages != []
  {
    var q1 := Appended(cfg, ch, q, p, now);
    AppendKeepsStream(ch, q, CreateMessage(ch, p, now), cfg.coalesceMaxBytes);
    TrimShape(q1, cfg.pendingMaxBytes);
    TrimDropsShortestPrefix(q1, cfg.pendingMaxBytes, 0);
  }

  lemma MarkKept(s: State, k: Key, now: int)
    requires Kept(s, k)
    ensures Kept(MarkClient(s, k, now), k) && (HasQueued(s, k) ==> HasQueued(MarkClient(s, k, now), k))
  {
    hide RecoveryQueue, SumBytes;
    RecoveryAccounted(k.channel, now);
  }

  lemma EnqueueKept(cfg: Config, s: State, k: Key, p: Payload, now: int)
    requires Kept(s, k)
    ensures Kept(EnqueueClient(cfg, s, k, p, now), k)
  {
    hide Grown, Overflows, SumBytes, MarkClient, OverThreshold;
    var q := QueueOf(s, k);
    GrownAccounted(cfg, k.channel, q, p, now);
    MarkKept(s.(queues := s.queues[k := Grown(cfg, k.channel, q, p, now)]), k, now);
  }

  /** After a live enqueue an unflagged queue is within every degradation limit. */
  lemma EnqueueWithinLimits(cfg: Config, s: State, k: Key, p: Payload, now: int)
    ensures var s' := EnqueueClient(cfg, s, k, p, now);
            k !in s'.flagged ==> !OverThreshold(cfg, QueueOf(s', k), now)
  {
    hide Grown, Overflows, RecoveryQueue;
  }

  /** So is one that a drain pass leaves non-empty. */
  lemma DrainWithinLimits(env: Env, cfg: Config, s: State, k: Key, budget: Option<nat>, now: int)
    ensures var s' := DrainClient(env, cfg, s, k, budget, now);
            HasQueued(s', k) && k !in s'.flagged ==> !OverThreshold(cfg, QueueOf(s', k), now)
  {
    hide Flush, RecoveryQueue, CountPass;
  }

  // ---- sends -----------------------------------------------------------------

  lemma CleanupKept(s: State, k: Key)
    requires Kept(s, k)
    ensures Kept(CleanupClient(s, k.client), k)
  {
    CleanupApart(s, k.client, k);
    ApartKeepsKept(s, CleanupClient(s, k.client), k);
  }

  lemma TickAndDeliverKept(s: State, k: Key, tick: nat, ts: seq<Token>)
    requires Kept(s, k)
    ensures Kept(s.(tick := tick), k) && Kept(Deliver(s.(tick := tick), k, ts), k)
  {
  }

  lemma SendDirectKept(env: Env, cfg: Config, s: State, k: Key, p: Payload, now: int)
    requires Kept(s, k)
    ensures Kept(SendDirect(env, cfg, s, k, p, now).0, k)
    ensures var (s', left) := SendDirect(env, cfg, s, k, p, now);
            HasQueued(s', k) && k.client in Subscribers(s', k.channel) ==>
              left || (HasQueued(s, k) && k.client in Subscribers(s, k.channel))
  {
    hide EnqueueClient, CleanupClient, PayloadTokens, Kept;
    TickAndDeliverKept(s, k, s.tick + 1, PayloadTokens(p));
    match env.send(s.tick) {
      case Accepted =>
      case Refused => EnqueueKept(cfg, Ticked(s), k, p, now);
      case Closed =>
        CleanupKept(Ticked(s), k);
        EnqueueKept(cfg, CleanupClient(Ticked(s), k.client), k, p, now);
    }
  }

  lemma SendToKept(env: Env, cfg: Config, s: State, k: Key, p: Payload, now: int)
    requires Kept(s, k)
    ensures Kept(SendTo(env, cfg, s, k, p, now).0, k)
    ensures var (s', left) := SendTo(env, cfg, s, k, p, now);
            HasQueued(s', k) && k.client in Subscribers(s', k.channel) ==>
              left || (HasQueued(s, k) && k.client in Subscribers(s, k.channel))
  {
    hide EnqueueClient, SendDirect, Kept, DefersBulk;
    if !(k in s.flagged && IsChannelData(p)) {
      if HasQueued(s, k) {
        EnqueueKept(cfg, s, k, p, now);
      } else {
        TickAndDeliverKept(s, k, s.tick + 1, []);
        SendDirectKept(env, cfg, s, k, p, now);
        EnqueueKept(cfg, Ticked(s), k, p, now);
        SendDirectKept(env, cfg, Ticked(s), k, p, now);
      }
    }
  }

  lemma {:induction false} SendAllKept(env: Env, cfg: Config, s: State, ch: Channel, p: Payload, clients: seq<Client>,
                                       now: int, k: Key)
    requires Kept(s, k) && k.channel == ch
    ensures Kept(SendAll(env, cfg, s, ch, p, clients, now).0, k)
    ensures var (s', left) := SendAll(env, cfg, s, ch, p, clients, now);
            HasQueued(s', k) && k.client in Subscribers(s', ch) ==>
              left || (HasQueued(s, k) && k.client in Subscribers(s, ch))
    decreases |clients|
  {
    hide SendTo, Kept;
    if clients != [] {
      var turn := Key(clients[0], ch);
      var s1 := SendTo(env, cfg, s, turn, p, now).0;
      if turn == k {
        SendToKept(env, cfg, s, k, p, now);
      } else {
        SendToApart(env, cfg, s, turn, p, now, k);
        ApartKeepsKept(s, s1, k);
      }
      SendAllKept(env, cfg, s1, ch, p, clients[1..], now, k);
    }
  }

  lemma PendingTended(cfg: Config, s: State, ch: Channel, p: Payload, now: int, k: Key)
    requires Tended(s, k)
    ensures Tended(EnqueuePending(cfg, s, ch, p, now), k)
    ensures EnqueuePending(cfg, s, ch, p, now).backpressured == s.backpressured
    ensures EnqueuePending(cfg, s, ch, p, now).drainTimer == s.drainTimer
  {
    hide Grown, Overflows, SumBytes, RecoveryQueue, SameLane;
    PendingUnseen(cfg, s, ch, p, now, k);
    PendingAccounted(cfg, s, ch, p, now, k.channel);
    assert QueueOf(EnqueuePending(cfg, s, ch, p, now), k) == QueueOf(s, k);
  }

  lemma PendingAccounted(cfg: Config, s: State, ch: Channel, p: Payload, now: int, other: Channel)
    requires Accounted(PendingOf(s, other))
    ensures Accounted(PendingOf(EnqueuePending(cfg, s, ch, p, now), other))
  {
    hide Grown, Overflows, SumBytes, RecoveryQueue;
    if ch == other {
      GrownAccounted(cfg, ch, PendingOf(s, ch), p, now);
      RecoveryAccounted(ch, now);
    }
  }

  lemma SendTends(env: Env, cfg: Config, s: State, ch: Channel, p: Payload, now: int, k: Key)
    requires Tended(s, k) && Armed(s)
    ensures Tended(Send(env, cfg, s, ch, p, now), k) && Armed(Send(env, cfg, s, ch, p, now))
  {
    hide SendAll, EnqueuePending, Apart;
    var clients := Subscribers(s, ch);
    if clients == [] {
      PendingTended(cfg, s, ch, p, now, k);
    } else {
      var (s1, left) := SendAll(env, cfg, s, ch, p, clients, now);
      if ch == k.channel {
        SendAllKept(env, cfg, s, ch, p, clients, now, k);
      } else {
        SendAllApart(env, cfg, s, ch, p, clients, now, k);
        ApartKeepsTended(s, s1, k);
      }
    }
  }

  // ---- the drain ---------------------------------------------------------------

  lemma {:induction false} PumpCountsBytes(env: Env, tick: nat, ms: seq<Message>, limit: nat, budget: Option<nat>,
                                           sentBytes: int)
    ensures var p := Pump(env, tick, ms, limit, budget, sentBytes); p.bytes == SumBytes(ms[..p.sent])
    decreases |ms|
  {
    assert ms[..0] == [];
    if ms != [] && env.send(tick).Accepted? {
      var p := Pump(env, tick, ms, limit, budget, sentBytes);
      SumBytesFirst(ms[..p.sent]);
      if p.sent > 1 || !(limit <= 1 || (budget.Some? && sentBytes + ms[0].sizeBytes >= budget.value)) {
        PumpCountsBytes(env, tick + 1, ms[1..], limit - 1, budget, sentBytes + ms[0].sizeBytes);
        assert ms[..p.sent][1..] == ms[1..][..p.sent - 1];
      } else {
        assert ms[..1][1..] == [];
      }
    }
  }

  lemma ShiftKept(s: State, k: Key, p: Pumped)
    requires Kept(s, k)
    requires p.sent <= |QueueOf(s, k).messages| && p.bytes == SumBytes(QueueOf(s, k).messages[..p.sent])
    ensures Kept(Shift(s, k, p), k)
  {
    hide SumBytes;
    NoBytes();
    TokensSplit(QueueOf(s, k).messages, p.sent);
  }

  lemma FlushKept(env: Env, s: State, k: Key, budget: Option<nat>)
    requires Kept(s, k)
    ensures Kept(Flush(env, s, k, budget).0, k)
    ensures HasQueued(Flush(env, s, k, budget).0, k) ==> HasQueued(s, k)
  {
    hide Kept, Pump, SumBytes, Tokens, Shift, CleanupClient;
    var ms := QueueOf(s, k).messages;
    if ms != [] {
      var limit := if env.busy(s.tick) then 1 else |ms|;
      var p := Pump(env, s.tick + 1, ms, limit, budget, 0);
      PumpCountsBytes(env, s.tick + 1, ms, limit, budget, 0);
      TickAndDeliverKept(s, k, p.tick, Tokens(ms[..p.sent]));
      var s1 := Deliver(s.(tick := p.tick), k, Tokens(ms[..p.sent]));
      ShiftKept(s1, k, p);
      CleanupKept(s1, k);
    }
  }

  lemma CountPassKept(env: Env, s: State, k: Key)
    requires Kept(s, k)
    ensures Kept(CountPass(env, s, k), k)
  {
  }

  lemma DrainClientKept(env: Env, cfg: Config, s: State, k: Key, budget: Option<nat>, now: int)
    requires Kept(s, k)
    ensures Kept(DrainClient(env, cfg, s, k, budget, now), k)
    ensures HasQueued(DrainClient(env, cfg, s, k, budget, now), k) ==> HasQueued(s, k)
  {
    hide Kept, Flush, CountPass, MarkClient, OverThreshold;
    var (s1, progress) := Flush(env, s, k, budget);
    FlushKept(env, s, k, budget);
    CountPassKept(env, s1, k);
    MarkKept(if progress then s1 else CountPass(env, s1, k), k, now);
  }

  /** A queue that survives the pass on its own channel was there before, and is reported. */
  lemma {:induction false} DrainClientsKept(env: Env, cfg: Config, s: State, ch: Channel, clients: seq<Client>,
                                            budget: Option<nat>, now: int, k: Key)
    requires Kept(s, k) && k.channel == ch && NoDuplicates(clients)
    ensures var (s', queued) := DrainClients(env, cfg, s, ch, clients, budget, now);
            && Kept(s', k)
            && (k.client in Subscribers(s', ch) && HasQueued(s', k) ==>
                  k.client in Subscribers(s, ch) && HasQueued(s, k) && (k.client in clients ==> queued))
    decreases |clients|
  {
    hide DrainClient, Kept;
    if clients != [] {
      var turn := Key(clients[0], ch);
      var s1 := DrainClient(env, cfg, s, turn, budget, now);
      if turn == k {
        DrainClientKept(env, cfg, s, k, budget, now);
        DrainClientSubscribers(env, cfg, s, k, budget, now, k);
      } else {
        DrainClientApart(env, cfg, s, turn, budget, now, k);
        ApartKeepsKept(s, s1, k);
      }
      DrainClientsKept(env, cfg, s1, ch, clients[1..], budget, now, k);
    }
  }

  lemma DrainClientSubscribers(env: Env, cfg: Config, s: State, k: Key, budget: Option<nat>, now: int, other: Key)
    ensures other.client in Subscribers(DrainClient(env, cfg, s, k, budget, now), other.channel)
            ==> other.client in Subscribers(s, other.channel)
  {
    hide Flush, CountPass, RecoveryQueue, OverThreshold;
    var (s1, progress) := Flush(env, s, k, budget);
    FlushSubscribers(env, s, k, budget, other);
    CountPassSubscribers(env, s1, k);
  }

  lemma CountPassSubscribers(env: Env, s: State, k: Key)
    ensures CountPass(env, s, k).subscribers == s.subscribers
  {
  }

  lemma FlushSubscribers(env: Env, s: State, k: Key, budget: Option<nat>, other: Key)
    ensures other.client in Subscribers(Flush(env, s, k, budget).0, other.channel)
            ==> other.client in Subscribers(s, other.channel)
  {
    hide Pump, Flushed;
    var ms := QueueOf(s, k).messages;
    FlushedSubscribers(s, k, Pump(env, s.tick + 1, ms, if env.busy(s.tick) then 1 else |ms|, budget, 0), other);
  }

  lemma FlushedSubscribers(s: State, k: Key, p: Pumped, other: Key)
    requires p.sent <= |QueueOf(s, k).messages|
    ensures other.client in Subscribers(Flushed(s, k, p), other.channel)
            ==> other.client in Subscribers(s, other.channel)
  {
    hide Tokens, CleanupClient, Shift;
    var s1 := Deliver(s.(tick := p.tick), k, Tokens(QueueOf(s, k).messages[..p.sent]));
    CleanupSubscribers(s1, k.client, other);
    if p.sent > 0 {
      ShiftSubscribers(s1, k, p);
    }
  }

  lemma ShiftSubscribers(s: State, k: Key, p: Pumped)
    requires p.sent <= |QueueOf(s, k).messages|
    ensures Shift(s, k, p).subscribers == s.subscribers
  {
  }

  lemma DrainChannelTends(env: Env, cfg: Config, s: State, ch: Channel, now: int, k: Key)
    requires Tended(s, k)
    ensures Tended(DrainChannel(env, cfg, s, ch, now), k)
  {
    hide DrainClients, Apart;
    var clients := Subscribers(s, ch);
    if clients != [] {
      var budget := if ch in s.focused then None else Some(cfg.backgroundBudgetBytes);
      var (s1, queued) := DrainClients(env, cfg, s, ch, clients, budget, now);
      if ch == k.channel {
        DrainClientsKept(env, cfg, s, ch, clients, budget, now, k);
      } else {
        DrainClientsApart(env, cfg, s, ch, clients, budget, now, k);
        ApartKeepsTended(s, s1, k);
      }
    }
  }

  lemma {:induction false} DrainChannelsTend(env: Env, cfg: Config, s: State, chs: seq<Channel>, now: int, k: Key)
    requires Tended(s, k)
    ensures Tended(DrainChannels(env, cfg, s, chs, now), k)
    decreases |chs|
  {
    hide DrainChannel, Tended;
    if chs != [] {
      DrainChannelTends(env, cfg, s, chs[0], now, k);
      DrainChannelsTend(env, cfg, DrainChannel(env, cfg, s, chs[0], now), chs[1..], now, k);
    }
  }

  lemma DrainPassTends(env: Env, cfg: Config, s: State, now: int, k: Key)
    requires Tended(s, k)
    ensures Tended(DrainPass(env, cfg, s, now), k) && Armed(DrainPass(env, cfg, s, now))
  {
    hide DrainChannels, OrderForDrain, NextRotation;
    var order := OrderForDrain(s.backpressured, s.focused, s.rotation);
    var s1 := s.(drainTimer := false, rotation := NextRotation(s.backpressured, s.focused, s.rotation));
    DrainChannelsTend(env, cfg, s1, order, now, k);
  }

  // ---- binding and the rest ------------------------------------------------------

  lemma {:induction false} CopyAccounted(cfg: Config, ch: Channel, q: Queue, ms: seq<Message>)
    requires Accounted(q)
    ensures Accounted(CopyAll(cfg, ch, q, ms))
    ensures q.messages != [] ==> CopyAll(cfg, ch, q, ms).messages != []
    decreases |ms|
  {
    if ms != [] {
      AppendKeepsStream(ch, q, ms[0], cfg.coalesceMaxBytes);
      CopyAccounted(cfg, ch, Append(ch, q, ms[0], cfg.coalesceMaxBytes), ms[1..]);
    }
  }

  lemma CopyKept(cfg: Config, s: State, k: Key, now: int)
    requires Kept(s, k)
    ensures Kept(CopyBacklog(cfg, s, k, now), k)
  {
    hide CopyAll, SumBytes, RecoveryQueue;
    NoBytes();
    RecoveryAccounted(k.channel, now);
    CopyAccounted(cfg, k.channel, QueueOf(s, k), PendingOf(s, k.channel).messages);
  }

  lemma SubscribeKept(s: State, b: Key, k: Key)
    requires Kept(s, k)
    ensures Kept(Subscribe(s, b), k)
  {
  }

  lemma BindTends(env: Env, cfg: Config, s: State, b: Key, now: int, k: Key)
    requires Tended(s, k) && Armed(s)
    ensures Tended(Bind(env, cfg, s, b, now), k) && Armed(Bind(env, cfg, s, b, now))
  {
    hide CopyBacklog, Flush, Subscribe, Apart, SameLane;
    var s1 := Subscribe(s, b);
    assert SameSchedule(s, s1) by { SubscribeSchedule(s, b); }
    var s2 := CopyBacklog(cfg, s1, b, now);
    var s3 := Flush(env, s2, b, None).0;
    SubscribeKept(s, b, k);
    if b == k {
      CopyKept(cfg, s1, k, now);
      FlushKept(env, s2, k, None);
    } else {
      OtherCopyTends(cfg, s, b, now, k);
      FlushApart(env, s2, b, None, k);
      ApartKeepsTended(s2, s3, k);
    }
  }

  lemma SubscribeSchedule(s: State, b: Key)
    ensures SameSchedule(s, Subscribe(s, b))
  {
  }

  lemma OtherCopyTends(cfg: Config, s: State, b: Key, now: int, k: Key)
    requires Tended(s, k) && b != k
    ensures Tended(CopyBacklog(cfg, Subscribe(s, b), b, now), k)
  {
    hide CopyBacklog, Subscribe, SumBytes;
    var s1 := Subscribe(s, b);
    SubscribeUnseen(s, b, k);
    SubscribeKept(s, b, k);
    SubscribeSchedule(s, b);
    CopyUnseen(cfg, s1, b, now, k);
    CopyPending(cfg, s1, b, now, k.channel);
  }

  lemma CopyPending(cfg: Config, s: State, b: Key, now: int, ch: Channel)
    ensures PendingOf(CopyBacklog(cfg, s, b, now), ch) == PendingOf(s, ch)
  {
    hide CopyAll, RecoveryQueue;
  }

  lemma UnbindTends(s: State, b: Key, k: Key)
    requires Tended(s, k) && Armed(s)
    ensures Tended(Unbind(s, b), k) && Armed(Unbind(s, b))
  {
    NoBytes();
    UnbindSchedule(s, b, k.channel);
    if b == k {
      UnbindGone(s, k);
    } else {
      hide Unbind, SumBytes;
      UnbindUnseen(s, b, k);
    }
  }

  lemma UnbindSchedule(s: State, b: Key, ch: Channel)
    ensures SameSchedule(s, Unbind(s, b)) && PendingOf(Unbind(s, b), ch) == PendingOf(s, ch)
  {
    hide RemoveSubscriber;
    RemovalSchedule(s, b.channel, b.client);
  }

  lemma RemovalSchedule(s: State, ch: Channel, c: Client)
    ensures SameSchedule(s, RemoveSubscriber(s, ch, c)) && RemoveSubscriber(s, ch, c).pending == s.pending
  {
    hide RemoveFrom;
  }

  lemma UnbindGone(s: State, k: Key)
    ensures k !in Unbind(s, k).flagged && k !in Unbind(s, k).queues
  {
  }

  lemma QuietEventTends(env: Env, cfg: Config, s: State, e: Event, k: Key)
    requires Enabled(s, e) && Tended(s, k) && Armed(s)
    requires e.Focus? || e.CleanupTimerFires? || e.BacklogTimerFires? || e.Shutdown?
    ensures Tended(Step(env, cfg, s, e), k) && Armed(Step(env, cfg, s, e))
  {
    hide Send, DrainPass, Bind, Unbind, CleanupClient, Tended, CleanupAll, DropPending;
    match e {
      case Focus(chs) => FieldsTend(s, s.(focused := chs), k);
      case CleanupTimerFires(ch) =>
        var s1 := s.(cleanupTimers := s.cleanupTimers - {ch});
        FieldsTend(s, s1, k);
        DropTends(s1, ch, k);
      case BacklogTimerFires(ch) =>
        var s1 := s.(backlogTimers := s.backlogTimers - {ch});
        FieldsTend(s, s1, k);
        DropTends(s1, ch, k);
      case Shutdown => CleanupTends(s, k);
    }
  }

  lemma FieldsTend(s: State, s': State, k: Key)
    requires Tended(s, k)
    requires s' == s.(focused := s'.focused, cleanupTimers := s'.cleanupTimers, backlogTimers := s'.backlogTimers)
    ensures Tended(s', k)
  {
    hide SumBytes;
  }

  lemma DropTends(s: State, ch: Channel, k: Key)
    requires Tended(s, k) && Armed(s)
    ensures Tended(DropPending(s, ch), k) && Armed(DropPending(s, ch))
  {
    hide SumBytes;
    NoBytes();
  }

  lemma CleanupTends(s: State, k: Key)
    requires Tended(s, k)
    ensures Tended(CleanupAll(s), k) && Armed(CleanupAll(s))
  {
    hide SumBytes;
    NoBytes();
  }

  lemma StepTends(env: Env, cfg: Config, s: State, e: Event, k: Key)
    requires Enabled(s, e) && Tended(s, k) && Armed(s)
    ensures Tended(Step(env, cfg, s, e), k) && Armed(Step(env, cfg, s, e))
  {
    hide Send, DrainPass, Bind, Unbind, CleanupClient, Tended, Apart;
    match e {
      case SendMessage(ch, p, now) => SendTends(env, cfg, s, ch, p, now, k);
      case DrainTimerFires(now) => DrainPassTends(env, cfg, s, now, k);
      case BindChannel(b, now) => BindTends(env, cfg, s, b, now, k);
      case UnbindChannel(b) => UnbindTends(s, b, k);
      case ClientGone(c) =>
        CleanupApart(s, c, k);
        ApartKeepsTended(s, CleanupClient(s, c), k);
      case _ => QuietEventTends(env, cfg, s, e, k);
    }
  }

  /** No stranded queue: after any run, for every client and channel, a recovery flag means something is
      queued, a subscriber's queue is on the drain list, a non-empty drain list has its timer armed, and
      byte counts are exact. No condition on the run. */
  lemma {:induction false} NoStrandedQueue(env: Env, cfg: Config, s: State, events: seq<Event>, k: Key)
    requires Tended(s, k) && Armed(s)
    ensures Tended(Run(env, cfg, s, events), k) && Armed(Run(env, cfg, s, events))
    decreases |events|
  {
    hide Step, Tended;
    if events != [] {
      if Enabled(s, events[0]) {
        StepTends(env, cfg, s, events[0], k);
        NoStrandedQueue(env, cfg, Step(env, cfg, s, events[0]), events[1..], k);
      } else {
        NoStrandedQueue(env, cfg, s, events[1..], k);
      }
    }
  }

  lemma NoStrandedQueueFromStart(env: Env, cfg: Config, events: seq<Event>, k: Key)
    ensures var s := Run(env, cfg, INIT, events);
            && (k in s.flagged ==> HasQueued(s, k))
            && (k.client in Subscribers(s, k.channel) && HasQueued(s, k)
                ==> k.channel in s.backpressured && s.drainTimer)
            && QueueOf(s, k).totalBytes == SumBytes(QueueOf(s, k).messages)
  {
    NoBytes();
    NoStrandedQueue(env, cfg, INIT, events, k);
  }
}
