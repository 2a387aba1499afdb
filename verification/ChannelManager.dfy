/** The channel manager itself: mutable maps and sets changed step by step, proved against the state
    machine of `ChannelPlane`. */
module ChannelManager {
  import opened Common
  import opened ChannelQueues
  import opened ChannelPlane
  import opened ChannelScheduling

  class BrowserChannelManager {
    const env: Env
    const cfg: Config
    var clientQueues: map<Key, Queue>
    var clientRecovery: set<Key>
    var channelSubscribers: map<Channel, OrderedSet<Client>>
    var pendingMessages: map<Channel, Queue>
    var pendingRecovery: set<Channel>
    var pendingCleanupTimers: set<Channel>
    var backlogCleanupTimers: set<Channel>
    var backpressuredChannels: OrderedSet<Channel>
    var drainTimer: bool
    var focusedChannels: set<Channel>
    var backgroundRotation: nat
    var tick: nat
    ghost var received: map<Key, seq<Token>>

    ghost function State(): State
      reads this
    {
      ChannelPlane.State(clientQueues, clientRecovery, channelSubscribers, pendingMessages, pendingRecovery,
                         pendingCleanupTimers, backlogCleanupTimers, backpressuredChannels, drainTimer,
                         focusedChannels, backgroundRotation, tick, received)
    }

    /** Whatever is queued for a subscriber is on its way to it: see `AllTended`. */
    ghost predicate Valid()
      reads this
    {
      AllTended(State())
    }

    constructor (env: Env, cfg: Config)
      ensures State() == INIT && this.env == env && this.cfg == cfg && Valid()
    {
      this.env, this.cfg := env, cfg;
      clientQueues, clientRecovery, channelSubscribers := map[], {}, map[];
      pendingMessages, pendingRecovery, pendingCleanupTimers, backlogCleanupTimers := map[], {}, {}, {};
      backpressuredChannels, drainTimer, focusedChannels := [], false, {};
      backgroundRotation, tick, received := 0, 0, map[];
      new;
      NothingWaits();
    }

    function ClientQueue(k: Key): Queue
      reads this
    {
      if k in clientQueues then clientQueues[k] else EMPTY_QUEUE
    }

    function PendingQueue(ch: Channel): Queue
      reads this
    {
      if ch in pendingMessages then pendingMessages[ch] else EMPTY_QUEUE
    }

    // ---- recovery ---------------------------------------------------------

    method MarkClientChannelRecoveryRequired(k: Key, now: int)
      modifies this
      ensures State() == MarkClient(old(State()), k, now)
    {
      if k in clientRecovery {
        return;
      }
      clientRecovery := clientRecovery + {k};
      clientQueues := clientQueues[k := RecoveryQueue(k.channel, now)];
    }

    method MarkPendingChannelRecoveryRequired(ch: Channel, now: int)
      modifies this
      ensures State() == MarkPending(old(State()), ch, now)
    {
      if ch in pendingRecovery {
        return;
      }
      pendingRecovery := pendingRecovery + {ch};
      pendingMessages := pendingMessages[ch := RecoveryQueue(ch, now)];
    }

    method MaybeDegradeClientQueue(k: Key, now: int)
      modifies this
      ensures State() == MaybeDegrade(cfg, old(State()), k, now)
    {
      if k in clientRecovery {
        return;
      }
      var queue := ClientQueue(k);
      var age := QueueAge(queue, now);
      if queue.totalBytes > cfg.degradeQueuedBytes {
        MarkClientChannelRecoveryRequired(k, now);
      } else if age > cfg.degradeQueueAgeMs {
        MarkClientChannelRecoveryRequired(k, now);
      } else if queue.drainPasses >= cfg.degradeDrainPasses {
        MarkClientChannelRecoveryRequired(k, now);
      }
    }

    // ---- queueing ---------------------------------------------------------

    method AppendPendingMessage(ch: Channel, queue: Queue, message: Message) returns (grown: Queue)
      ensures grown == Append(ch, queue, message, cfg.coalesceMaxBytes)
    {
      var n := |queue.messages|;
      if n > 0 {
        var last := queue.messages[n - 1];
        var merged := TryCoalesce(ch, Some(last), message, cfg.coalesceMaxBytes);
        if merged.Some? {
          return Queue(queue.drainPasses, queue.messages[n - 1 := merged.value],
                       queue.totalBytes + (merged.value.sizeBytes - last.sizeBytes));
        }
      }
      return Queue(queue.drainPasses, queue.messages + [message], queue.totalBytes + message.sizeBytes);
    }

    method QueueChannelMessagePerChannel(ch: Channel, p: Payload, now: int)
      modifies this
      ensures State() == EnqueuePending(cfg, old(State()), ch, p, now)
    {
      if ch in pendingRecovery && IsChannelData(p) {
        return;
      }
      var queue := AppendPendingMessage(ch, PendingQueue(ch), CreateMessage(ch, p, now));
      var trimmed, overflowed := TrimPendingQueueToMaxBytes(queue, cfg.pendingMaxBytes);
      pendingMessages := pendingMessages[ch := trimmed];
      if overflowed {
        MarkPendingChannelRecoveryRequired(ch, now);
      }
    }

    method QueueChannelMessagePerClient(k: Key, p: Payload, now: int)
      modifies this
      ensures State() == EnqueueClient(cfg, old(State()), k, p, now)
    {
      if k in clientRecovery && IsChannelData(p) {
        return;
      }
      var queue := AppendPendingMessage(k.channel, ClientQueue(k), CreateMessage(k.channel, p, now));
      var trimmed, overflowed := TrimPendingQueueToMaxBytes(queue, cfg.pendingMaxBytes);
      clientQueues := clientQueues[k := trimmed];
      if overflowed {
        MarkClientChannelRecoveryRequired(k, now);
        return;
      }
      MaybeDegradeClientQueue(k, now);
    }

    // ---- flushing ---------------------------------------------------------

    /** The send loop of a flush: at most `maxMessages`, stopping at the byte budget or a failed send. */
    method SendQueued(messages: seq<Message>, maxMessages: nat, byteBudget: Option<nat>)
      returns (sent: nat, sentBytes: int, closed: bool)
      requires 0 < maxMessages <= |messages|
      modifies this`tick
      ensures Pumped(sent, sentBytes, tick, closed) == Pump(env, old(tick), messages, maxMessages, byteBudget, 0)
    {
      hide Pump;
      ghost var goal := Pump(env, tick, messages, maxMessages, byteBudget, 0);
      sent, sentBytes, closed := 0, 0, false;
      assert messages[0..] == messages;
      while sent < |messages|
        invariant sent < maxMessages && !closed
        invariant var rest := Pump(env, tick, messages[sent..], maxMessages - sent, byteBudget, sentBytes);
                  goal == Pumped(sent + rest.sent, sentBytes + rest.bytes, rest.tick, rest.closed)
        decreases |messages| - sent
      {
        PumpOne(env, tick, messages, sent, maxMessages - sent, byteBudget, sentBytes);
        var outcome := env.send(tick);
        tick := tick + 1;
        if outcome != Accepted {
          closed := outcome == Closed;
          break;
        }
        sent := sent + 1;
        sentBytes := sentBytes + messages[sent - 1].sizeBytes;
        if sent >= maxMessages || (byteBudget.Some? && sentBytes >= byteBudget.value) {
          break;
        }
      }
    }

    /** Takes the sent head off the queue; an emptied queue goes away together with its flag. */
    method DropSent(k: Key, sent: nat, sentBytes: int, closed: bool)
      requires sent <= |ClientQueue(k).messages|
      modifies this
      ensures State() == Flushed(old(State()), k, Pumped(sent, sentBytes, old(tick), closed))
    {
      hide Tokens, CleanupClient, Wire;
      var queue := ClientQueue(k);
      received := received[k := Wire(State(), k) + Tokens(queue.messages[..sent])];
      if closed {
        CleanupSubscriber(k.client);
      } else if sent > 0 {
        if sent < |queue.messages| {
          clientQueues := clientQueues[k := Queue(0, queue.messages[sent..], queue.totalBytes - sentBytes)];
        } else {
          clientQueues := clientQueues - {k};
          clientRecovery := clientRecovery - {k};
        }
      }
    }

    method FlushPendingChannelMessages(k: Key, byteBudget: Option<nat>) returns (madeProgress: bool)
      modifies this
      ensures (State(), madeProgress) == Flush(env, old(State()), k, byteBudget)
    {
      hide Pump, Flushed;
      var queue := ClientQueue(k);
      if queue.messages == [] {
        return false;
      }
      var maxMessages := if env.busy(tick) then 1 else |queue.messages|;
      tick := tick + 1;
      var sent, sentBytes, closed := SendQueued(queue.messages, maxMessages, byteBudget);
      FlushedTickless(old(State()), k, Pumped(sent, sentBytes, tick, closed));
      DropSent(k, sent, sentBytes, closed);
      return sent > 0;
    }

    // ---- sending ----------------------------------------------------------

    /** Nothing is queued in front of the message. */
    method SendLive(k: Key, p: Payload, now: int) returns (leftQueued: bool)
      modifies this
      ensures (State(), leftQueued) == SendDirect(env, cfg, old(State()), k, p, now)
    {
      hide EnqueueClient, CleanupClient, PayloadTokens;
      var outcome := env.send(tick);
      tick := tick + 1;
      if outcome == Accepted {
        received := received[k := Wire(State(), k) + PayloadTokens(p)];
        return false;
      }
      if outcome == Closed {
        CleanupSubscriber(k.client);
      }
      QueueChannelMessagePerClient(k, p, now);
      return true;
    }

    method SendToSubscriber(k: Key, p: Payload, now: int) returns (leftQueued: bool)
      modifies this
      ensures (State(), leftQueued) == SendTo(env, cfg, old(State()), k, p, now)
    {
      hide EnqueueClient, SendDirect;
      if k in clientRecovery && IsChannelData(p) {
        return false;
      }
      if ClientQueue(k).messages != [] {
        QueueChannelMessagePerClient(k, p, now);
        return true;
      }
      if IsChannelData(p) {
        var buffered := env.buffered(tick);
        tick := tick + 1;
        if k.channel !in focusedChannels && buffered > cfg.bulkSoftCapBytes {
          QueueChannelMessagePerClient(k, p, now);
          return true;
        }
      }
      leftQueued := SendLive(k, p, now);
    }

    method SendChannelMessage(ch: Channel, p: Payload, now: int)
      modifies this
      ensures State() == Send(env, cfg, old(State()), ch, p, now)
      ensures old(Valid()) ==> Valid()
    {
      hide AllTended;
      TurnTends(env, cfg, State(), SendMessage(ch, p, now));
      if ch !in channelSubscribers || channelSubscribers[ch] == [] {
        QueueChannelMessagePerChannel(ch, p, now);
        return;
      }
      var clients := channelSubscribers[ch];
      ghost var goal := SendAll(env, cfg, State(), ch, p, clients, now);
      var anyBackpressured := false;
      var i := 0;
      while i < |clients|
        invariant 0 <= i <= |clients|
        invariant var (s, left) := SendAll(env, cfg, State(), ch, p, clients[i..], now);
                  goal == (s, anyBackpressured || left)
      {
        assert clients[i..][1..] == clients[i + 1..];
        var leftQueued := SendToSubscriber(Key(clients[i], ch), p, now);
        anyBackpressured := anyBackpressured || leftQueued;
        i := i + 1;
      }
      if anyBackpressured {
        backpressuredChannels := AddTo(backpressuredChannels, ch);
        drainTimer := true;
      }
    }

    // ---- the drain --------------------------------------------------------

    method SplitByFocus() returns (focused: seq<Channel>, background: seq<Channel>)
      ensures focused == Only(backpressuredChannels, focusedChannels)
      ensures background == Except(backpressuredChannels, focusedChannels)
    {
      focused, background := [], [];
      var chs: seq<Channel> := backpressuredChannels;
      var i := 0;
      assert chs[0..] == chs;
      while i < |chs|
        invariant 0 <= i <= |chs|
        invariant focused + Only(chs[i..], focusedChannels) == Only(chs, focusedChannels)
        invariant background + Except(chs[i..], focusedChannels) == Except(chs, focusedChannels)
      {
        SplitHead(chs[i..], focusedChannels);
        assert chs[i..][1..] == chs[i + 1..];
        if chs[i] in focusedChannels {
          focused := focused + [chs[i]];
        } else {
          background := background + [chs[i]];
        }
        i := i + 1;
      }
    }

    method OrderChannelsForDrain() returns (order: seq<Channel>)
      modifies this`backgroundRotation
      ensures order == OrderForDrain(backpressuredChannels, focusedChannels, old(backgroundRotation))
      ensures backgroundRotation == NextRotation(backpressuredChannels, focusedChannels, old(backgroundRotation))
    {
      hide Only, Except;
      var focused, background := SplitByFocus();
      if |background| > 1 {
        var start := backgroundRotation % |background|;
        backgroundRotation := backgroundRotation + 1;
        return focused + (background[start..] + background[..start]);
      }
      RotateShort(background, backgroundRotation);
      return focused + background;
    }

    method DrainSubscriber(k: Key, byteBudget: Option<nat>, now: int)
      modifies this
      ensures State() == DrainClient(env, cfg, old(State()), k, byteBudget, now)
    {
      hide Flush, MaybeDegrade;
      var madeProgress := FlushPendingChannelMessages(k, byteBudget);
      if ClientQueue(k).messages != [] {
        if !madeProgress {
          var busy := env.busy(tick);
          tick := tick + 1;
          if !busy {
            var queue := ClientQueue(k);
            clientQueues := clientQueues[k := queue.(drainPasses := queue.drainPasses + 1)];
          }
        }
        MaybeDegradeClientQueue(k, now);
      }
    }

    method DrainOneChannel(ch: Channel, now: int)
      modifies this
      ensures State() == DrainChannel(env, cfg, old(State()), ch, now)
    {
      if ch !in channelSubscribers || channelSubscribers[ch] == [] {
        backpressuredChannels := RemoveFrom(backpressuredChannels, ch);
        return;
      }
      var byteBudget := if ch in focusedChannels then None else Some(cfg.backgroundBudgetBytes);
      var clients := channelSubscribers[ch];
      ghost var goal := DrainClients(env, cfg, State(), ch, clients, byteBudget, now);
      var anyQueued := false;
      var i := 0;
      while i < |clients|
        invariant 0 <= i <= |clients|
        invariant var (s, more) := DrainClients(env, cfg, State(), ch, clients[i..], byteBudget, now);
                  goal == (s, anyQueued || more)
      {
        assert clients[i..][1..] == clients[i + 1..];
        DrainSubscriber(Key(clients[i], ch), byteBudget, now);
        if ClientQueue(Key(clients[i], ch)).messages != [] {
          anyQueued := true;
        }
        i := i + 1;
      }
      if !anyQueued {
        backpressuredChannels := RemoveFrom(backpressuredChannels, ch);
      }
    }

    method DrainEach(order: seq<Channel>, now: int)
      modifies this
      ensures State() == DrainChannels(env, cfg, old(State()), order, now)
    {
      hide DrainChannels, DrainChannel;
      ghost var goal := DrainChannels(env, cfg, State(), order, now);
      assert order[0..] == order;
      var i := 0;
      while i < |order|
        invariant 0 <= i <= |order|
        invariant DrainChannels(env, cfg, State(), order[i..], now) == goal
      {
        DrainNext(env, cfg, State(), order, i, now);
        DrainOneChannel(order[i], now);
        i := i + 1;
      }
      DrainNext(env, cfg, State(), order, i, now);
    }

    method BackpressureDrainTimerFires(now: int)
      modifies this
      ensures State() == DrainPass(env, cfg, old(State()), now)
      ensures old(Valid() && drainTimer) ==> Valid()
    {
      hide DrainChannels, OrderForDrain, NextRotation, AllTended;
      if drainTimer {
        TurnTends(env, cfg, State(), DrainTimerFires(now));
      }
      drainTimer := false;
      var order := OrderChannelsForDrain();
      DrainEach(order, now);
      if backpressuredChannels != [] {
        drainTimer := true;
      }
    }

    // ---- binding ----------------------------------------------------------

    method CopyPendingChannelBacklogToClient(k: Key, now: int)
      modifies this
      ensures State() == CopyBacklog(cfg, old(State()), k, now)
    {
      var backlog := PendingQueue(k.channel);
      if backlog.messages == [] {
        return;
      }
      backlogCleanupTimers := backlogCleanupTimers + {k.channel};
      if || k.channel in pendingRecovery
         || backlog.totalBytes > cfg.degradeQueuedBytes
         || QueueAge(backlog, now) > cfg.degradeQueueAgeMs
      {
        MarkClientChannelRecoveryRequired(k, now);
        return;
      }
      var queue := ClientQueue(k);
      ghost var goal := CopyAll(cfg, k.channel, queue, backlog.messages);
      var i := 0;
      assert backlog.messages[0..] == backlog.messages;
      while i < |backlog.messages|
        invariant 0 <= i <= |backlog.messages|
        invariant CopyAll(cfg, k.channel, queue, backlog.messages[i..]) == goal
        invariant State() == old(State()).(backlogTimers := old(backlogCleanupTimers) + {k.channel})
      {
        assert backlog.messages[i..][1..] == backlog.messages[i + 1..];
        queue := AppendPendingMessage(k.channel, queue, backlog.messages[i]);
        i := i + 1;
      }
      assert backlog.messages[i..] == [];
      clientQueues := clientQueues[k := queue];
    }

    method SubscribeClient(k: Key)
      modifies this
      ensures State() == Subscribe(old(State()), k)
    {
      pendingCleanupTimers := pendingCleanupTimers - {k.channel};
      var subscribers: OrderedSet<Client> :=
        if k.channel in channelSubscribers then channelSubscribers[k.channel] else [];
      channelSubscribers := channelSubscribers[k.channel := AddTo(subscribers, k.client)];
      received := received[k := []];
    }

    method BindChannel(k: Key, now: int)
      modifies this
      ensures State() == Bind(env, cfg, old(State()), k, now)
      ensures old(Valid()) ==> Valid()
    {
      hide Flush, CopyBacklog, Subscribe, AllTended;
      TurnTends(env, cfg, State(), Event.BindChannel(k, now));
      SubscribeClient(k);
      CopyPendingChannelBacklogToClient(k, now);
      var progress := FlushPendingChannelMessages(k, None);
      if ClientQueue(k).messages != [] {
        backpressuredChannels := AddTo(backpressuredChannels, k.channel);
        drainTimer := true;
      }
    }

    method RemoveChannelSubscriber(ch: Channel, c: Client)
      modifies this
      ensures State() == RemoveSubscriber(old(State()), ch, c)
    {
      if ch !in channelSubscribers {
        return;
      }
      var rest := RemoveFrom(channelSubscribers[ch], c);
      if rest != [] {
        channelSubscribers := channelSubscribers[ch := rest];
        return;
      }
      channelSubscribers := channelSubscribers - {ch};
      pendingCleanupTimers := pendingCleanupTimers + {ch};
    }

    method UnbindChannel(k: Key)
      modifies this
      ensures State() == Unbind(old(State()), k)
      ensures old(Valid()) ==> Valid()
    {
      hide AllTended;
      TurnTends(env, cfg, State(), Event.UnbindChannel(k));
      RemoveChannelSubscriber(k.channel, k.client);
      pendingCleanupTimers := pendingCleanupTimers - {k.channel};
      clientQueues := clientQueues - {k};
      clientRecovery := clientRecovery - {k};
    }

    /** Leaves every channel the client is bound to, one at a time. */
    method CleanupSubscriber(c: Client)
      modifies this
      ensures State() == CleanupClient(old(State()), c)
      ensures old(Valid()) ==> Valid()
    {
      hide LeftSome, RemoveSubscriber, CleanupClient, AllTended;
      TurnTends(env, cfg, State(), ClientGone(c));
      var todo := channelSubscribers.Keys;
      LeaveNone(State(), c);
      assert old(channelSubscribers.Keys) - todo == {};
      while todo != {}
        invariant todo <= old(channelSubscribers.Keys)
        invariant State() == LeftSome(old(State()), old(channelSubscribers.Keys) - todo, c)
        decreases todo
      {
        var ch :| ch in todo;
        ghost var left := old(channelSubscribers.Keys) - todo;
        LeaveOneMore(old(State()), left, ch, c);
        RemoveChannelSubscriber(ch, c);
        todo := todo - {ch};
        assert old(channelSubscribers.Keys) - todo == left + {ch};
      }
      assert old(channelSubscribers.Keys) - todo == old(channelSubscribers.Keys);
      LeaveAll(old(State()), c);
      clientQueues := map k | k in clientQueues && k.client != c :: clientQueues[k];
      clientRecovery := set k | k in clientRecovery && k.client != c;
    }

    method SetFocusedChannelIds(channels: set<Channel>)
      modifies this
      ensures State() == old(State()).(focused := channels)
      ensures old(Valid()) ==> Valid()
    {
      hide AllTended;
      TurnTends(env, cfg, State(), Focus(channels));
      focusedChannels := channels;
    }

    method PendingCleanupTimerFires(ch: Channel)
      requires ch in pendingCleanupTimers
      modifies this
      ensures State() == Step(env, cfg, old(State()), CleanupTimerFires(ch))
      ensures old(Valid()) ==> Valid()
    {
      hide AllTended;
      TurnTends(env, cfg, State(), CleanupTimerFires(ch));
      pendingCleanupTimers := pendingCleanupTimers - {ch};
      if ch in channelSubscribers && channelSubscribers[ch] != [] {
        return;
      }
      pendingMessages := pendingMessages - {ch};
      pendingRecovery := pendingRecovery - {ch};
    }

    method BacklogCleanupTimerFires(ch: Channel)
      requires ch in backlogCleanupTimers
      modifies this
      ensures State() == Step(env, cfg, old(State()), BacklogTimerFires(ch))
      ensures old(Valid()) ==> Valid()
    {
      hide AllTended;
      TurnTends(env, cfg, State(), BacklogTimerFires(ch));
      backlogCleanupTimers := backlogCleanupTimers - {ch};
      pendingMessages := pendingMessages - {ch};
      pendingRecovery := pendingRecovery - {ch};
    }

    method StopDraining()
      modifies this`drainTimer, this`backpressuredChannels
      ensures !drainTimer && backpressuredChannels == []
    {
      drainTimer := false;
      backpressuredChannels := [];
    }

    method DropBacklogs()
      modifies this`pendingMessages, this`pendingRecovery, this`backlogCleanupTimers
      ensures pendingMessages == map[] && pendingRecovery == {} && backlogCleanupTimers == {}
    {
      pendingMessages, pendingRecovery, backlogCleanupTimers := map[], {}, {};
    }

    method Cleanup()
      modifies this`drainTimer, this`backpressuredChannels, this`pendingMessages, this`pendingRecovery
      modifies this`channelSubscribers, this`pendingCleanupTimers, this`backlogCleanupTimers
      ensures State() == CleanupAll(old(State()))
      ensures old(Valid()) ==> Valid()
    {
      hide AllTended;
      TurnTends(env, cfg, State(), Shutdown);
      StopDraining();
      DropBacklogs();
      channelSubscribers, pendingCleanupTimers := map[], {};
    }
  }

  /** A flagged channel has something queued, a subscriber with something queued is on the drain list, a
      non-empty drain list has its timer armed, and byte counts are exact. */
  ghost predicate AllTended(s: State) {
    Armed(s) && forall k :: Tended(s, k)
  }

  lemma NothingWaits()
    ensures AllTended(INIT)
  {
    NoBytes();
  }

  lemma TurnTends(env: Env, cfg: Config, s: State, e: Event)
    requires Enabled(s, e)
    ensures AllTended(s) ==> AllTended(Step(env, cfg, s, e))
  {
    hide Step, Tended, Armed;
    if AllTended(s) {
      forall k
        ensures Tended(Step(env, cfg, s, e), k)
      {
        StepTends(env, cfg, s, e, k);
      }
      StepTends(env, cfg, s, e, Key(0, Channel("", 0)));
    }
  }

  lemma FlushedTickless(s: State, k: Key, p: Pumped)
    requires p.sent <= |QueueOf(s, k).messages|
    ensures Flushed(s.(tick := p.tick), k, p) == Flushed(s, k, p)
  {
  }

  lemma SplitHead(chs: seq<Channel>, focused: set<Channel>)
    requires chs != []
    ensures Only(chs, focused) == (if chs[0] in focused then [chs[0]] else []) + Only(chs[1..], focused)
    ensures Except(chs, focused) == (if chs[0] in focused then [] else [chs[0]]) + Except(chs[1..], focused)
  {
  }

  /** The drain order is the drain list, focused channels first, nothing lost or repeated. */
  lemma {:induction false} OrderIsPermutation(chs: seq<Channel>, focused: set<Channel>, rotation: nat)
    ensures var order := OrderForDrain(chs, focused, rotation);
            && multiset(order) == multiset(chs)
            && (forall i, j :: 0 <= i < j < |order| && order[j] in focused ==> order[i] in focused)
  {
    var a, b := Only(chs, focused), Except(chs, focused);
    SplitIsPartition(chs, focused);
    if b != [] {
      var n := rotation % |b|;
      assert b == b[..n] + b[n..];
      assert forall x :: x in Rotate(b, rotation) ==> x in b;
    }
    assert multiset(Rotate(b, rotation)) == multiset(b);
    assert |Rotate(b, rotation)| == |b|;
  }

  lemma {:induction false} SplitIsPartition(chs: seq<Channel>, focused: set<Channel>)
    ensures multiset(Only(chs, focused)) + multiset(Except(chs, focused)) == multiset(chs)
    ensures |Only(chs, focused)| + |Except(chs, focused)| == |chs|
    ensures forall x :: x in Only(chs, focused) ==> x in focused
    ensures forall x :: x in Except(chs, focused) ==> x !in focused
  {
    if chs != [] {
      SplitIsPartition(chs[1..], focused);
      assert chs == [chs[0]] + chs[1..];
    }
  }

  lemma RotateShort(xs: seq<Channel>, n: nat)
    requires |xs| <= 1
    ensures Rotate(xs, n) == xs
  {
    if |xs| == 1 {
      assert n % 1 == 0;
    }
  }

  /** The state after the client has left the given channels. */
  ghost function LeftSome(s: State, left: set<Channel>, c: Client): State {
    s.(subscribers := (map ch | ch in s.subscribers && (ch in left ==> RemoveFrom(s.subscribers[ch], c) != []) ::
                         if ch in left then RemoveFrom(s.subscribers[ch], c) else s.subscribers[ch]),
       cleanupTimers := s.cleanupTimers
                        + (set ch | ch in s.subscribers && ch in left && RemoveFrom(s.subscribers[ch], c) == []))
  }

  lemma LeaveNone(s: State, c: Client)
    ensures LeftSome(s, {}, c) == s
  {
  }

  lemma LeaveAll(s: State, c: Client)
    ensures var s1 := LeftSome(s, s.subscribers.Keys, c);
            CleanupClient(s, c) == s1.(queues := (map k | k in s1.queues && k.client != c :: s1.queues[k]),
                                       flagged := (set k | k in s1.flagged && k.client != c))
  {
  }

  lemma LeaveOneMore(s: State, left: set<Channel>, ch: Channel, c: Client)
    requires ch in s.subscribers && ch !in left
    ensures RemoveSubscriber(LeftSome(s, left, c), ch, c) == LeftSome(s, left + {ch}, c)
  {
    var a, b := LeftSome(s, left, c), LeftSome(s, left + {ch}, c);
    var rest := RemoveFrom(s.subscribers[ch], c);
    assert a.subscribers[ch] == s.subscribers[ch];
    if rest != [] {
      assert a.subscribers[ch := rest] == b.subscribers;
      assert a.cleanupTimers == b.cleanupTimers;
    } else {
      assert a.subscribers - {ch} == b.subscribers;
      assert a.cleanupTimers + {ch} == b.cleanupTimers;
    }
  }

  /** One turn of the send loop. */
  lemma PumpOne(env: Env, tick: nat, messages: seq<Message>, n: nat, limit: nat, budget: Option<nat>, sentBytes: int)
    requires n < |messages|
    ensures var size := messages[n].sizeBytes;
            Pump(env, tick, messages[n..], limit, budget, sentBytes) ==
              if env.send(tick) != Accepted then Pumped(0, 0, tick + 1, env.send(tick) == Closed)
              else if limit <= 1 || (budget.Some? && sentBytes + size >= budget.value)
                then Pumped(1, size, tick + 1, false)
              else
                var rest := Pump(env, tick + 1, messages[n + 1..], limit - 1, budget, sentBytes + size);
                Pumped(rest.sent + 1, rest.bytes + size, rest.tick, rest.closed)
  {
    assert messages[n..][1..] == messages[n + 1..];
  }

  lemma DrainNext(env: Env, cfg: Config, s: State, order: seq<Channel>, i: nat, now: int)
    requires i <= |order|
    ensures DrainChannels(env, cfg, s, order[i..], now) ==
            if i == |order| then s
            else DrainChannels(env, cfg, DrainChannel(env, cfg, s, order[i], now), order[i + 1..], now)
  {
    hide DrainChannel;
    if i < |order| {
      assert order[i..][1..] == order[i + 1..];
    }
  }
}
