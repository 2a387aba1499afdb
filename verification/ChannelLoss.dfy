/** What losing the only marker comes to: once everything goes out again, the client sees a gap that no
    marker announces. */
module ChannelLoss {
  import opened Common
  import opened ChannelQueues
  import opened ChannelPlane
  import opened ChannelGaps
  import opened ChannelGapRuns
  import opened ChannelManager
  import opened ChannelScheduling

  /** From some point on the transport takes everything. */
  const CALM := Env(t => Accepted, t => false, t => 0)

  /** The client recovers, but only control messages wait and no marker was received since the last data. */
  ghost predicate Bare(s: State, k: Key) {
    && k in s.flagged && k.client in Subscribers(s, k.channel)
    && OnlyControls(QueueOf(s, k).messages) && HasQueued(s, k)
    && !EndsMarked(Wire(s, k))
  }

  // ---- a loss leaves the client bare -----------------------------------------

  lemma SameLaneStaysBare(s: State, s': State, k: Key)
    requires SameLane(s, s', k) && Bare(s, k)
    ensures Bare(s', k)
  {
    hide EndsMarked, OnlyControls;
  }

  lemma LossBares(env: Env, cfg: Config, s: State, k: Key, p: Payload, now: int, stream: seq<Datum>)
    requires LaneOk(s, k, stream) && k.client in Subscribers(s, k.channel) && Loses(cfg, s, k, p)
    ensures var s' := SendTo(env, cfg, s, k, p, now).0; Bare(s', k) && Wire(s', k) == Wire(s, k)
  {
    hide MarkedGaps, CaughtUp, EndsMarked, Grown, Overflows;
    ControlJoinsRecovery(cfg, k.channel, QueueOf(s, k), p, now);
  }

  lemma SameLaneSameLoss(cfg: Config, s: State, s': State, k: Key, p: Payload)
    requires SameLane(s, s', k)
    ensures Loses(cfg, s', k, p) <==> Loses(cfg, s, k, p)
  {
    hide EndsMarked, MarkerFirst;
  }

  lemma {:induction false} SendAllBares(env: Env, cfg: Config, s: State, k: Key, p: Payload, clients: seq<Client>,
                                        now: int, stream: seq<Datum>)
    requires LaneOk(s, k, stream) && NoDuplicates(clients) && k.client in Subscribers(s, k.channel)
    requires Loses(cfg, s, k, p)
    ensures var s' := SendAll(env, cfg, s, k.channel, p, clients, now).0;
            if k.client in clients then Bare(s', k) && Wire(s', k) == Wire(s, k) else SameLane(s, s', k)
    decreases |clients|
  {
    hide SendTo, LaneOk, Loses, Bare;
    if clients != [] {
      var turn := Key(clients[0], k.channel);
      var s1 := SendTo(env, cfg, s, turn, p, now).0;
      var s2 := SendAll(env, cfg, s1, k.channel, p, clients[1..], now).0;
      if turn == k {
        LossBares(env, cfg, s, k, p, now, stream);
        SendAllElsewhere(env, cfg, s1, k, p, clients[1..], now);
        SameLaneStaysBare(s1, s2, k);
      } else {
        SendToElsewhere(env, cfg, s, turn, p, now, k);
        SameLaneStaysOk(s, s1, k, stream);
        SameLaneSameLoss(cfg, s, s1, k, p);
        SendAllBares(env, cfg, s1, k, p, clients[1..], now, stream);
      }
    }
  }

  lemma {:induction false} SendAllElsewhere(env: Env, cfg: Config, s: State, k: Key, p: Payload, clients: seq<Client>,
                                            now: int)
    requires k.client !in clients
    ensures SameLane(s, SendAll(env, cfg, s, k.channel, p, clients, now).0, k)
    decreases |clients|
  {
    hide SendTo, SameLane;
    NothingUnseen(s, k);
    if clients != [] {
      var s1 := SendTo(env, cfg, s, Key(clients[0], k.channel), p, now).0;
      SendToElsewhere(env, cfg, s, Key(clients[0], k.channel), p, now, k);
      SendAllElsewhere(env, cfg, s1, k, p, clients[1..], now);
      SameLaneTwice(s, s1, SendAll(env, cfg, s1, k.channel, p, clients[1..], now).0, k);
    }
  }

  lemma ScheduleUnseen(s: State, chs: OrderedSet<Channel>, timer: bool, focused: set<Channel>, rotation: nat, k: Key)
    ensures SameLane(s, s.(backpressured := chs, drainTimer := timer, focused := focused, rotation := rotation), k)
  {
  }

  lemma SendBares(env: Env, cfg: Config, s: State, k: Key, p: Payload, now: int, stream: seq<Datum>)
    requires LaneOk(s, k, stream) && k.client in Subscribers(s, k.channel) && Loses(cfg, s, k, p)
    ensures var s' := Send(env, cfg, s, k.channel, p, now); Bare(s', k) && Wire(s', k) == Wire(s, k)
  {
    hide SendAll, LaneOk, Loses, Bare, AddTo;
    var (s1, left) := SendAll(env, cfg, s, k.channel, p, Subscribers(s, k.channel), now);
    SendAllBares(env, cfg, s, k, p, Subscribers(s, k.channel), now, stream);
    if left {
      ScheduleUnseen(s1, AddTo(s1.backpressured, k.channel), true, s1.focused, s1.rotation, k);
      SameLaneStaysBare(s1, ScheduleDrain(s1, k.channel), k);
    }
  }

  // ---- data sent to a recovering client is dropped -------------------------------

  lemma {:induction false} SendAllDropped(env: Env, cfg: Config, s: State, k: Key, d: Datum, clients: seq<Client>,
                                          now: int)
    requires k in s.flagged && NoDuplicates(clients)
    ensures SameLane(s, SendAll(env, cfg, s, k.channel, Data([d]), clients, now).0, k)
    decreases |clients|
  {
    hide SendTo, SameLane;
    NothingUnseen(s, k);
    if clients != [] {
      var turn := Key(clients[0], k.channel);
      var s1 := SendTo(env, cfg, s, turn, Data([d]), now).0;
      if turn == k {
        FlaggedDrops(env, cfg, s, k, d, now);
        SendAllElsewhere(env, cfg, s1, k, Data([d]), clients[1..], now);
      } else {
        SendToElsewhere(env, cfg, s, turn, Data([d]), now, k);
        StillFlagged(s, s1, k);
        SendAllDropped(env, cfg, s1, k, d, clients[1..], now);
      }
      SameLaneTwice(s, s1, SendAll(env, cfg, s1, k.channel, Data([d]), clients[1..], now).0, k);
    }
  }

  lemma FlaggedDrops(env: Env, cfg: Config, s: State, k: Key, d: Datum, now: int)
    requires k in s.flagged
    ensures SendTo(env, cfg, s, k, Data([d]), now).0 == s
  {
    hide SendDirect, EnqueueClient;
  }

  lemma StillFlagged(s: State, s': State, k: Key)
    requires SameLane(s, s', k)
    ensures k in s'.flagged <==> k in s.flagged
    ensures k.client in Subscribers(s', k.channel) <==> k.client in Subscribers(s, k.channel)
    ensures HasQueued(s', k) <==> HasQueued(s, k)
  {
  }

  lemma SendDropped(env: Env, cfg: Config, s: State, k: Key, d: Datum, now: int)
    requires k in s.flagged && k.client in Subscribers(s, k.channel)
    ensures var s' := Send(env, cfg, s, k.channel, Data([d]), now);
            && SameLane(s, s', k) && s'.focused == s.focused
            && (k.channel in s.backpressured ==> k.channel in s'.backpressured)
            && (s.drainTimer ==> s'.drainTimer)
  {
    hide SendAll, SameLane, AddTo;
    var (s1, left) := SendAll(env, cfg, s, k.channel, Data([d]), Subscribers(s, k.channel), now);
    SendAllDropped(env, cfg, s, k, d, Subscribers(s, k.channel), now);
    if left {
      ScheduleUnseen(s1, AddTo(s1.backpressured, k.channel), true, s1.focused, s1.rotation, k);
      SameLaneTwice(s, s1, ScheduleDrain(s1, k.channel), k);
    }
  }

  // ---- a calm drain empties the lane ---------------------------------------------

  /** Everything that waited went out, and the client is no longer recovering. */
  predicate Emptied(s: State, s': State, k: Key) {
    && Wire(s', k) == Wire(s, k) + Tokens(QueueOf(s, k).messages)
    && !HasQueued(s', k) && k !in s'.flagged
    && (k.client in Subscribers(s', k.channel) <==> k.client in Subscribers(s, k.channel))
  }

  lemma {:induction false} CalmPump(tick: nat, ms: seq<Message>, limit: nat, budget: Option<nat>, sentBytes: int)
    ensures !Pump(CALM, tick, ms, limit, budget, sentBytes).closed
    ensures limit >= |ms| && budget.None? ==> Pump(CALM, tick, ms, limit, budget, sentBytes).sent == |ms|
    decreases |ms|
  {
    if ms != [] {
      CalmPump(tick + 1, ms[1..], if limit > 0 then limit - 1 else 0, budget, sentBytes + ms[0].sizeBytes);
    }
  }

  lemma ShiftElsewhere(s: State, k: Key, p: Pumped, other: Key)
    requires other != k && p.sent <= |QueueOf(s, k).messages|
    ensures SameLane(s, Shift(s, k, p), other)
  {
  }

  lemma OpenFlushElsewhere(s: State, k: Key, p: Pumped, other: Key)
    requires other != k && p.sent <= |QueueOf(s, k).messages| && !p.closed
    ensures SameLane(s, Flushed(s, k, p), other)
  {
    hide Shift, SameLane, Deliver, Tokens;
    var ts := Tokens(QueueOf(s, k).messages[..p.sent]);
    var s0 := s.(tick := p.tick);
    TickedUnseen(s, p.tick, other);
    DeliverElsewhere(s0, k, ts, other);
    SameLaneTwice(s, s0, Deliver(s0, k, ts), other);
    DeliverKeepsQueue(s0, k, ts);
    ShiftElsewhere(Deliver(s0, k, ts), k, p, other);
    SameLaneTwice(s, Deliver(s0, k, ts), Flushed(s, k, p), other);
  }

  lemma TickedUnseen(s: State, tick: nat, k: Key)
    ensures SameLane(s, s.(tick := tick), k)
  {
  }

  lemma DeliverKeepsQueue(s: State, k: Key, ts: seq<Token>)
    ensures QueueOf(Deliver(s, k, ts), k) == QueueOf(s, k)
  {
  }

  lemma CalmFlushElsewhere(s: State, k: Key, budget: Option<nat>, other: Key)
    requires other != k
    ensures SameLane(s, Flush(CALM, s, k, budget).0, other)
  {
    hide Flushed, Pump, SameLane;
    NothingUnseen(s, other);
    var ms := QueueOf(s, k).messages;
    CalmPump(s.tick + 1, ms, |ms|, budget, 0);
    if ms != [] {
      OpenFlushElsewhere(s, k, Pump(CALM, s.tick + 1, ms, |ms|, budget, 0), other);
    }
  }

  lemma CalmFlushEmpties(s: State, k: Key)
    requires HasQueued(s, k)
    ensures Emptied(s, Flush(CALM, s, k, None).0, k)
  {
    hide Pump, Tokens;
    var ms := QueueOf(s, k).messages;
    CalmPump(s.tick + 1, ms, |ms|, None, 0);
    assert ms[..|ms|] == ms;
  }

  lemma NothingToFlush(s: State, k: Key, budget: Option<nat>)
    requires !HasQueued(s, k)
    ensures Flush(CALM, s, k, budget) == (s, false)
  {
  }

  lemma CalmDrainElsewhere(cfg: Config, s: State, k: Key, budget: Option<nat>, now: int, other: Key)
    requires other != k
    ensures SameLane(s, DrainClient(CALM, cfg, s, k, budget, now), other)
  {
    hide Flush, CountPass, MarkClient, SameLane, OverThreshold;
    var (s1, progress) := Flush(CALM, s, k, budget);
    CalmFlushElsewhere(s, k, budget, other);
    var s2 := if progress then s1 else CountPass(CALM, s1, k);
    NothingUnseen(s1, other);
    CountPassUnseen(s1, k, other);
    SameLaneTwice(s, s1, s2, other);
    MarkElsewhere(s2, k, now, other);
    SameLaneTwice(s, s2, MarkClient(s2, k, now), other);
  }

  lemma CountPassUnseen(s: State, k: Key, other: Key)
    requires other != k
    ensures SameLane(s, CountPass(CALM, s, k), other)
  {
    hide SameLane;
    var q := QueueOf(s, k);
    var s1 := s.(queues := s.queues[k := q.(drainPasses := q.drainPasses + 1)]);
    SetQueueElsewhere(s, k, q.(drainPasses := q.drainPasses + 1), other);
    TickUnseen(s1, other);
    SameLaneTwice(s, s1, Ticked(s1), other);
  }

  lemma CalmDrainEmpties(cfg: Config, s: State, k: Key, now: int)
    ensures var s' := DrainClient(CALM, cfg, s, k, None, now);
            if HasQueued(s, k) then Emptied(s, s', k) else s' == s
  {
    hide Flush, CountPass, MaybeDegrade, Tokens;
    if HasQueued(s, k) {
      CalmFlushEmpties(s, k);
    } else {
      NothingToFlush(s, k, None);
    }
  }

  /** The lane as it was, or emptied. */
  predicate SameOrEmptied(s: State, s': State, k: Key) {
    SameLane(s, s', k) || Emptied(s, s', k)
  }

  lemma SameThenEmptied(a: State, b: State, c: State, k: Key)
    requires (SameLane(a, b, k) && Emptied(b, c, k)) || (Emptied(a, b, k) && SameLane(b, c, k))
    ensures Emptied(a, c, k)
  {
  }

  lemma {:induction false} CalmClientsElsewhere(cfg: Config, s: State, ch: Channel, clients: seq<Client>,
                                                budget: Option<nat>, now: int, k: Key)
    requires k.channel != ch || k.client !in clients
    ensures SameLane(s, DrainClients(CALM, cfg, s, ch, clients, budget, now).0, k)
    decreases |clients|
  {
    hide DrainClient, SameLane;
    NothingUnseen(s, k);
    if clients != [] {
      var turn := Key(clients[0], ch);
      var s1 := DrainClient(CALM, cfg, s, turn, budget, now);
      CalmDrainElsewhere(cfg, s, turn, budget, now, k);
      CalmClientsElsewhere(cfg, s1, ch, clients[1..], budget, now, k);
      SameLaneTwice(s, s1, DrainClients(CALM, cfg, s1, ch, clients[1..], budget, now).0, k);
    }
  }

  lemma {:induction false} CalmClientsEmpty(cfg: Config, s: State, k: Key, clients: seq<Client>, now: int)
    requires k.client in clients && NoDuplicates(clients) && HasQueued(s, k)
    ensures Emptied(s, DrainClients(CALM, cfg, s, k.channel, clients, None, now).0, k)
    decreases |clients|
  {
    hide DrainClient, SameLane, Emptied;
    var turn := Key(clients[0], k.channel);
    var s1 := DrainClient(CALM, cfg, s, turn, None, now);
    var s2 := DrainClients(CALM, cfg, s1, k.channel, clients[1..], None, now).0;
    if turn == k {
      CalmDrainEmpties(cfg, s, k, now);
      CalmClientsElsewhere(cfg, s1, k.channel, clients[1..], None, now, k);
    } else {
      CalmDrainElsewhere(cfg, s, turn, None, now, k);
      StillFlagged(s, s1, k);
      CalmClientsEmpty(cfg, s1, k, clients[1..], now);
    }
    SameThenEmptied(s, s1, s2, k);
  }

  lemma CalmChannel(cfg: Config, s: State, ch: Channel, now: int, k: Key)
    requires k.channel in s.focused && k.client in Subscribers(s, k.channel)
    ensures var s' := DrainChannel(CALM, cfg, s, ch, now);
            && s'.focused == s.focused
            && (if ch == k.channel && HasQueued(s, k) then Emptied(s, s', k)
                else ch != k.channel ==> SameLane(s, s', k))
  {
    hide DrainClients, SameLane, Emptied, RemoveFrom;
    var clients := Subscribers(s, ch);
    var budget := if ch in s.focused then None else Some(cfg.backgroundBudgetBytes);
    var (s1, queued) := DrainClients(CALM, cfg, s, ch, clients, budget, now);
    ScheduleUnseen(s, RemoveFrom(s.backpressured, ch), s.drainTimer, s.focused, s.rotation, k);
    ScheduleUnseen(s1, RemoveFrom(s1.backpressured, ch), s1.drainTimer, s1.focused, s1.rotation, k);
    if ch != k.channel {
      CalmClientsElsewhere(cfg, s, ch, clients, budget, now, k);
      SameLaneTwice(s, s1, s1.(backpressured := RemoveFrom(s1.backpressured, ch)), k);
    } else if HasQueued(s, k) {
      CalmClientsEmpty(cfg, s, k, clients, now);
      SameThenEmptied(s, s1, s1.(backpressured := RemoveFrom(s1.backpressured, ch)), k);
    }
  }

  /** A pass over channels that have this one once, or not at all. */
  lemma {:induction false} CalmChannels(cfg: Config, s: State, chs: seq<Channel>, now: int, k: Key)
    requires k.channel in s.focused && k.client in Subscribers(s, k.channel) && NoDuplicates(chs) && HasQueued(s, k)
    ensures var s' := DrainChannels(CALM, cfg, s, chs, now);
            s'.focused == s.focused && if k.channel in chs then Emptied(s, s', k) else SameLane(s, s', k)
    decreases |chs|
  {
    hide DrainChannel, SameLane, Emptied;
    if chs == [] {
      NothingUnseen(s, k);
    } else {
      var s1 := DrainChannel(CALM, cfg, s, chs[0], now);
      var s2 := DrainChannels(CALM, cfg, s1, chs[1..], now);
      CalmChannel(cfg, s, chs[0], now, k);
      if chs[0] == k.channel {
        EmptiedSubscribed(s, s1, k);
        CalmRest(cfg, s1, chs[1..], now, k);
        SameThenEmptied(s, s1, s2, k);
      } else {
        StillFlagged(s, s1, k);
        CalmChannels(cfg, s1, chs[1..], now, k);
        if k.channel in chs[1..] {
          SameThenEmptied(s, s1, s2, k);
        } else {
          SameLaneTwice(s, s1, s2, k);
        }
      }
    }
  }

  lemma EmptiedSubscribed(s: State, s': State, k: Key)
    requires Emptied(s, s', k)
    ensures k.client in Subscribers(s', k.channel) <==> k.client in Subscribers(s, k.channel)
    ensures k !in s'.flagged && !HasQueued(s', k)
  {
    hide Tokens;
  }

  lemma {:induction false} CalmRest(cfg: Config, s: State, chs: seq<Channel>, now: int, k: Key)
    requires k.channel in s.focused && k.client in Subscribers(s, k.channel) && k.channel !in chs
    ensures var s' := DrainChannels(CALM, cfg, s, chs, now); s'.focused == s.focused && SameLane(s, s', k)
    decreases |chs|
  {
    hide DrainChannel, SameLane, Emptied;
    if chs == [] {
      NothingUnseen(s, k);
    } else {
      var s1 := DrainChannel(CALM, cfg, s, chs[0], now);
      CalmChannel(cfg, s, chs[0], now, k);
      StillFlagged(s, s1, k);
      CalmRest(cfg, s1, chs[1..], now, k);
      SameLaneTwice(s, s1, DrainChannels(CALM, cfg, s1, chs[1..], now), k);
    }
  }

  lemma SameElements(a: seq<Channel>, b: seq<Channel>)
    requires NoDuplicates(a) && multiset(a) == multiset(b)
    ensures NoDuplicates(b) && forall x :: x in b <==> x in a
  {
    forall x
      ensures x in b <==> x in a
    {
      assert x in multiset(b) <==> x in multiset(a);
    }
    forall x
      ensures multiset(a)[x] <= 1
    {
      OnceOnly(a, x);
    }
    forall i, j | 0 <= i < j < |b|
      ensures b[i] != b[j]
    {
      TwiceIsTwo(b, i, j);
    }
  }

  lemma TwiceIsTwo(b: seq<Channel>, i: nat, j: nat)
    requires i < j < |b|
    ensures b[i] == b[j] ==> multiset(b)[b[i]] >= 2
  {
    assert b == b[..i] + [b[i]] + b[i + 1..j] + [b[j]] + b[j + 1..];
  }

  lemma {:induction false} OnceOnly(a: seq<Channel>, x: Channel)
    requires NoDuplicates(a)
    ensures multiset(a)[x] <= 1
    decreases |a|
  {
    if a != [] {
      OnceOnly(a[1..], x);
      assert a == [a[0]] + a[1..];
      if a[0] == x {
        assert x !in a[1..];
      }
    }
  }

  lemma CalmPass(cfg: Config, s: State, now: int, k: Key)
    requires k.channel in s.focused && k.client in Subscribers(s, k.channel) && HasQueued(s, k)
    requires k.channel in s.backpressured
    ensures var s' := DrainPass(CALM, cfg, s, now); Emptied(s, s', k) && s'.focused == s.focused
  {
    hide DrainChannels, SameLane, Emptied, OrderForDrain, NextRotation;
    var order := OrderForDrain(s.backpressured, s.focused, s.rotation);
    OrderIsPermutation(s.backpressured, s.focused, s.rotation);
    SameElements(s.backpressured, order);
    var s1 := s.(drainTimer := false, rotation := NextRotation(s.backpressured, s.focused, s.rotation));
    ScheduleUnseen(s, s.backpressured, false, s.focused, s1.rotation, k);
    StillFlagged(s, s1, k);
    CalmChannels(cfg, s1, order, now, k);
    var s2 := DrainChannels(CALM, cfg, s1, order, now);
    SameThenEmptied(s, s1, s2, k);
    ScheduleUnseen(s2, s2.backpressured, true, s2.focused, s2.rotation, k);
    NothingUnseen(s2, k);
    SameThenEmptied(s, s2, DrainPass(CALM, cfg, s, now), k);
  }

  // ---- and the next data goes out as if nothing were missing ------------------------

  lemma CalmSendTo(cfg: Config, s: State, k: Key, d: Datum, now: int)
    requires k !in s.flagged && !HasQueued(s, k) && k.channel in s.focused
    ensures Wire(SendTo(CALM, cfg, s, k, Data([d]), now).0, k) == Wire(s, k) + [Unit(d)]
  {
    assert PayloadTokens(Data([d])) == [Unit(d)];
  }

  lemma {:induction false} CalmSendAll(cfg: Config, s: State, k: Key, d: Datum, clients: seq<Client>, now: int)
    requires k !in s.flagged && !HasQueued(s, k) && k.channel in s.focused
    requires k.client in clients && NoDuplicates(clients)
    ensures Wire(SendAll(CALM, cfg, s, k.channel, Data([d]), clients, now).0, k) == Wire(s, k) + [Unit(d)]
    decreases |clients|
  {
    hide SendTo;
    var turn := Key(clients[0], k.channel);
    var s1 := SendTo(CALM, cfg, s, turn, Data([d]), now).0;
    if turn == k {
      CalmSendTo(cfg, s, k, d, now);
      SendAllElsewhere(CALM, cfg, s1, k, Data([d]), clients[1..], now);
    } else {
      SendToElsewhere(CALM, cfg, s, turn, Data([d]), now, k);
      CalmSendAll(cfg, s1, k, d, clients[1..], now);
    }
  }

  lemma CalmSend(cfg: Config, s: State, k: Key, d: Datum, now: int)
    requires k !in s.flagged && !HasQueued(s, k) && k.channel in s.focused && k.client in Subscribers(s, k.channel)
    ensures Wire(Send(CALM, cfg, s, k.channel, Data([d]), now), k) == Wire(s, k) + [Unit(d)]
  {
    hide SendAll, AddTo;
    CalmSendAll(cfg, s, k, d, Subscribers(s, k.channel), now);
  }

  // ---- what the client then saw ------------------------------------------------------

  lemma {:induction false} ControlsOnly(ms: seq<Message>)
    requires OnlyControls(ms)
    ensures NoUnits(Tokens(ms)) && Marker !in Tokens(ms)
  {
    if ms != [] {
      ControlsOnly(ms[..|ms| - 1]);
    }
  }

  lemma {:induction false} NoUnitsNoData(ts: seq<Token>)
    requires NoUnits(ts)
    ensures DataIn(ts) == []
  {
    if ts != [] {
      NoUnitsNoData(ts[..|ts| - 1]);
    }
  }

  lemma MarkerAtEnd(w: seq<Token>)
    ensures w != [] && w[|w| - 1] == Marker ==> EndsMarked(w)
  {
    if w != [] && w[|w| - 1] == Marker {
      assert NoUnits(w[|w| - 1..]);
    }
  }

  /** What a client has received ends with data and controls behind it, or has neither data nor marker. */
  lemma {:induction false} EndsWithData(w: seq<Token>) returns (n: nat)
    requires !EndsMarked(w)
    ensures n <= |w| && NoUnits(w[n..]) && Marker !in w[n..] && (n > 0 ==> w[n - 1].Unit?)
    decreases |w|
  {
    if w == [] {
      n := 0;
    } else {
      var init, last := w[..|w| - 1], w[|w| - 1];
      assert w == init + [last];
      if last.Unit? {
        n := |w|;
      } else {
        MarkerAtEnd(w);
        if EndsMarked(init) {
          EndsMarkedExtends(init, [last]);
        }
        n := EndsWithData(init);
        assert w[n..] == init[n..] + [last];
      }
    }
  }

  /** The data seen last before the second of two neighbours is the first of them. */
  lemma LastBefore(w: seq<Token>, ctls: seq<Token>, stream: seq<Datum>, d: Datum, e: Datum, at: seq<int>)
    requires !EndsMarked(w) && NoUnits(ctls) && Marker !in ctls && e !in stream && e != d
    requires Placed(w + ctls + [Unit(e)], at, stream + [d] + [e])
    ensures Unit(d) in w
  {
    var seen, sent := w + ctls + [Unit(e)], stream + [d] + [e];
    var n := EndsWithData(w);
    var m := |w| + |ctls|;
    assert PlacedAt(seen[m], at[m], at[m + 1], sent);
    assert at[m] == |stream| + 1;
    assert seen[n..m] == w[n..] + ctls;
    NoMarkerMeansNoGap(seen, at, sent, n, m);
    NoUnitsNoData(seen[n..m]);
    assert |sent[at[n]..at[m]]| == 0;
    if n == 0 {
      assert false;
    } else {
      assert seen[n - 1] == w[n - 1];
      assert PlacedAt(seen[n - 1], at[n - 1], at[n], sent);
      assert sent[|stream|] == d;
    }
  }

  /** A datum that was dropped in front of one that was seen, with nothing but control messages since the data
      before, is a gap without a marker. */
  lemma LossShows(w: seq<Token>, ctls: seq<Token>, stream: seq<Datum>, d: Datum, e: Datum)
    requires !EndsMarked(w) && NoUnits(ctls) && Marker !in ctls
    requires Unit(d) !in w && e !in stream && e != d
    ensures !MarkedGaps(w + ctls + [Unit(e)], stream + [d] + [e])
  {
    var seen, sent := w + ctls + [Unit(e)], stream + [d] + [e];
    if MarkedGaps(seen, sent) {
      var at :| Placed(seen, at, sent);
      LastBefore(w, ctls, stream, d, e, at);
    }
  }

  // ---- together ------------------------------------------------------------------------

  /** The user looks at the channel, a byte is sent, the drain timer fires, another byte is sent. */
  function Aftermath(ch: Channel, d: Datum, e: Datum, now: int): seq<Event> {
    [Focus({ch}), SendMessage(ch, Data([d]), now), DrainTimerFires(now), SendMessage(ch, Data([e]), now)]
  }

  lemma RunOn(cfg: Config, s: State, e: Event, rest: seq<Event>)
    requires Enabled(s, e)
    ensures Run(CALM, cfg, s, [e] + rest) == Run(CALM, cfg, Step(CALM, cfg, s, e), rest)
  {
    hide Step, Enabled;
    assert ([e] + rest)[1..] == rest;
  }

  lemma RunEnd(cfg: Config, s: State)
    ensures Run(CALM, cfg, s, []) == s
  {
  }

  lemma FocusBares(s: State, k: Key)
    requires Bare(s, k)
    ensures var s1 := s.(focused := {k.channel});
            Bare(s1, k) && Wire(s1, k) == Wire(s, k) && QueueOf(s1, k) == QueueOf(s, k)
  {
    hide SameLane, EndsMarked, OnlyControls;
    ScheduleUnseen(s, s.backpressured, s.drainTimer, {k.channel}, s.rotation, k);
    SameLaneStaysBare(s, s.(focused := {k.channel}), k);
  }

  lemma BareIsSeen(cfg: Config, s: State, k: Key, d: Datum, e: Datum, now: int, stream: seq<Datum>)
    requires Bare(s, k) && k.channel in s.backpressured && s.drainTimer
    requires Unit(d) !in Wire(s, k) && e !in stream && e != d
    ensures !MarkedGaps(Wire(Run(CALM, cfg, s, Aftermath(k.channel, d, e, now)), k), stream + [d] + [e])
  {
    hide Run, Send, DrainPass, SameLane, Emptied, EndsMarked, OnlyControls, MarkedGaps;
    var ch := k.channel;
    var e1, e2 := Focus({ch}), SendMessage(ch, Data([d]), now);
    var e3, e4 := DrainTimerFires(now), SendMessage(ch, Data([e]), now);
    var s1 := s.(focused := {ch});
    FocusBares(s, k);
    var s2 := Send(CALM, cfg, s1, ch, Data([d]), now);
    SendDropped(CALM, cfg, s1, k, d, now);
    StillFlagged(s1, s2, k);
    SameLaneStaysBare(s1, s2, k);
    var s3 := DrainPass(CALM, cfg, s2, now);
    CalmPass(cfg, s2, now, k);
    EmptiedSubscribed(s2, s3, k);
    CalmSend(cfg, s3, k, e, now);
    var s4 := Send(CALM, cfg, s3, ch, Data([e]), now);
    WireAfter(s, s1, s2, s3, k);
    ControlsOnly(QueueOf(s, k).messages);
    LossShows(Wire(s, k), Tokens(QueueOf(s, k).messages), stream, d, e);
    RunOn(cfg, s, e1, [e2] + ([e3] + ([e4] + [])));
    RunOn(cfg, s1, e2, [e3] + ([e4] + []));
    RunOn(cfg, s2, e3, [e4] + []);
    RunOn(cfg, s3, e4, []);
    RunEnd(cfg, s4);
    assert Aftermath(ch, d, e, now) == [e1] + ([e2] + ([e3] + ([e4] + [])));
  }

  lemma WireAfter(s: State, s1: State, s2: State, s3: State, k: Key)
    requires Wire(s1, k) == Wire(s, k) && QueueOf(s1, k) == QueueOf(s, k)
    requires SameLane(s1, s2, k) && Emptied(s2, s3, k)
    ensures Wire(s3, k) == Wire(s, k) + Tokens(QueueOf(s, k).messages)
  {
    hide Tokens;
  }

  /** The other half of the guard: after every run that kept the only marker, a message that evicts it makes
      the loss visible. If from then on the transport takes everything, and the channel is looked at, the next
      byte sent is missed and the one after it seen, with no marker in between. */
  lemma LossIsSeen(env: Env, cfg: Config, events: seq<Event>, k: Key, p: Payload, d: Datum, e: Datum, now: int)
    requires KeepsAll(env, cfg, INIT, events, k)
    requires var s := Run(env, cfg, INIT, events);
             && k.client in Subscribers(s, k.channel) && Loses(cfg, s, k, p)
             && Unit(d) !in Wire(s, k) && e !in Owed(env, cfg, INIT, events, k, []) && e != d
    ensures var s := Run(env, cfg, INIT, events);
            var s1 := Step(env, cfg, s, SendMessage(k.channel, p, now));
            var s2 := Run(CALM, cfg, s1, Aftermath(k.channel, d, e, now));
            !MarkedGaps(Wire(s2, k), Owed(env, cfg, INIT, events, k, []) + [d] + [e])
  {
    hide Run, Owed, KeepsAll, Send, Loses, Bare, MarkedGaps, Tended;
    NothingSeen([]);
    StartTends(k);
    RunKeepsLane(env, cfg, INIT, events, k, []);
    NoStrandedQueue(env, cfg, INIT, events, k);
    var s, owed := Run(env, cfg, INIT, events), Owed(env, cfg, INIT, events, k, []);
    var s1 := Send(env, cfg, s, k.channel, p, now);
    SendBares(env, cfg, s, k, p, now, owed);
    StepTends(env, cfg, s, SendMessage(k.channel, p, now), k);
    BareIsWaiting(s1, k);
    BareIsSeen(cfg, s1, k, d, e, now, owed);
  }

  lemma StartTends(k: Key)
    ensures Tended(INIT, k) && Armed(INIT)
  {
    NoBytes();
  }

  lemma BareIsWaiting(s: State, k: Key)
    requires Bare(s, k) && Tended(s, k) && Armed(s)
    ensures k.channel in s.backpressured && s.drainTimer
  {
    hide EndsMarked, OnlyControls, SumBytes;
  }
}
