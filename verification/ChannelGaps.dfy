/** Marked gaps only: over every run, whatever a client misses of a channel's data stream is announced
    by a recovery marker standing exactly where the data is missing. */
module ChannelGaps {
  import opened Common
  import opened ChannelQueues
  import opened ChannelPlane

  // ---- what "marked gaps" means -------------------------------------------

  /** `at[i]` is the position in the data stream just before the i-th thing the client saw. It starts at
      the beginning; data sits at its position and moves one on; only a marker may move further ahead. */
  ghost predicate Placed(seen: seq<Token>, at: seq<int>, stream: seq<Datum>) {
    && |at| == |seen| + 1 && at[0] == 0
    && 0 <= at[|seen|] <= |stream|
    && forall i :: 0 <= i < |seen| ==> PlacedAt(seen[i], at[i], at[i + 1], stream)
  }

  ghost predicate PlacedAt(t: Token, before: int, after: int, stream: seq<Datum>) {
    0 <= before && match t
    case Unit(b) => before < |stream| && stream[before] == b && after == before + 1
    case Ctl(_) => after == before
    case Marker => before <= after
  }

  ghost predicate MarkedGaps(seen: seq<Token>, stream: seq<Datum>) {
    exists at :: Placed(seen, at, stream)
  }

  /** In addition, nothing is missing at the end. */
  ghost predicate CaughtUp(seen: seq<Token>, stream: seq<Datum>) {
    exists at :: Placed(seen, at, stream) && at[|seen|] == |stream|
  }

  predicate NoUnits(ts: seq<Token>) {
    forall i :: 0 <= i < |ts| ==> !ts[i].Unit?
  }

  /** A marker with no data after it. */
  ghost predicate EndsMarked(ts: seq<Token>) {
    exists m :: 0 <= m < |ts| && ts[m] == Marker && NoUnits(ts[m..])
  }

  function DataIn(ts: seq<Token>): seq<Datum> {
    if ts == [] then []
    else DataIn(ts[..|ts| - 1]) + (match ts[|ts| - 1] case Unit(b) => [b] case _ => [])
  }

  /** The reading for users: between two points with no marker in between, the client got one slice of
      the stream: every byte, in order, once. */
  lemma {:induction false} NoMarkerMeansNoGap(seen: seq<Token>, at: seq<int>, stream: seq<Datum>, i: nat, j: nat)
    requires Placed(seen, at, stream)
    requires i <= j <= |seen|
    requires Marker !in seen[i..j]
    ensures 0 <= at[i] <= at[j] <= |stream|
    ensures DataIn(seen[i..j]) == stream[at[i]..at[j]]
    decreases j - i
  {
    PositionsBounded(seen, at, stream, j);
    if i < j {
      assert seen[i..j][..j - 1 - i] == seen[i..j - 1];
      assert forall t :: t in seen[i..j - 1] ==> t in seen[i..j];
      NoMarkerMeansNoGap(seen, at, stream, i, j - 1);
      assert seen[i..j][j - 1 - i] == seen[j - 1];
      assert seen[j - 1] in seen[i..j];
      assert PlacedAt(seen[j - 1], at[j - 1], at[j], stream);
    }
  }

  lemma {:induction false} PositionsBounded(seen: seq<Token>, at: seq<int>, stream: seq<Datum>, i: nat)
    requires Placed(seen, at, stream) && i <= |seen|
    ensures 0 <= at[i] <= at[|seen|] <= |stream|
    decreases |seen| - i
  {
    if i < |seen| {
      assert PlacedAt(seen[i], at[i], at[i + 1], stream);
      PositionsBounded(seen, at, stream, i + 1);
    }
  }

  // ---- how the notion moves along ------------------------------------------

  lemma GapsSurviveGrowth(seen: seq<Token>, stream: seq<Datum>, more: seq<Datum>)
    requires MarkedGaps(seen, stream)
    ensures MarkedGaps(seen, stream + more)
  {
    var at :| Placed(seen, at, stream);
    forall i | 0 <= i < |seen|
      ensures PlacedAt(seen[i], at[i], at[i + 1], stream + more)
    {
      assert PlacedAt(seen[i], at[i], at[i + 1], stream);
    }
    assert Placed(seen, at, stream + more);
  }

  lemma GapsOfPrefix(a: seq<Token>, b: seq<Token>, stream: seq<Datum>)
    requires MarkedGaps(a + b, stream)
    ensures MarkedGaps(a, stream)
  {
    var at :| Placed(a + b, at, stream);
    PositionsBounded(a + b, at, stream, |a|);
    var at' := at[..|a| + 1];
    forall i | 0 <= i < |a|
      ensures PlacedAt(a[i], at'[i], at'[i + 1], stream)
    {
      assert PlacedAt((a + b)[i], at[i], at[i + 1], stream);
    }
    assert Placed(a, at', stream);
  }

  lemma CaughtUpWithData(seen: seq<Token>, stream: seq<Datum>, bytes: seq<Datum>)
    requires CaughtUp(seen, stream)
    ensures CaughtUp(seen + Units(bytes), stream + bytes)
  {
    var at :| Placed(seen, at, stream) && at[|seen|] == |stream|;
    var at' := at + seq(|bytes|, i requires 0 <= i < |bytes| => |stream| + i + 1);
    var seen', stream' := seen + Units(bytes), stream + bytes;
    forall i | 0 <= i < |seen'|
      ensures PlacedAt(seen'[i], at'[i], at'[i + 1], stream')
    {
      if i < |seen| {
        assert PlacedAt(seen[i], at[i], at[i + 1], stream);
      } else {
        assert seen'[i] == Unit(bytes[i - |seen|]);
        assert stream'[|stream| + (i - |seen|)] == bytes[i - |seen|];
      }
    }
    assert Placed(seen', at', stream');
  }

  lemma CaughtUpWithControl(seen: seq<Token>, stream: seq<Datum>, id: nat)
    requires CaughtUp(seen, stream)
    ensures CaughtUp(seen + [Ctl(id)], stream)
  {
    var at :| Placed(seen, at, stream) && at[|seen|] == |stream|;
    var at' := at + [|stream|];
    var seen' := seen + [Ctl(id)];
    forall i | 0 <= i < |seen'|
      ensures PlacedAt(seen'[i], at'[i], at'[i + 1], stream)
    {
      if i < |seen| {
        assert PlacedAt(seen[i], at[i], at[i + 1], stream);
      }
    }
    assert Placed(seen', at', stream);
  }

  /** Behind a marker a client can be brought up to date without any data. */
  lemma MarkerCatchesUp(seen: seq<Token>, rest: seq<Token>, stream: seq<Datum>)
    requires MarkedGaps(seen, stream) && EndsMarked(seen) && NoUnits(rest)
    ensures CaughtUp(seen + rest, stream)
  {
    var at :| Placed(seen, at, stream);
    var m :| 0 <= m < |seen| && seen[m] == Marker && NoUnits(seen[m..]);
    PositionsBounded(seen, at, stream, m);
    var all := seen + rest;
    var at' := at[..m + 1] + seq(|all| - m, i requires 0 <= i < |all| - m => |stream|);
    forall i | 0 <= i < |all|
      ensures PlacedAt(all[i], at'[i], at'[i + 1], stream)
    {
      if i < m {
        assert PlacedAt(seen[i], at[i], at[i + 1], stream);
      } else if i < |seen| {
        assert seen[i] == seen[m..][i - m];
      } else {
        assert all[i] == rest[i - |seen|];
      }
    }
    assert Placed(all, at', stream);
  }

  /** A marker may follow anything. */
  lemma GapsThenMarker(seen: seq<Token>, stream: seq<Datum>)
    requires MarkedGaps(seen, stream)
    ensures MarkedGaps(seen + [Marker], stream) && EndsMarked(seen + [Marker])
  {
    var at :| Placed(seen, at, stream);
    var at' := at + [|stream|];
    var seen' := seen + [Marker];
    forall i | 0 <= i < |seen'|
      ensures PlacedAt(seen'[i], at'[i], at'[i + 1], stream)
    {
      if i < |seen| {
        assert PlacedAt(seen[i], at[i], at[i + 1], stream);
      }
    }
    assert Placed(seen', at', stream);
    assert seen'[|seen|] == Marker;
  }

  lemma EndsMarkedExtends(seen: seq<Token>, rest: seq<Token>)
    requires EndsMarked(seen) && NoUnits(rest)
    ensures EndsMarked(seen + rest)
  {
    var m :| 0 <= m < |seen| && seen[m] == Marker && NoUnits(seen[m..]);
    assert (seen + rest)[m..] == seen[m..] + rest;
    assert (seen + rest)[m] == Marker;
  }

  lemma NothingSeen(stream: seq<Datum>)
    ensures MarkedGaps([], stream) && CaughtUp([], [])
  {
    assert Placed([], [0], stream);
    assert Placed([], [0], []);
  }

  /** Anything is caught up with the data it holds. */
  lemma {:induction false} CaughtUpWithOwnData(ts: seq<Token>)
    ensures CaughtUp(ts, DataIn(ts))
  {
    if ts == [] {
      NothingSeen([]);
    } else {
      var init, last := ts[..|ts| - 1], ts[|ts| - 1];
      CaughtUpWithOwnData(init);
      assert ts == init + [last];
      match last {
        case Unit(d) =>
          CaughtUpWithData(init, DataIn(init), [d]);
          assert Units([d]) == [last];
        case Ctl(id) =>
          CaughtUpWithControl(init, DataIn(init), id);
          assert DataIn(init) + [] == DataIn(init);
        case Marker =>
          CaughtUpWithMarker(init, DataIn(init));
          assert DataIn(init) + [] == DataIn(init);
      }
    }
  }

  lemma CaughtUpWithMarker(seen: seq<Token>, stream: seq<Datum>)
    requires CaughtUp(seen, stream)
    ensures CaughtUp(seen + [Marker], stream)
  {
    GapsThenMarker(seen, stream);
    MarkerCatchesUp(seen + [Marker], [], stream);
    assert seen + [Marker] + [] == seen + [Marker];
  }

  // ---- the literal reading ----------------------------------------------------

  /** Every datum of the stream carries its place, counted from `base`. */
  predicate Numbered(stream: seq<Datum>, base: nat) {
    forall i :: 0 <= i < |stream| ==> stream[i].place == base + i
  }

  /** By place: no datum is seen twice or out of order; of two neighbouring ones with no marker in between
      the second is the one sent right after the first; and one with no marker before it has everything
      before it. */
  ghost predicate InOrderOnce(seen: seq<Token>, base: nat) {
    && (forall i, j :: 0 <= i < j < |seen| && seen[i].Unit? && seen[j].Unit? ==>
          seen[i].datum.place < seen[j].datum.place)
    && (forall i, j :: 0 <= i < j < |seen| && seen[i].Unit? && seen[j].Unit? && Marker !in seen[i..j] ==>
          seen[j].datum.place == seen[i].datum.place + |DataIn(seen[i..j])|)
    && (forall j :: 0 <= j < |seen| && seen[j].Unit? && Marker !in seen[..j] ==>
          seen[j].datum.place == base + |DataIn(seen[..j])|)
  }

  /** In a numbered stream every datum seen has exactly one place to come from. */
  lemma MarkedGapsAreLiteral(seen: seq<Token>, stream: seq<Datum>, base: nat)
    requires MarkedGaps(seen, stream) && Numbered(stream, base)
    ensures InOrderOnce(seen, base)
    ensures forall i :: 0 <= i < |seen| && seen[i].Unit? ==>
              base <= seen[i].datum.place < base + |stream| && stream[seen[i].datum.place - base] == seen[i].datum
  {
    var at :| Placed(seen, at, stream);
    forall i | 0 <= i < |seen| && seen[i].Unit?
      ensures 0 <= at[i] < |stream| && stream[at[i]] == seen[i].datum && at[i + 1] == at[i] + 1
      ensures seen[i].datum.place == base + at[i]
    {
      assert PlacedAt(seen[i], at[i], at[i + 1], stream);
    }
    forall i, j | 0 <= i <= j <= |seen|
      ensures at[i] <= at[j] && (Marker !in seen[i..j] ==> at[j] == at[i] + |DataIn(seen[i..j])|)
    {
      OnlyForward(seen, at, stream, i, j);
      if Marker !in seen[i..j] {
        NoMarkerMeansNoGap(seen, at, stream, i, j);
      }
    }
    forall i, j | 0 <= i < j < |seen| && seen[i].Unit? && seen[j].Unit?
      ensures at[i] < at[j]
    {
      assert at[i + 1] <= at[j];
    }
    forall j | 0 <= j < |seen| && seen[j].Unit? && Marker !in seen[..j]
      ensures seen[j].datum.place == base + |DataIn(seen[..j])|
    {
      assert seen[0..j] == seen[..j];
    }
  }

  lemma {:induction false} OnlyForward(seen: seq<Token>, at: seq<int>, stream: seq<Datum>, i: nat, j: nat)
    requires Placed(seen, at, stream) && i <= j <= |seen|
    ensures at[i] <= at[j]
    decreases j - i
  {
    if i < j {
      OnlyForward(seen, at, stream, i, j - 1);
      assert PlacedAt(seen[j - 1], at[j - 1], at[j], stream);
    }
  }

  // ---- one client's view of one channel -------------------------------------

  predicate MarkerFirst(ms: seq<Message>) {
    ms != [] && ms[0].Serialized? && ms[0].body == RecoveryRequired
  }

  /** A recovering queue holds control messages, and possibly the marker in front of them. */
  predicate Recovering(ms: seq<Message>) {
    forall i :: 0 <= i < |ms| ==>
      && ms[i].Serialized?
      && (ms[i].body.ControlBody? || (i == 0 && ms[i].body == RecoveryRequired))
  }

  lemma {:induction false} NoUnitsInSerialized(ms: seq<Message>)
    requires forall i :: 0 <= i < |ms| ==> ms[i].Serialized? && !ms[i].body.Text?
    ensures NoUnits(Tokens(ms))
  {
    if ms != [] {
      NoUnitsInSerialized(ms[..|ms| - 1]);
    }
  }

  /** The invariant for one subscriber against the channel's data stream. Unflagged: what it received
      and what waits for it together miss nothing. Flagged: no data waits, and a marker is waiting first
      in line or was delivered where the gap began. */
  ghost predicate LaneOk(s: State, k: Key, stream: seq<Datum>) {
    LaneFine(Wire(s, k), QueueOf(s, k).messages, k in s.flagged, k.client in Subscribers(s, k.channel), stream)
  }

  ghost predicate LaneFine(w: seq<Token>, ms: seq<Message>, flagged: bool, subscribed: bool, stream: seq<Datum>) {
    if !subscribed then
      MarkedGaps(w, stream)
    else if flagged then
      ms != [] && MarkedGaps(w, stream) && Recovering(ms) && (MarkerFirst(ms) || EndsMarked(w))
    else
      CaughtUp(w + Tokens(ms), stream)
  }

  lemma LaneHasMarkedGaps(s: State, k: Key, stream: seq<Datum>)
    requires LaneOk(s, k, stream)
    ensures MarkedGaps(Wire(s, k), stream)
  {
    var w, q := Wire(s, k), QueueOf(s, k);
    if k.client in Subscribers(s, k.channel) && k !in s.flagged {
      GapsOfPrefix(w, Tokens(q.messages), stream);
    }
  }

  predicate SameLane(s: State, s': State, k: Key) {
    && Wire(s', k) == Wire(s, k)
    && QueueOf(s', k) == QueueOf(s, k)
    && (k in s'.flagged <==> k in s.flagged)
    && (k.client in Subscribers(s', k.channel) <==> k.client in Subscribers(s, k.channel))
  }

  lemma CleanupSubscribers(s: State, c: Client, k: Key)
    ensures k.client in Subscribers(CleanupClient(s, c), k.channel)
            <==> k.client in Subscribers(s, k.channel) && k.client != c
  {
  }

  /** Tearing a client down, its own or another. */
  lemma CleanupKeepsLane(s: State, c: Client, k: Key, stream: seq<Datum>)
    requires LaneOk(s, k, stream)
    ensures LaneOk(CleanupClient(s, c), k, stream)
    ensures Wire(CleanupClient(s, c), k) == Wire(s, k)
  {
    CleanupSubscribers(s, c, k);
    LaneHasMarkedGaps(s, k, stream);
  }

  lemma CleanupElsewhere(s: State, c: Client, k: Key)
    requires k.client != c
    ensures SameLane(s, CleanupClient(s, c), k)
  {
    CleanupSubscribers(s, c, k);
  }

  lemma MarkKeepsLane(s: State, k: Key, now: int, stream: seq<Datum>)
    requires k !in s.flagged && MarkedGaps(Wire(s, k), stream)
    ensures LaneOk(MarkClient(s, k, now), k, stream)
  {
    var q := RecoveryQueue(k.channel, now);
    assert Tokens(q.messages[..0]) == [];
    assert Tokens(q.messages) == [Marker];
  }

  /** The one way a marker is lost: a control message joins a recovering queue that still has its marker
      waiting and does not fit, so trimming evicts the marker. */
  predicate Evicts(cfg: Config, s: State, k: Key, p: Payload) {
    && k in s.flagged && p.Control? && MarkerFirst(QueueOf(s, k).messages)
    && QueueOf(s, k).totalBytes + JsonSize(k.channel, p.jsonBytes) > cfg.pendingMaxBytes
  }

  /** The client then has no marker for what it missed: none waits and none was delivered since. */
  ghost predicate Loses(cfg: Config, s: State, k: Key, p: Payload) {
    Evicts(cfg, s, k, p) && !EndsMarked(Wire(s, k))
  }

  /** A control message joining a recovering queue: the waiting marker stays exactly when the message
      fits. */
  lemma ControlJoinsRecovery(cfg: Config, ch: Channel, q: Queue, p: Payload, now: int)
    requires p.Control? && q.messages != [] && Recovering(q.messages)
    ensures var q' := Grown(cfg, ch, q, p, now);
            && q'.messages != [] && Recovering(q'.messages)
            && (MarkerFirst(q.messages) ==>
                  (MarkerFirst(q'.messages) <==> q.totalBytes + JsonSize(ch, p.jsonBytes) <= cfg.pendingMaxBytes))
  {
    var q1 := Append(ch, q, CreateMessage(ch, p, now), cfg.coalesceMaxBytes);
    TrimShape(q1, cfg.pendingMaxBytes);
    var q' := Grown(cfg, ch, q, p, now);
    var d := |q1.messages| - |q'.messages|;
    forall i | 0 <= i < |q'.messages|
      ensures q'.messages[i] == q1.messages[d + i]
    {
    }
  }

  lemma CaughtUpWithPayload(seen: seq<Token>, stream: seq<Datum>, p: Payload)
    requires CaughtUp(seen, stream)
    ensures CaughtUp(seen + PayloadTokens(p), stream + DataOf(p))
  {
    if p.Control? {
      CaughtUpWithControl(seen, stream, p.id);
      assert stream + DataOf(p) == stream;
    } else {
      CaughtUpWithData(seen, stream, DataOf(p));
    }
  }

  lemma GrownFreeQueue(cfg: Config, ch: Channel, q: Queue, p: Payload, now: int)
    requires !Overflows(cfg, ch, q, p, now)
    ensures Tokens(Grown(cfg, ch, q, p, now).messages) == Tokens(q.messages) + PayloadTokens(p)
  {
    TrimShape(Appended(cfg, ch, q, p, now), cfg.pendingMaxBytes);
    AppendKeepsStream(ch, q, CreateMessage(ch, p, now), cfg.coalesceMaxBytes);
    CreatedTokens(ch, p, now);
  }

  lemma MarkElsewhere(s: State, k: Key, now: int, other: Key)
    ensures var s' := MarkClient(s, k, now);
            && s'.wire == s.wire && s'.subscribers == s.subscribers
            && (other != k ==> SameLane(s, s', other))
  {
  }

  /** Storing a client's queue touches no other lane, no history and no subscription. */
  lemma StoreElsewhere(cfg: Config, s: State, k: Key, q: Queue, overflowed: bool, now: int, other: Key)
    ensures var s' := StoreQueue(cfg, s, k, q, overflowed, now);
            && s'.wire == s.wire && s'.subscribers == s.subscribers
            && (other != k ==> SameLane(s, s', other))
  {
    hide MarkClient, OverThreshold;
    MarkElsewhere(s.(queues := s.queues[k := q]), k, now, other);
  }

  lemma StoreKeepsFreeLane(cfg: Config, s: State, k: Key, q: Queue, overflowed: bool, now: int, stream: seq<Datum>)
    requires k !in s.flagged && MarkedGaps(Wire(s, k), stream)
    requires !overflowed ==> CaughtUp(Wire(s, k) + Tokens(q.messages), stream)
    ensures LaneOk(StoreQueue(cfg, s, k, q, overflowed, now), k, stream)
  {
    var s1 := s.(queues := s.queues[k := q]);
    MarkKeepsLane(s1, k, now, stream);
  }

  lemma ConcatAssociates(a: seq<Token>, b: seq<Token>, c: seq<Token>)
    ensures a + b + c == a + (b + c)
  {
  }

  lemma EnqueueKeepsFreeLane(cfg: Config, s: State, k: Key, p: Payload, now: int, stream: seq<Datum>)
    requires LaneOk(s, k, stream) && k.client in Subscribers(s, k.channel) && k !in s.flagged
    requires MarkedGaps(Wire(s, k), stream + DataOf(p))
    ensures LaneOk(EnqueueClient(cfg, s, k, p, now), k, stream + DataOf(p))
  {
    hide Append, Trim, Grown, Appended, Overflows, CreateMessage, PayloadTokens, StoreQueue, CaughtUp,
        MarkedGaps, Tokens;
    var w, q := Wire(s, k), QueueOf(s, k);
    if !Overflows(cfg, k.channel, q, p, now) {
      GrownFreeQueue(cfg, k.channel, q, p, now);
      CaughtUpWithPayload(w + Tokens(q.messages), stream, p);
      ConcatAssociates(w, Tokens(q.messages), PayloadTokens(p));
    }
    StoreKeepsFreeLane(cfg, s, k, Grown(cfg, k.channel, q, p, now), Overflows(cfg, k.channel, q, p, now), now,
                       stream + DataOf(p));
  }

  lemma EnqueueKeepsLane(cfg: Config, s: State, k: Key, p: Payload, now: int, stream: seq<Datum>)
    requires LaneOk(s, k, stream) && k.client in Subscribers(s, k.channel)
    requires !Loses(cfg, s, k, p)
    ensures LaneOk(EnqueueClient(cfg, s, k, p, now), k, stream + DataOf(p))
  {
    hide Append, Trim, Grown, Appended, Overflows, CreateMessage, PayloadTokens, CaughtUp, MarkedGaps, EndsMarked,
        Recovering;
    LaneHasMarkedGaps(s, k, stream);
    GapsSurviveGrowth(Wire(s, k), stream, DataOf(p));
    if k !in s.flagged {
      EnqueueKeepsFreeLane(cfg, s, k, p, now, stream);
    } else if p.Control? {
      ControlJoinsRecovery(cfg, k.channel, QueueOf(s, k), p, now);
      assert stream + DataOf(p) == stream;
    }
  }

  // ---- a live send, seen from one subscriber --------------------------------

  lemma EnqueueElsewhere(cfg: Config, s: State, k: Key, p: Payload, now: int, other: Key)
    ensures var s' := EnqueueClient(cfg, s, k, p, now);
            && s'.wire == s.wire && s'.subscribers == s.subscribers
            && (other != k ==> SameLane(s, s', other))
  {
    hide Append, Trim, Grown, Appended, Overflows, CreateMessage;
    var q := QueueOf(s, k);
    StoreElsewhere(cfg, s, k, Grown(cfg, k.channel, q, p, now), Overflows(cfg, k.channel, q, p, now), now, other);
  }

  lemma SendDirectKeepsLane(env: Env, cfg: Config, s: State, k: Key, p: Payload, now: int, stream: seq<Datum>)
    requires LaneOk(s, k, stream) && k.client in Subscribers(s, k.channel)
    requires !HasQueued(s, k)
    ensures LaneOk(SendDirect(env, cfg, s, k, p, now).0, k, stream + DataOf(p))
  {
    hide EnqueueClient, CleanupClient, PayloadTokens, LaneFine, Deliver, Loses;
    TickKeepsLane(s, k, stream);
    match env.send(s.tick) {
      case Accepted => DeliveryKeepsLane(s, k, p, stream);
      case Refused =>
        EmptyIsUnflagged(s, k, stream);
        NothingToLose(cfg, Ticked(s), k, p);
        EnqueueKeepsLane(cfg, Ticked(s), k, p, now, stream);
      case Closed => ClosureKeepsLane(cfg, s, k, p, now, stream);
    }
  }

  lemma TickKeepsLane(s: State, k: Key, stream: seq<Datum>)
    ensures LaneOk(Ticked(s), k, stream) <==> LaneOk(s, k, stream)
    ensures Subscribers(Ticked(s), k.channel) == Subscribers(s, k.channel)
    ensures Ticked(s).flagged == s.flagged && HasQueued(Ticked(s), k) == HasQueued(s, k)
  {
    hide LaneFine;
  }

  lemma EmptyIsUnflagged(s: State, k: Key, stream: seq<Datum>)
    requires LaneOk(s, k, stream) && k.client in Subscribers(s, k.channel) && !HasQueued(s, k)
    ensures k !in s.flagged
  {
    hide MarkedGaps, CaughtUp;
  }

  lemma NothingToLose(cfg: Config, s: State, k: Key, p: Payload)
    requires k !in s.flagged
    ensures !Loses(cfg, s, k, p)
  {
    hide EndsMarked;
  }

  lemma DeliveryKeepsLane(s: State, k: Key, p: Payload, stream: seq<Datum>)
    requires LaneOk(s, k, stream) && k.client in Subscribers(s, k.channel) && !HasQueued(s, k)
    ensures LaneOk(Deliver(Ticked(s), k, PayloadTokens(p)), k, stream + DataOf(p))
  {
    hide CaughtUp, PayloadTokens, MarkedGaps, DataOf;
    var w, q := Wire(s, k), QueueOf(s, k);
    assert q.messages == [] && k !in s.flagged;
    assert w + Tokens(q.messages) == w;
    CaughtUpWithPayload(w, stream, p);
    assert w + PayloadTokens(p) + Tokens(q.messages) == w + PayloadTokens(p);
  }

  lemma ClosureKeepsLane(cfg: Config, s: State, k: Key, p: Payload, now: int, stream: seq<Datum>)
    requires LaneOk(s, k, stream) && k.client in Subscribers(s, k.channel)
    ensures LaneOk(EnqueueClient(cfg, CleanupClient(Ticked(s), k.client), k, p, now), k, stream + DataOf(p))
  {
    hide EnqueueClient, CleanupClient, MarkedGaps, CaughtUp, EndsMarked, DataOf;
    LaneHasMarkedGaps(s, k, stream);
    GapsSurviveGrowth(Wire(s, k), stream, DataOf(p));
    TickKeepsLane(s, k, stream);
    CleanupKeepsLane(Ticked(s), k.client, k, stream);
    CleanupSubscribers(Ticked(s), k.client, k);
    EnqueueElsewhere(cfg, CleanupClient(Ticked(s), k.client), k, p, now, k);
  }

  lemma SendToKeepsLane(env: Env, cfg: Config, s: State, k: Key, p: Payload, now: int, stream: seq<Datum>)
    requires LaneOk(s, k, stream) && k.client in Subscribers(s, k.channel)
    requires !Loses(cfg, s, k, p)
    ensures LaneOk(SendTo(env, cfg, s, k, p, now).0, k, stream + DataOf(p))
  {
    hide EnqueueClient, CleanupClient, SendDirect;
    if k in s.flagged && IsChannelData(p) {
      LaneHasMarkedGaps(s, k, stream);
      GapsSurviveGrowth(Wire(s, k), stream, DataOf(p));
    } else if HasQueued(s, k) {
      EnqueueKeepsLane(cfg, s, k, p, now, stream);
    } else if !IsChannelData(p) {
      SendDirectKeepsLane(env, cfg, s, k, p, now, stream);
    } else if DefersBulk(cfg, s, k.channel, env.buffered(s.tick)) {
      EnqueueKeepsLane(cfg, Ticked(s), k, p, now, stream);
    } else {
      SendDirectKeepsLane(env, cfg, Ticked(s), k, p, now, stream);
    }
  }

  lemma SendToElsewhere(env: Env, cfg: Config, s: State, k: Key, p: Payload, now: int, other: Key)
    requires other.client != k.client
    ensures SameLane(s, SendTo(env, cfg, s, k, p, now).0, other)
  {
    hide EnqueueClient, CleanupClient, SendDirect;
    EnqueueElsewhere(cfg, s, k, p, now, other);
    EnqueueElsewhere(cfg, Ticked(s), k, p, now, other);
    SendDirectElsewhere(env, cfg, s, k, p, now, other);
    SendDirectElsewhere(env, cfg, Ticked(s), k, p, now, other);
  }

  lemma TickAndDeliverElsewhere(s: State, k: Key, ts: seq<Token>, other: Key)
    requires other != k
    ensures SameLane(s, Ticked(s), other) && SameLane(s, Deliver(Ticked(s), k, ts), other)
  {
    hide SameLane, Deliver;
    TickElsewhere(s, other);
    DeliverElsewhere(Ticked(s), k, ts, other);
    SameLaneTwice(s, Ticked(s), Deliver(Ticked(s), k, ts), other);
  }

  lemma TickElsewhere(s: State, k: Key)
    ensures SameLane(s, Ticked(s), k)
  {
  }

  lemma DeliverElsewhere(s: State, k: Key, ts: seq<Token>, other: Key)
    requires other != k
    ensures SameLane(s, Deliver(s, k, ts), other)
  {
  }

  lemma SameLaneTwice(a: State, b: State, c: State, k: Key)
    requires SameLane(a, b, k) && SameLane(b, c, k)
    ensures SameLane(a, c, k)
  {
  }

  lemma SendDirectElsewhere(env: Env, cfg: Config, s: State, k: Key, p: Payload, now: int, other: Key)
    requires other.client != k.client
    ensures SameLane(s, SendDirect(env, cfg, s, k, p, now).0, other)
  {
    hide EnqueueClient, CleanupClient, PayloadTokens, SameLane, Deliver, Ticked;
    var s1 := Ticked(s);
    TickAndDeliverElsewhere(s, k, PayloadTokens(p), other);
    match env.send(s.tick) {
      case Accepted =>
      case Refused =>
        EnqueueElsewhere(cfg, s1, k, p, now, other);
        SameLaneTwice(s, s1, EnqueueClient(cfg, s1, k, p, now), other);
      case Closed =>
        var s2 := CleanupClient(s1, k.client);
        CleanupElsewhere(s1, k.client, other);
        SameLaneTwice(s, s1, s2, other);
        EnqueueElsewhere(cfg, s2, k, p, now, other);
        SameLaneTwice(s, s2, EnqueueClient(cfg, s2, k, p, now), other);
    }
  }

  /** A lane that did not change still misses nothing it did not already miss. */
  lemma SameLaneStaysOk(s: State, s': State, k: Key, stream: seq<Datum>)
    requires SameLane(s, s', k) && LaneOk(s, k, stream)
    ensures LaneOk(s', k, stream)
  {
  }

  /** The fanout loop: the lane waits for its turn unchanged, takes it, and is not touched again. */
  lemma {:induction false} SendAllKeepsLane(env: Env, cfg: Config, s: State, k: Key, p: Payload, clients: seq<Client>,
                                            now: int, stream: seq<Datum>)
    requires LaneOk(s, k, stream) && NoDuplicates(clients)
    requires k.client in clients ==> k.client in Subscribers(s, k.channel) && !Loses(cfg, s, k, p)
    ensures var s' := SendAll(env, cfg, s, k.channel, p, clients, now).0;
            if k.client in clients then LaneOk(s', k, stream + DataOf(p)) else SameLane(s, s', k)
    decreases |clients|
  {
    hide SendTo, LaneOk;
    if clients != [] {
      var turn := Key(clients[0], k.channel);
      var s1 := SendTo(env, cfg, s, turn, p, now).0;
      if turn == k {
        SendToKeepsLane(env, cfg, s, k, p, now, stream);
        SendAllKeepsLane(env, cfg, s1, k, p, clients[1..], now, stream + DataOf(p));
        SameLaneStaysOk(s1, SendAll(env, cfg, s, k.channel, p, clients, now).0, k, stream + DataOf(p));
      } else {
        SendToElsewhere(env, cfg, s, turn, p, now, k);
        SameLaneStaysOk(s, s1, k, stream);
        SendAllKeepsLane(env, cfg, s1, k, p, clients[1..], now, stream);
      }
    }
  }

  // ---- flushing and draining ------------------------------------------------

  lemma ShiftKeepsLane(s: State, k: Key, p: Pumped, stream: seq<Datum>)
    requires k.client in Subscribers(s, k.channel)
    requires 0 < p.sent <= |QueueOf(s, k).messages|
    requires LaneOk(s, k, stream)
    ensures LaneOk(Shift(Deliver(s, k, Tokens(QueueOf(s, k).messages[..p.sent])), k, p), k, stream)
  {
    hide MarkedGaps, EndsMarked, CaughtUp, Tokens;
    var w, q := Wire(s, k), QueueOf(s, k);
    var head, rest := q.messages[..p.sent], q.messages[p.sent..];
    TokensSplit(q.messages, p.sent);
    NoTokens();
    if k in s.flagged {
      RecoveringHead(w, q, p.sent, stream);
      if rest == [] {
        MarkerCatchesUp(w + Tokens(head), [], stream);
      }
      assert w + Tokens(head) + [] == w + Tokens(head);
    } else {
      assert w + Tokens(q.messages) == w + Tokens(head) + Tokens(rest);
      if rest == [] {
        assert w + Tokens(head) + Tokens([]) == w + Tokens(head);
      }
    }
  }

  lemma NoTokens()
    ensures Tokens([]) == []
  {
  }

  /** Delivering the head of a recovering queue leaves the client behind a marker. */
  lemma RecoveringHead(w: seq<Token>, q: Queue, n: nat, stream: seq<Datum>)
    requires 0 < n <= |q.messages| && Recovering(q.messages) && MarkedGaps(w, stream)
    requires MarkerFirst(q.messages) || EndsMarked(w)
    ensures MarkedGaps(w + Tokens(q.messages[..n]), stream) && EndsMarked(w + Tokens(q.messages[..n]))
    ensures Recovering(q.messages[n..])
  {
    hide MarkedGaps, EndsMarked, NoUnits, MessageTokens;
    var head := q.messages[..n];
    NoUnitsInSerialized(head[1..]);
    if MarkerFirst(q.messages) {
      MarkerThenControls(head);
      GapsThenMarker(w, stream);
      CatchUpKeepsGaps(w + [Marker], Tokens(head[1..]), stream);
      EndsMarkedExtends(w + [Marker], Tokens(head[1..]));
      assert w + Tokens(head) == w + [Marker] + Tokens(head[1..]);
    } else {
      NoUnitsInSerialized(head);
      CatchUpKeepsGaps(w, Tokens(head), stream);
      EndsMarkedExtends(w, Tokens(head));
    }
  }

  lemma MarkerThenControls(ms: seq<Message>)
    requires ms != [] && ms[0].Serialized? && ms[0].body == RecoveryRequired
    ensures Tokens(ms) == [Marker] + Tokens(ms[1..])
  {
    TokensSplit(ms, 1);
    assert ms[..1][..0] == [];
    assert Tokens(ms[..1]) == Tokens(ms[..1][..0]) + MessageTokens(ms[0]);
  }

  lemma CatchUpKeepsGaps(w: seq<Token>, rest: seq<Token>, stream: seq<Datum>)
    requires MarkedGaps(w, stream) && EndsMarked(w) && NoUnits(rest)
    ensures MarkedGaps(w + rest, stream)
  {
    MarkerCatchesUp(w, rest, stream);
  }

  lemma FlushedKeepsLane(s: State, k: Key, p: Pumped, stream: seq<Datum>)
    requires k.client in Subscribers(s, k.channel)
    requires p.sent <= |QueueOf(s, k).messages| && (p.closed ==> p.sent < |QueueOf(s, k).messages|)
    requires LaneOk(s, k, stream)
    ensures LaneOk(Flushed(s, k, p), k, stream)
  {
    hide CleanupClient, Shift;
    var s0 := s.(tick := p.tick);
    var ts := Tokens(QueueOf(s, k).messages[..p.sent]);
    if p.sent > 0 {
      ShiftKeepsLane(s0, k, p, stream);
    } else {
      assert ts == [] && Wire(s, k) + ts == Wire(s, k);
    }
    if p.closed {
      LaneHasMarkedGaps(s, k, stream);
      if p.sent > 0 {
        DeliveredHeadHasGaps(s0, k, p, stream);
      }
      CleanupGone(Deliver(s0, k, ts), k, stream);
    }
  }

  lemma CaughtUpHasGaps(seen: seq<Token>, stream: seq<Datum>)
    requires CaughtUp(seen, stream)
    ensures MarkedGaps(seen, stream)
  {
  }

  lemma DeliveredHeadHasGaps(s: State, k: Key, p: Pumped, stream: seq<Datum>)
    requires k.client in Subscribers(s, k.channel)
    requires 0 < p.sent <= |QueueOf(s, k).messages|
    requires LaneOk(s, k, stream)
    ensures MarkedGaps(Wire(s, k) + Tokens(QueueOf(s, k).messages[..p.sent]), stream)
  {
    hide MarkedGaps, CaughtUp, EndsMarked, Tokens, Recovering;
    var w, q := Wire(s, k), QueueOf(s, k);
    if k in s.flagged {
      RecoveringHead(w, q, p.sent, stream);
    } else {
      TokensSplit(q.messages, p.sent);
      assert w + Tokens(q.messages) == w + Tokens(q.messages[..p.sent]) + Tokens(q.messages[p.sent..]);
      CaughtUpHasGaps(w + Tokens(q.messages), stream);
      GapsOfPrefix(w + Tokens(q.messages[..p.sent]), Tokens(q.messages[p.sent..]), stream);
    }
  }

  lemma CleanupGone(s: State, k: Key, stream: seq<Datum>)
    requires MarkedGaps(Wire(s, k), stream)
    ensures LaneOk(CleanupClient(s, k.client), k, stream)
  {
    CleanupSubscribers(s, k.client, k);
  }

  /** Flushing one lane leaves every other lane in order: untouched, or torn down with its client. */
  lemma FlushedElsewhere(s: State, k: Key, p: Pumped, other: Key, stream: seq<Datum>)
    requires other != k && p.sent <= |QueueOf(s, k).messages| && LaneOk(s, other, stream)
    ensures LaneOk(Flushed(s, k, p), other, stream)
  {
    hide CleanupClient, MarkedGaps, EndsMarked, CaughtUp, Recovering, Tokens;
    var s1 := Deliver(s.(tick := p.tick), k, Tokens(QueueOf(s, k).messages[..p.sent]));
    assert SameLane(s, s1, other);
    SameLaneStaysOk(s, s1, other, stream);
    if p.closed {
      CleanupKeepsLane(s1, k.client, other, stream);
    } else if p.sent > 0 {
      SameLaneStaysOk(s1, Shift(s1, k, p), other, stream);
    }
  }

  lemma FlushKeepsLane(env: Env, s: State, k: Key, budget: Option<nat>, other: Key, stream: seq<Datum>)
    requires LaneOk(s, other, stream) && (other == k ==> k.client in Subscribers(s, k.channel))
    ensures LaneOk(Flush(env, s, k, budget).0, other, stream)
  {
    hide Flushed, LaneOk, Pump;
    var ms := QueueOf(s, k).messages;
    if ms != [] {
      var p := Pump(env, s.tick + 1, ms, if env.busy(s.tick) then 1 else |ms|, budget, 0);
      if other == k {
        FlushedKeepsLane(s, k, p, stream);
      } else {
        FlushedElsewhere(s, k, p, other, stream);
      }
    }
  }

  lemma FlushedUnseen(s: State, k: Key, p: Pumped, other: Key)
    requires other.client != k.client && p.sent <= |QueueOf(s, k).messages|
    ensures SameLane(s, Flushed(s, k, p), other)
  {
    hide CleanupClient, Tokens;
    var s1 := Deliver(s.(tick := p.tick), k, Tokens(QueueOf(s, k).messages[..p.sent]));
    CleanupElsewhere(s1, k.client, other);
  }

  lemma FlushElsewhere(env: Env, s: State, k: Key, budget: Option<nat>, other: Key)
    requires other.client != k.client
    ensures SameLane(s, Flush(env, s, k, budget).0, other)
  {
    hide Flushed, Pump;
    var ms := QueueOf(s, k).messages;
    if ms != [] {
      FlushedUnseen(s, k, Pump(env, s.tick + 1, ms, if env.busy(s.tick) then 1 else |ms|, budget, 0), other);
    }
  }

  lemma CountPassKeepsLane(env: Env, s: State, k: Key, other: Key, stream: seq<Datum>)
    requires LaneOk(s, other, stream)
    ensures LaneOk(CountPass(env, s, k), other, stream)
    ensures other != k ==> SameLane(s, CountPass(env, s, k), other)
  {
    hide LaneFine;
  }

  lemma DegradeKeepsLane(cfg: Config, s: State, k: Key, now: int, other: Key, stream: seq<Datum>)
    requires LaneOk(s, other, stream)
    ensures LaneOk(MaybeDegrade(cfg, s, k, now), other, stream)
    ensures other != k ==> SameLane(s, MaybeDegrade(cfg, s, k, now), other)
  {
    LaneHasMarkedGaps(s, other, stream);
    hide LaneFine;
    if k !in s.flagged && other == k {
      MarkKeepsLane(s, k, now, stream);
    }
  }

  lemma DrainClientKeepsLane(env: Env, cfg: Config, s: State, k: Key, budget: Option<nat>, now: int, other: Key,
                             stream: seq<Datum>)
    requires LaneOk(s, other, stream) && (other == k ==> k.client in Subscribers(s, k.channel))
    ensures LaneOk(DrainClient(env, cfg, s, k, budget, now), other, stream)
    ensures other.client != k.client ==> SameLane(s, DrainClient(env, cfg, s, k, budget, now), other)
  {
    hide Flush, CountPass, MaybeDegrade, LaneOk;
    var (s1, progress) := Flush(env, s, k, budget);
    FlushKeepsLane(env, s, k, budget, other, stream);
    var s2 := if progress then s1 else CountPass(env, s1, k);
    CountPassKeepsLane(env, s1, k, other, stream);
    DegradeKeepsLane(cfg, s2, k, now, other, stream);
    if other.client != k.client {
      FlushElsewhere(env, s, k, budget, other);
    }
  }

  lemma {:induction false} DrainClientsKeepLane(env: Env, cfg: Config, s: State, ch: Channel, clients: seq<Client>,
                                                budget: Option<nat>, now: int, k: Key, stream: seq<Datum>)
    requires LaneOk(s, k, stream) && NoDuplicates(clients)
    requires k.channel == ch && k.client in clients ==> k.client in Subscribers(s, ch)
    ensures LaneOk(DrainClients(env, cfg, s, ch, clients, budget, now).0, k, stream)
    decreases |clients|
  {
    hide DrainClient, LaneOk;
    if clients != [] {
      var turn := Key(clients[0], ch);
      var s1 := DrainClient(env, cfg, s, turn, budget, now);
      DrainClientKeepsLane(env, cfg, s, turn, budget, now, k, stream);
      DrainClientsKeepLane(env, cfg, s1, ch, clients[1..], budget, now, k, stream);
    }
  }
}
