/** What every step of `ControlLane` keeps: order, byte accounting, armed timers, cheap dequeues. */
module ControlLaneProofs {
  import opened Common
  import opened ControlLane

  // ---- message streams ----------------------------------------------------

  function Messages(hs: seq<Handed>): (r: seq<Message>) {
    seq(|hs|, i requires 0 <= i < |hs| => hs[i].msg)
  }

  function EntryMessages(es: seq<Entry>): (r: seq<Message>) {
    seq(|es|, i requires 0 <= i < |es| => es[i].msg)
  }

  function Broadcasts(ms: seq<Message>): seq<Message> {
    if ms == [] then []
    else
      var last := ms[|ms| - 1];
      Broadcasts(ms[..|ms| - 1]) + (if last.kind == Broadcast then [last] else [])
  }

  lemma BroadcastsAppend(ms: seq<Message>, m: Message)
    ensures Broadcasts(ms + [m]) == Broadcasts(ms) + (if m.kind == Broadcast then [m] else [])
  {
    assert (ms + [m])[..|ms|] == ms;
  }

  lemma {:induction false} BroadcastsPrefix(xs: seq<Message>, ys: seq<Message>)
    requires xs <= ys
    ensures Broadcasts(xs) <= Broadcasts(ys)
    decreases |ys|
  {
    if |xs| < |ys| {
      BroadcastsPrefix(xs, ys[..|ys| - 1]);
    } else {
      assert xs == ys;
    }
  }

  function SumSizes(es: seq<Entry>): int {
    if es == [] then 0 else es[0].msg.size + SumSizes(es[1..])
  }

  lemma {:induction false} SumAppend(es: seq<Entry>, e: Entry)
    ensures SumSizes(es + [e]) == SumSizes(es) + e.msg.size
  {
    if es != [] {
      assert (es + [e])[1..] == es[1..] + [e];
      SumAppend(es[1..], e);
    }
  }

  // ---- the invariant --------------------------------------------------------

  predicate InDueOrder(es: seq<Entry>) {
    forall i, j :: 0 <= i < j < |es| ==> es[i].dueAt <= es[j].dueAt
  }

  /** Live entries in due order, an exact byte count within the limit, few consumed slots. */
  predicate QueueOk(d: Delayed) {
    && d.head <= |d.queue|
    && InDueOrder(d.queue[d.head..])
    && d.total == SumSizes(d.queue[d.head..]) <= BACKPRESSURE_MAX_BYTES
    && d.head < Max(COMPACT_FROM, |d.queue| - d.head)
  }

  /** Between turns a state without live entries is fresh, and live entries have the timer armed. */
  predicate TimerOk(d: Delayed) {
    if d.head == |d.queue| then d.queue == [] else d.timer.Some?
  }

  /** First in, first out: what was accepted is what was handed over, then what waits. */
  predicate FlowOk(l: Lane) {
    && HeadOk(l)
    && if l.registered then l.accepted == Messages(l.handed) + EntryMessages(Live(l))
       else Messages(l.handed) <= l.accepted && l.delayed.None? && !l.open
  }

  predicate BatchOk(l: Lane) {
    && (if l.registered then l.queued == Broadcasts(l.accepted) + l.batch
        else Broadcasts(l.accepted) <= l.queued && l.batch == [])
    && (forall i :: 0 <= i < |l.batch| ==> l.batch[i].kind == Broadcast)
  }

  predicate DueOk(l: Lane) {
    forall i :: 0 <= i < |l.handed| && l.handed[i].due.Some? ==> l.handed[i].due.value <= l.handed[i].at
  }

  function Head(l: Lane): nat {
    if l.delayed.Some? then l.delayed.value.head else 0
  }

  predicate CopyOk(l: Lane) {
    l.copied + Head(l) <= l.dequeued
  }

  /** Kept inside a drain as well. */
  predicate CoreOk(l: Lane) {
    FlowOk(l) && BatchOk(l) && DueOk(l) && CopyOk(l) && (l.delayed.Some? ==> QueueOk(l.delayed.value))
  }

  predicate Inv(l: Lane) {
    && CoreOk(l)
    && (l.delayed.Some? ==> TimerOk(l.delayed.value))
    && (l.batch != [] <==> l.batchTimer)
  }

  // ---- single sends ---------------------------------------------------------

  lemma TearDownKeepsCore(l: Lane)
    requires CoreOk(l)
    ensures CoreOk(TearDown(l))
  {
    if l.registered {
      assert Messages(l.handed) <= l.accepted;
    }
  }

  lemma MessagesAppend(hs: seq<Handed>, h: Handed)
    ensures Messages(hs + [h]) == Messages(hs) + [h.msg]
  {
  }

  /** Without a delayed queue a direct hand-over keeps the order. */
  lemma DirectSendKeepsFlow(l: Lane, msg: Message, a: Answer)
    requires FlowOk(l) && l.delayed.None? && l.open
    ensures FlowOk(l.(handed := l.handed + [Handed(msg, a.now, None)], accepted := l.accepted + [msg]))
  {
    MessagesAppend(l.handed, Handed(msg, a.now, None));
    assert EntryMessages([]) == [];
  }

  lemma PushKeepsQueue(d: Delayed, msg: Message, a: Answer)
    requires QueueOk(d) && TimerOk(d) && d.total + a.buffered + msg.size <= BACKPRESSURE_MAX_BYTES
    ensures QueueOk(Push(d, msg, a)) && TimerOk(Push(d, msg, a))
    ensures EntryMessages(Push(d, msg, a).queue[d.head..]) == EntryMessages(d.queue[d.head..]) + [msg]
    ensures Push(d, msg, a).head == d.head <= |Push(d, msg, a).queue|
  {
    hide InDueOrder;
    var d' := Push(d, msg, a);
    var e := d'.queue[|d.queue|];
    assert d'.queue[d.head..] == d.queue[d.head..] + [e];
    SumAppend(d.queue[d.head..], e);
    var live := d.queue[d.head..];
    assert live != [] ==> live[|live| - 1] == d.queue[|d.queue| - 1];
    PushKeepsOrder(live, e);
  }

  lemma PushKeepsOrder(es: seq<Entry>, e: Entry)
    requires InDueOrder(es) && (es != [] ==> es[|es| - 1].dueAt <= e.dueAt)
    ensures InDueOrder(es + [e])
  {
  }

  lemma FreshStateOk()
    ensures QueueOk(Delayed([], 0, None, 0)) && TimerOk(Delayed([], 0, None, 0))
  {
  }

  lemma PushKeepsFlow(l: Lane, msg: Message, a: Answer)
    requires FlowOk(l) && l.open && (l.delayed.Some? ==> QueueOk(l.delayed.value) && TimerOk(l.delayed.value))
    requires DelayedState(l).total + a.buffered + msg.size <= BACKPRESSURE_MAX_BYTES
    ensures FlowOk(l.(delayed := Some(Push(DelayedState(l), msg, a)), accepted := l.accepted + [msg]))
  {
    hide QueueOk, TimerOk, Push;
    FreshStateOk();
    var d := DelayedState(l);
    PushKeepsQueue(d, msg, a);
    assert Live(l) == d.queue[d.head..];
    assert Live(l.(delayed := Some(Push(d, msg, a)))) == Push(d, msg, a).queue[d.head..];
  }

  lemma LingeringKeepsFlow(l: Lane)
    requires FlowOk(l) && l.open
    ensures FlowOk(l.(delayed := Some(DelayedState(l))))
  {
  }

  /** The batch aside, a send keeps the invariant; a sent message is the last accepted one. */
  predicate SendInv(l: Lane) {
    && FlowOk(l) && DueOk(l) && CopyOk(l)
    && (l.delayed.Some? ==> QueueOk(l.delayed.value) && TimerOk(l.delayed.value))
  }

  lemma TearDownKeepsSendInv(l: Lane)
    requires SendInv(l)
    ensures SendInv(TearDown(l))
  {
    if l.registered {
      assert Messages(l.handed) <= l.accepted;
    }
  }

  lemma DirectKeepsSendInv(l: Lane, msg: Message, a: Answer)
    requires SendInv(l) && l.delayed.None? && l.open
    ensures SendInv(l.(handed := l.handed + [Handed(msg, a.now, None)], accepted := l.accepted + [msg]))
  {
    hide FlowOk;
    DirectSendKeepsFlow(l, msg, a);
  }

  lemma DelayedKeepsSendInv(l: Lane, msg: Message, a: Answer)
    requires SendInv(l) && l.open
    ensures var r := QueueDelayed(l, msg, a);
            if r.1 == Sent then SendInv(r.0.(accepted := l.accepted + [msg])) else SendInv(r.0)
  {
    hide FlowOk, QueueOk, TimerOk, Push;
    FreshStateOk();
    var d := DelayedState(l);
    if d.total + a.buffered + msg.size > BACKPRESSURE_MAX_BYTES {
      LingeringKeepsFlow(l);
    } else {
      PushKeepsQueue(d, msg, a);
      PushKeepsFlow(l, msg, a);
    }
  }

  lemma SendKeepsInv(l: Lane, msg: Message, a: Answer)
    requires SendInv(l)
    ensures SendInv(SendSafely(l, msg, a).0)
  {
    hide SendInv, Push;
    TearDownKeepsSendInv(l);
    if l.open {
      DelayedKeepsSendInv(l, msg, a);
      if l.delayed.None? {
        DirectKeepsSendInv(l, msg, a);
      }
    }
  }

  lemma SendOutcome(l: Lane, msg: Message, a: Answer)
    requires FlowOk(l)
    ensures var r := SendSafely(l, msg, a);
            && r.0.queued == l.queued
            && (r.1 == Sent ==> r.0.accepted == l.accepted + [msg] && r.0.registered == l.registered
                                && r.0.batch == l.batch && r.0.batchTimer == l.batchTimer && l.registered)
            && (r.1 == Backpressure ==> r.0.accepted == l.accepted && r.0.registered == l.registered
                                        && r.0.batch == l.batch && r.0.batchTimer == l.batchTimer)
            && (r.1 == NotOpen || r.1 == SendError ==> r.0 == TearDown(l))
  {
    hide Push;
  }

  // ---- draining ---------------------------------------------------------------

  lemma TakeKeepsQueue(l: Lane, d: Delayed)
    requires QueueOk(d) && d.head < |d.queue|
    ensures TakeHead(l, d).delayed.Some?
    ensures var d' := TakeHead(l, d).delayed.value;
            && QueueOk(d') && d'.head <= |d'.queue| && d'.queue[d'.head..] == d.queue[d.head..][1..]
            && d'.timer == d.timer && TakeHead(l, d).copied + d'.head <= l.copied + d.head + 1
            && TakeHead(l, d).dequeued == l.dequeued + 1
  {
    hide InDueOrder, TakeHead;
    var live := d.queue[d.head..];
    TakeCounts(l, d);
    TakeLive(l, d);
    SumIsNat(live[1..]);
    TailKeepsOrder(live);
  }

  lemma TakeCounts(l: Lane, d: Delayed)
    requires d.head < |d.queue| && d.head < Max(COMPACT_FROM, |d.queue| - d.head)
    ensures TakeHead(l, d).delayed.Some?
    ensures var d' := TakeHead(l, d).delayed.value;
            && d'.head <= |d'.queue| && d'.head < Max(COMPACT_FROM, |d'.queue| - d'.head) && d'.timer == d.timer
            && TakeHead(l, d).copied + d'.head <= l.copied + d.head + 1
            && TakeHead(l, d).dequeued == l.dequeued + 1
  {
  }

  lemma TakeLive(l: Lane, d: Delayed)
    requires d.head < |d.queue|
    ensures TakeHead(l, d).delayed.Some?
    ensures var d' := TakeHead(l, d).delayed.value;
            && d'.head <= |d'.queue| && d'.queue[d'.head..] == d.queue[d.head..][1..]
            && d'.total == d.total - d.queue[d.head..][0].msg.size
  {
    assert d.queue[d.head..][1..] == d.queue[d.head + 1..];
    assert d.queue[d.head + 1..][0..] == d.queue[d.head + 1..];
  }

  lemma {:induction false} SumIsNat(es: seq<Entry>)
    ensures SumSizes(es) >= 0
  {
    if es != [] {
      SumIsNat(es[1..]);
    }
  }

  lemma TailKeepsOrder(es: seq<Entry>)
    requires InDueOrder(es) && es != []
    ensures InDueOrder(es[1..])
  {
  }

  lemma EntryMessagesHead(es: seq<Entry>)
    requires es != []
    ensures EntryMessages(es) == [es[0].msg] + EntryMessages(es[1..])
  {
  }

  lemma TakeKeepsFlow(l: Lane, d: Delayed, at: int)
    requires FlowOk(l) && l.delayed == Some(d) && QueueOk(d) && d.head < |d.queue|
    ensures var e := d.queue[d.head];
            FlowOk(TakeHead(l.(handed := l.handed + [Handed(e.msg, at, Some(e.dueAt))]), d))
  {
    hide QueueOk, TakeHead, Messages, EntryMessages;
    var e := d.queue[d.head];
    var h := Handed(e.msg, at, Some(e.dueAt));
    TakeKeepsQueue(l.(handed := l.handed + [h]), d);
    TakeTouches(l.(handed := l.handed + [h]), d);
    MessagesAppend(l.handed, h);
    EntryMessagesHead(Live(l));
    var l' := TakeHead(l.(handed := l.handed + [h]), d);
    assert Live(l') == Live(l)[1..];
    if l.registered {
      assert l'.accepted == Messages(l.handed) + ([e.msg] + EntryMessages(Live(l)[1..]));
    }
  }

  lemma TakeTouches(l: Lane, d: Delayed)
    requires d.head < |d.queue|
    ensures var l' := TakeHead(l, d);
            l' == l.(delayed := l'.delayed, dequeued := l'.dequeued, copied := l'.copied)
  {
  }

  /** One message leaves the delayed queue. */
  lemma TakeKeepsCore(l: Lane, d: Delayed, at: int)
    requires CoreOk(l) && l.delayed == Some(d) && d.head < |d.queue| && d.queue[d.head].dueAt <= at
    ensures var e := d.queue[d.head];
            CoreOk(TakeHead(l.(handed := l.handed + [Handed(e.msg, at, Some(e.dueAt))]), d))
  {
    hide QueueOk, FlowOk;
    var h := Handed(d.queue[d.head].msg, at, Some(d.queue[d.head].dueAt));
    TakeKeepsQueue(l.(handed := l.handed + [h]), d);
    TakeKeepsFlow(l, d, at);
  }

  predicate Rested(l: Lane) {
    l.delayed.Some? ==> TimerOk(l.delayed.value)
  }

  lemma {:induction false} DrainFromKeepsCore(l: Lane, answers: seq<Answer>)
    requires CoreOk(l) && |answers| >= |Live(l)|
    ensures CoreOk(DrainFrom(l, answers)) && Rested(DrainFrom(l, answers))
    ensures var r := DrainFrom(l, answers);
            (r.batch == l.batch && r.batchTimer == l.batchTimer) || (r.batch == [] && !r.batchTimer)
    decreases |answers|
  {
    hide FlowOk, BatchOk, DueOk, CopyOk, QueueOk;
    if l.delayed.Some? {
      var d := l.delayed.value;
      HeadInRange(l);
      if d.head == |d.queue| {
        EmptyDrops(l);
      } else if d.queue[d.head].dueAt > answers[0].now {
        ArmKeepsCore(l, Max(answers[0].now, d.queue[d.head].dueAt));
      } else {
        var e := d.queue[d.head];
        var r := SendNow(l, e.msg, answers[0], Some(e.dueAt));
        match r.1 {
          case Sent =>
            TakeKeepsCore(l, d, answers[0].now);
            TakenIsShorter(r.0, d);
            DrainFromKeepsCore(TakeHead(r.0, d), answers[1..]);
          case Backpressure => ArmKeepsCore(l, answers[0].now + RETRY_INTERVAL_MS);
          case _ => TearDownKeepsCore(l);
        }
      }
    }
  }

  lemma HeadInRange(l: Lane)
    requires CoreOk(l)
    ensures l.delayed.Some? ==> l.delayed.value.head <= |l.delayed.value.queue|
  {
  }

  lemma TakenIsShorter(l: Lane, d: Delayed)
    requires d.head < |d.queue|
    ensures HeadOk(TakeHead(l, d)) && |Live(TakeHead(l, d))| == |d.queue| - d.head - 1
  {
  }

  lemma EmptyDrops(l: Lane)
    requires CoreOk(l) && l.delayed.Some? && l.delayed.value.head == |l.delayed.value.queue|
    ensures CoreOk(l.(delayed := None))
  {
    assert Live(l) == [] && EntryMessages([]) == [];
  }

  lemma ArmKeepsCore(l: Lane, at: int)
    requires CoreOk(l) && l.delayed.Some? && l.delayed.value.head < |l.delayed.value.queue|
    ensures var l' := l.(delayed := Some(Arm(l.delayed.value, at))); CoreOk(l') && Rested(l')
  {
    hide InDueOrder;
  }

  lemma DrainKeepsInv(l: Lane, answers: seq<Answer>)
    requires Inv(l) && Enabled(l, DrainTimer(answers))
    ensures Inv(Drain(l, answers))
  {
    hide FlowOk, BatchOk, DueOk, CopyOk, QueueOk, DrainFrom;
    TearDownKeepsCore(l);
    if l.open {
      DisarmKeepsCore(l);
      DrainFromKeepsCore(l.(delayed := Some(l.delayed.value.(timer := None))), answers);
    }
  }

  lemma DisarmKeepsCore(l: Lane)
    requires CoreOk(l) && l.delayed.Some?
    ensures var l' := l.(delayed := Some(l.delayed.value.(timer := None))); CoreOk(l') && Live(l') == Live(l)
  {
    hide InDueOrder;
  }

  // ---- flushing -----------------------------------------------------------------

  lemma FlushSent(l: Lane, r: Lane, msg: Message)
    requires BatchOk(l) && l.batch != [] && msg == l.batch[0] && l.registered
    requires r.queued == l.queued && r.accepted == l.accepted + [msg] && r.registered
    ensures BatchOk(r.(batch := l.batch[1..]))
  {
    BroadcastsAppend(l.accepted, msg);
    assert l.batch == [msg] + l.batch[1..];
  }

  lemma TornBatchOk(l: Lane, r: Lane)
    requires BatchOk(l) && r.queued == l.queued && r.accepted == l.accepted && !r.registered && r.batch == []
    ensures BatchOk(r)
  {
  }

  lemma {:induction false} FlushKeepsInv(l: Lane, answers: seq<Answer>)
    requires SendInv(l) && BatchOk(l) && |answers| >= |l.batch| && !l.batchTimer
    ensures SendInv(Flush(l, answers)) && BatchOk(Flush(l, answers))
    ensures Flush(l, answers).batch == [] && !Flush(l, answers).batchTimer
    decreases |answers|
  {
    hide SendInv, BatchOk, SendSafely;
    if l.batch == [] {
      FlagsKeepInv(l, l.batch, false);
    } else {
      var msg := l.batch[0];
      var r := SendSafely(l, msg, answers[0]);
      SendKeepsInv(l, msg, answers[0]);
      FlowOfSend(l);
      SendOutcome(l, msg, answers[0]);
      if r.1 == Sent {
        FlushSent(l, r.0, msg);
        FlagsKeepInv(r.0.(batch := l.batch[1..]), l.batch[1..], r.0.batchTimer);
        BatchIsNoSend(r.0, l.batch[1..]);
        FlushKeepsInv(r.0.(batch := l.batch[1..]), answers[1..]);
      } else {
        var t := SendBatched(l, msg, answers[0]).0;
        TearDownKeepsSendInv(r.0);
        assert !t.registered && t.batch == [];
        TornBatchOk(l, t);
        BatchIsNoSend(t, []);
        FlagsKeepInv(t, [], false);
      }
    }
  }

  lemma FlowOfSend(l: Lane)
    requires SendInv(l)
    ensures FlowOk(l)
  {
  }

  lemma BatchIsNoSend(l: Lane, batch: seq<Message>)
    requires SendInv(l)
    ensures SendInv(l.(batch := batch)) && SendInv(l.(batch := batch, batchTimer := false))
  {
  }

  lemma FlagsKeepInv(l: Lane, batch: seq<Message>, timer: bool)
    requires BatchOk(l) && batch == l.batch
    ensures BatchOk(l.(batch := batch, batchTimer := timer))
    ensures SendInv(l) ==> SendInv(l.(batch := batch, batchTimer := timer))
  {
  }

  // ---- all steps ------------------------------------------------------------------

  lemma InvParts(l: Lane)
    ensures Inv(l) <==> SendInv(l) && BatchOk(l) && (l.batch != [] <==> l.batchTimer)
  {
    hide FlowOk, BatchOk, DueOk, CopyOk, QueueOk, TimerOk;
  }

  lemma DirectKeepsInv(l: Lane, msg: Message, a: Answer)
    requires Inv(l) && msg.kind == Direct
    ensures Inv(SendSafely(l, msg, a).0)
  {
    hide SendInv, SendSafely, Inv, FlowOk;
    InvParts(l);
    SendKeepsInv(l, msg, a);
    FlowOfSend(l);
    SendOutcome(l, msg, a);
    BroadcastsAppend(l.accepted, msg);
    InvParts(SendSafely(l, msg, a).0);
  }

  lemma StepKeepsInv(l: Lane, e: Event)
    requires Inv(l) && Enabled(l, e)
    ensures Inv(Step(l, e))
  {
    match e {
      case QueueMessage(msg) => QueueKeepsInv(l, msg);
      case FlushBatch(answers) => FlushStepKeepsInv(l, answers);
      case SendDirect(msg, a) => DirectKeepsInv(l, msg, a);
      case DrainTimer(answers) => DrainKeepsInv(l, answers);
      case SocketCloses => CloseKeepsInv(l);
      case Disconnect => TearDownKeepsCore(l);
    }
  }

  lemma FlushStepKeepsInv(l: Lane, answers: seq<Answer>)
    requires Inv(l) && |answers| >= |l.batch|
    ensures Inv(FlushStep(l, answers))
  {
    hide SendInv, BatchOk, Inv, Flush;
    InvParts(l);
    FlagsKeepInv(l, l.batch, false);
    FlushKeepsInv(l.(batchTimer := false), answers);
    InvParts(FlushStep(l, answers));
  }

  lemma QueueKeepsInv(l: Lane, msg: Message)
    requires Inv(l) && l.registered && msg.kind == Broadcast
    ensures Inv(Step(l, QueueMessage(msg)))
  {
    hide QueueOk, TimerOk;
  }

  lemma CloseKeepsInv(l: Lane)
    requires Inv(l)
    ensures Inv(l.(open := false))
  {
    hide QueueOk, TimerOk;
  }

  lemma {:induction false} RunKeepsInv(l: Lane, events: seq<Event>)
    requires Inv(l)
    ensures Inv(Run(l, events))
    decreases |events|
  {
    hide Step, Inv, Enabled;
    if events != [] {
      if Enabled(l, events[0]) {
        StepKeepsInv(l, events[0]);
        RunKeepsInv(Step(l, events[0]), events[1..]);
      } else {
        RunKeepsInv(l, events[1..]);
      }
    }
  }

  lemma Reachable(events: seq<Event>)
    ensures Inv(Run(INIT, events))
  {
    hide Run;
    assert Messages([]) == [] && EntryMessages([]) == [];
    RunKeepsInv(INIT, events);
  }

  // ---- the guarantees ----------------------------------------------------------------

  /** The broadcasts handed to the socket are a prefix of those queued, in order and once each. While the
      client is connected the rest of them wait, first in the delayed queue, then in the batch. */
  lemma HoleFreeBroadcasts(events: seq<Event>)
    ensures var l := Run(INIT, events);
            && Broadcasts(Messages(l.handed)) <= l.queued
            && (l.registered && l.delayed.None? ==> Broadcasts(Messages(l.handed)) + l.batch == l.queued)
            && HeadOk(l)
            && (l.registered ==> Broadcasts(Messages(l.handed) + EntryMessages(Live(l))) + l.batch == l.queued)
  {
    hide QueueOk, TimerOk, DueOk, CopyOk, Run;
    Reachable(events);
    var l := Run(INIT, events);
    BroadcastsPrefix(Messages(l.handed), l.accepted);
    if l.registered && l.delayed.None? {
      assert l.accepted == Messages(l.handed);
    }
  }

  /** Everything the lane accepts, broadcast or not, is handed over in the order it was accepted: a direct
      send never overtakes the delayed queue. */
  lemma FirstInFirstOut(events: seq<Event>)
    ensures var l := Run(INIT, events);
            && Messages(l.handed) <= l.accepted && HeadOk(l)
            && (l.registered ==> l.accepted == Messages(l.handed) + EntryMessages(Live(l)))
  {
    hide QueueOk, TimerOk, DueOk, CopyOk, BatchOk, Run;
    Reachable(events);
    var l := Run(INIT, events);
    if l.registered {
      assert Messages(l.handed) <= l.accepted;
    }
  }

  /** Due times never decrease along the live queue, nothing was sent before it was due, and the byte count
      is exact and at most 1 MiB. */
  lemma DelaysAndBytes(events: seq<Event>, i: nat)
    ensures var l := Run(INIT, events);
            && (i < |l.handed| && l.handed[i].due.Some? ==> l.handed[i].due.value <= l.handed[i].at)
            && HeadOk(l)
            && (l.delayed.Some? ==>
                  && l.delayed.value.total == SumSizes(Live(l)) <= BACKPRESSURE_MAX_BYTES
                  && (0 < i < |Live(l)| ==> Live(l)[i - 1].dueAt <= Live(l)[i].dueAt))
  {
    hide TimerOk, CopyOk, BatchOk, Run;
    Reachable(events);
  }

  /** No message is stranded: a waiting batch has its timer, a waiting delayed entry has its timer. */
  lemma WaitingMeansTimed(events: seq<Event>)
    ensures var l := Run(INIT, events);
            && HeadOk(l)
            && (l.batch != [] <==> l.batchTimer)
            && (Live(l) != [] ==> l.delayed.value.timer.Some?)
  {
    hide QueueOk, DueOk, CopyOk, BatchOk, Run;
    Reachable(events);
  }

  /** Compaction copies no more entries over a run than were dequeued, and the consumed slots kept are
      always fewer than 1024 or than the live entries. */
  lemma AmortisedDequeue(events: seq<Event>)
    ensures var l := Run(INIT, events);
            && l.copied <= l.dequeued
            && (l.delayed.Some? ==>
                  l.delayed.value.head < Max(COMPACT_FROM, |l.delayed.value.queue| - l.delayed.value.head))
  {
    hide TimerOk, DueOk, FlowOk, BatchOk, Run;
    Reachable(events);
  }
}
