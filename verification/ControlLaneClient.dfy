/** One client's batch record and delayed-send record, changed in place, with the loops that flush and
    drain them; proved against `ControlLane`. */
module ControlLaneClient {
  import opened Common
  import opened ControlLane
  import opened ControlLaneProofs

  class ControlLaneForClient {
    var messages: seq<Message>
    var batchTimer: bool
    var hasDelayedState: bool
    var queue: seq<Entry>
    var queueHead: nat
    var timer: Option<int>
    var totalBytes: int
    var open: bool
    var registered: bool
    var handed: seq<Handed>
    ghost var queued: seq<Message>
    ghost var accepted: seq<Message>
    ghost var dequeued: nat
    ghost var copied: nat

    ghost function State(): Lane
      reads this
    {
      Lane(messages, batchTimer, if hasDelayedState then Some(DelayedNow()) else None, open, registered, handed,
           queued, accepted, dequeued, copied)
    }

    ghost function DelayedNow(): Delayed
      reads this
    {
      Delayed(queue, queueHead, timer, totalBytes)
    }

    /** Nothing was lost or overtaken, due times are in order, bytes are counted and timers armed. */
    ghost predicate Valid()
      reads this
    {
      Inv(State())
    }

    constructor ()
      ensures State() == INIT && Valid()
    {
      messages, batchTimer, hasDelayedState, queue, queueHead, timer, totalBytes := [], false, false, [], 0, None, 0;
      open, registered, handed, queued, accepted, dequeued, copied := true, true, [], [], [], 0, 0;
    }

    method ClearDelayedState()
      modifies this`hasDelayedState, this`queue, this`queueHead, this`timer, this`totalBytes
      ensures !hasDelayedState && DelayedNow() == Delayed([], 0, None, 0)
    {
      hasDelayedState, queue, queueHead, timer, totalBytes := false, [], 0, None, 0;
    }

    method CleanupClient()
      modifies this
      ensures State() == TearDown(old(State()))
    {
      messages, batchTimer, open, registered := [], false, false, false;
      ClearDelayedState();
    }

    method SendNow(msg: Message, a: Answer, due: Option<int>) returns (result: SendResult)
      modifies this
      ensures (State(), result) == ControlLane.SendNow(old(State()), msg, a, due)
    {
      if !open {
        CleanupClient();
        return NotOpen;
      }
      if a.buffered > BACKPRESSURE_MAX_BYTES {
        return Backpressure;
      }
      if !a.sendOk {
        CleanupClient();
        return SendError;
      }
      handed := handed + [Handed(msg, a.now, due)];
      return Sent;
    }

    method ArmTimer(at: int)
      modifies this`timer
      ensures DelayedNow() == Arm(old(DelayedNow()), at)
    {
      if timer.None? {
        timer := Some(at);
      }
    }

    method QueueDelayedSend(msg: Message, a: Answer) returns (result: SendResult)
      modifies this
      ensures (State(), result) == QueueDelayed(old(State()), msg, a)
    {
      if !open {
        CleanupClient();
        return NotOpen;
      }
      if !hasDelayedState {
        ClearDelayedState();
        hasDelayedState := true;
      }
      if totalBytes + a.buffered + msg.size > BACKPRESSURE_MAX_BYTES {
        return Backpressure;
      }
      var dueAt := Max(if queue == [] then a.now else queue[|queue| - 1].dueAt, a.now + a.delayMs);
      queue := queue + [Entry(msg, dueAt)];
      totalBytes := totalBytes + msg.size;
      if queueHead < |queue| {
        ArmTimer(Max(a.now, queue[queueHead].dueAt));
      }
      return Sent;
    }

    /** The common entry: whether the message was taken, now or later. */
    method SendSafely(msg: Message, a: Answer) returns (result: SendResult)
      modifies this
      ensures (State(), result) == ControlLane.SendSafely(old(State()), msg, a)
    {
      hide QueueDelayed, ControlLane.SendNow;
      if a.delayMs > 0 || hasDelayedState {
        result := QueueDelayedSend(msg, a);
      } else {
        result := SendNow(msg, a, None);
      }
      if result == Sent {
        accepted := accepted + [msg];
      }
    }

    /** Constant-time dequeue that now and then releases the consumed slots. */
    method TakeQueueHead() returns (entry: Entry)
      requires hasDelayedState && queueHead < |queue|
      modifies this`queue, this`queueHead, this`totalBytes, this`dequeued, this`copied
      ensures entry == old(queue)[old(queueHead)]
      ensures State() == TakeHead(old(State()), old(DelayedNow()))
    {
      entry := queue[queueHead];
      queueHead := queueHead + 1;
      dequeued := dequeued + 1;
      if queueHead >= COMPACT_FROM && queueHead * 2 >= |queue| {
        copied := copied + |queue| - queueHead;
        queue := queue[queueHead..];
        queueHead := 0;
      }
      totalBytes := totalBytes - entry.msg.size;
    }

    method DrainDelayedQueue(answers: seq<Answer>)
      requires HeadOk(State()) && |answers| >= |Live(State())|
      modifies this
      ensures State() == Drain(old(State()), answers)
    {
      hide DrainFrom, DrainOne;
      if !hasDelayedState {
        return;
      }
      if !open {
        CleanupClient();
        return;
      }
      timer := None;
      var i := 0;
      while queueHead < |queue|
        invariant i <= |answers| && hasDelayedState && queueHead <= |queue|
        invariant |answers| - i >= |queue| - queueHead
        invariant DrainFrom(State(), answers[i..]) == Drain(old(State()), answers)
        decreases |queue| - queueHead
      {
        DrainNext(State(), answers, i);
        var more := DrainHead(answers[i]);
        if !more {
          return;
        }
        i := i + 1;
      }
      DrainedEmpty(State(), answers[i..]);
      ClearDelayedState();
    }

    /** One entry at the head: sent, not due yet, or held up. */
    method DrainHead(a: Answer) returns (more: bool)
      requires hasDelayedState && queueHead < |queue|
      modifies this
      ensures (State(), more) == DrainOne(old(State()), a)
      ensures more ==> hasDelayedState && queueHead <= |queue|
                       && |queue| - queueHead == |old(queue)| - old(queueHead) - 1
    {
      hide ControlLane.SendNow, TakeHead;
      var e := queue[queueHead];
      if e.dueAt > a.now {
        ArmTimer(Max(a.now, e.dueAt));
        return false;
      }
      ghost var before := State();
      var result := SendNow(e.msg, a, Some(e.dueAt));
      SendNowKeepsQueue(before, e.msg, a, Some(e.dueAt));
      if result != Sent {
        if result == Backpressure {
          ArmTimer(a.now + RETRY_INTERVAL_MS);
        }
        return false;
      }
      TakenOneFewer(State(), DelayedNow());
      var taken := TakeQueueHead();
      return true;
    }

    /** Sends the batch in order; the batch itself is replaced only at the end. */
    method FlushClientBatch(answers: seq<Answer>)
      requires |answers| >= |messages|
      modifies this
      ensures State() == FlushStep(old(State()), answers)
    {
      hide ControlLane.SendSafely;
      if messages == [] {
        return;
      }
      batchTimer := false;
      var entries := messages;
      var sentCount := 0;
      while sentCount < |entries|
        invariant sentCount <= |entries| <= |answers|
        invariant messages == entries
        invariant Flush(State().(batch := entries[sentCount..]), answers[sentCount..])
            == FlushStep(old(State()), answers)
      {
        ghost var before := State();
        ghost var view := before.(batch := entries[sentCount..]);
        var a := answers[sentCount];
        var result := SendSafely(entries[sentCount], a);
        BatchIsApart(before, entries[sentCount..], entries[sentCount], a);
        if result != Sent {
          if result == Backpressure {
            CleanupClient();
          }
          messages := [];
          return;
        }
        assert answers[sentCount..][1..] == answers[sentCount + 1..];
        assert entries[sentCount..][1..] == entries[sentCount + 1..];
        sentCount := sentCount + 1;
      }
      messages := [];
    }

    method QueueBroadcast(msg: Message)
      requires Enabled(State(), QueueMessage(msg))
      modifies this`messages, this`batchTimer, this`queued
      ensures State() == Step(old(State()), QueueMessage(msg))
    {
      messages := messages + [msg];
      queued := queued + [msg];
      if !batchTimer {
        batchTimer := true;
      }
    }

    // ---- turns of the event loop --------------------------------------------

    /** Everything accepted is handed over or waits behind what was, in order; after a teardown a part of it
        was handed over, in order. */
    ghost predicate InOrder()
      reads this
    {
      && HeadOk(State())
      && if registered then accepted == Messages(handed) + EntryMessages(Live(State()))
         else Messages(handed) <= accepted
    }

    method Broadcasts(msg: Message)
      requires Valid() && Enabled(State(), QueueMessage(msg))
      modifies this
      ensures State() == Step(old(State()), QueueMessage(msg))
      ensures Valid() && InOrder() && batchTimer
    {
      hide Inv;
      TurnKeepsOrder(State(), QueueMessage(msg));
      QueueBroadcast(msg);
    }

    method SendsDirect(msg: Message, a: Answer) returns (result: SendResult)
      requires Valid() && Enabled(State(), SendDirect(msg, a))
      modifies this
      ensures State() == Step(old(State()), SendDirect(msg, a))
      ensures Valid() && InOrder()
    {
      hide Inv, ControlLane.SendSafely;
      TurnKeepsOrder(State(), SendDirect(msg, a));
      result := SendSafely(msg, a);
    }

    method BatchTimerFires(answers: seq<Answer>)
      requires Valid() && Enabled(State(), FlushBatch(answers))
      modifies this
      ensures State() == Step(old(State()), FlushBatch(answers))
      ensures Valid() && InOrder()
    {
      hide Inv, FlushStep;
      TurnKeepsOrder(State(), FlushBatch(answers));
      FlushClientBatch(answers);
    }

    method DelayTimerFires(answers: seq<Answer>)
      requires Valid() && Enabled(State(), DrainTimer(answers))
      modifies this
      ensures State() == Step(old(State()), DrainTimer(answers))
      ensures Valid() && InOrder()
    {
      hide Inv, Drain, HeadOk;
      TurnKeepsOrder(State(), DrainTimer(answers));
      DrainDelayedQueue(answers);
    }

    method Disconnects()
      requires Valid()
      modifies this
      ensures State() == Step(old(State()), Event.Disconnect)
      ensures Valid() && InOrder() && !registered && !hasDelayedState && messages == []
    {
      hide Inv;
      TurnKeepsOrder(State(), Event.Disconnect);
      CleanupClient();
    }
  }

  lemma TurnKeepsOrder(l: Lane, e: Event)
    requires Inv(l) && Enabled(l, e)
    ensures var l' := Step(l, e);
            && Inv(l') && HeadOk(l')
            && if l'.registered then l'.accepted == Messages(l'.handed) + EntryMessages(Live(l'))
               else Messages(l'.handed) <= l'.accepted
  {
    hide Step, BatchOk, DueOk, CopyOk, QueueOk;
    StepKeepsInv(l, e);
  }

  ghost function DrainOne(l: Lane, a: Answer): (Lane, bool)
    requires l.delayed.Some? && l.delayed.value.head < |l.delayed.value.queue|
  {
    var d := l.delayed.value;
    var e := d.queue[d.head];
    if e.dueAt > a.now then (l.(delayed := Some(Arm(d, Max(a.now, e.dueAt)))), false)
    else
      var r := ControlLane.SendNow(l, e.msg, a, Some(e.dueAt));
      match r.1
      case Sent => (TakeHead(r.0, d), true)
      case Backpressure => (l.(delayed := Some(Arm(d, a.now + RETRY_INTERVAL_MS))), false)
      case _ => (r.0, false)
  }

  lemma DrainNext(l: Lane, answers: seq<Answer>, i: nat)
    requires l.delayed.Some? && l.delayed.value.head < |l.delayed.value.queue|
    requires i < |answers| && |answers| - i >= |Live(l)|
    ensures var r := DrainOne(l, answers[i]);
            && (r.1 ==> r.0.delayed.Some? && r.0.delayed.value.head <= |r.0.delayed.value.queue|
                        && |answers| - i - 1 >= |Live(r.0)|)
            && DrainFrom(l, answers[i..]) == if r.1 then DrainFrom(r.0, answers[i + 1..]) else r.0
  {
    hide ControlLane.SendNow, TakeHead;
    var e := l.delayed.value.queue[l.delayed.value.head];
    SendNowKeepsQueue(l, e.msg, answers[i], Some(e.dueAt));
    TakenOneFewer(ControlLane.SendNow(l, e.msg, answers[i], Some(e.dueAt)).0, l.delayed.value);
    assert answers[i..][1..] == answers[i + 1..];
  }

  lemma DrainedEmpty(l: Lane, answers: seq<Answer>)
    requires l.delayed.Some? && l.delayed.value.head == |l.delayed.value.queue|
    ensures DrainFrom(l, answers) == l.(delayed := None)
  {
  }

  lemma SendNowKeepsQueue(l: Lane, msg: Message, a: Answer, due: Option<int>)
    ensures var r := ControlLane.SendNow(l, msg, a, due);
            && (r.1 == Sent ==> r.0.delayed == l.delayed)
            && (r.1 == Backpressure ==> r.0 == l)
            && (r.1 == NotOpen || r.1 == SendError ==> r.0.delayed.None?)
  {
  }

  lemma TakenOneFewer(l: Lane, d: Delayed)
    requires d.head < |d.queue|
    ensures var r := TakeHead(l, d);
            && r.delayed.Some? && r.delayed.value.head <= |r.delayed.value.queue|
            && |r.delayed.value.queue| - r.delayed.value.head == |d.queue| - d.head - 1
  {
  }

  /** A send looks at the batch only to drop it. */
  lemma BatchIsApart(l: Lane, batch: seq<Message>, msg: Message, a: Answer)
    ensures var r, r' := ControlLane.SendSafely(l, msg, a), ControlLane.SendSafely(l.(batch := batch), msg, a);
            && r'.1 == r.1
            && (r.1 == Sent || r.1 == Backpressure ==> r'.0 == r.0.(batch := batch) && r.0.batch == l.batch)
            && (r.1 == NotOpen || r.1 == SendError ==> r'.0 == r.0 && r.0.batch == [])
            && r.0.batchTimer == (if r.1 == NotOpen || r.1 == SendError then false else l.batchTimer)
  {
    hide Push;
  }
}
