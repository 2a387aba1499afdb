/** One client's control lane as a state machine: the micro-batcher (server/browser-send-queue.ts), the
    delayed queue (server/browser-control-delayed-sends.ts) and their glue
    (server/browser-control-plane.ts). Simulated drops are off. */
module ControlLane {
  import opened Common

  datatype Kind = Broadcast | Direct

  datatype Message = Message(kind: Kind, id: int, size: nat)

  datatype Entry = Entry(msg: Message, dueAt: int)

  /** A message given to the socket: when, and the due time if it came off the delayed queue. */
  datatype Handed = Handed(msg: Message, at: int, due: Option<int>)

  /** `timer` is the time it is armed for; slots before `head` are consumed. */
  datatype Delayed = Delayed(queue: seq<Entry>, head: nat, timer: Option<int>, total: int)

  /** `queued`, `accepted`, `handed`, `dequeued` and `copied` only record what happened. */
  datatype Lane = Lane(
    batch: seq<Message>,
    batchTimer: bool,
    delayed: Option<Delayed>,
    open: bool,
    registered: bool,
    handed: seq<Handed>,
    queued: seq<Message>,
    accepted: seq<Message>,
    dequeued: nat,
    copied: nat)

  const INIT := Lane([], false, None, true, true, [], [], [], 0, 0)

  const BACKPRESSURE_MAX_BYTES := 1_048_576
  const RETRY_INTERVAL_MS := 25
  const COMPACT_FROM := 1024

  /** What the clock, the simulated delay and the socket say during one send. */
  datatype Answer = Answer(now: int, delayMs: nat, buffered: nat, sendOk: bool)

  datatype SendResult = Sent | NotOpen | Backpressure | SendError

  datatype Event =
    | QueueMessage(msg: Message)
    | FlushBatch(answers: seq<Answer>)
    | SendDirect(msg: Message, answer: Answer)
    | DrainTimer(answers: seq<Answer>)
    | SocketCloses
    | Disconnect

  // ---- teardown ---------------------------------------------------------------

  /** Both queues forget the client and the socket is closed. */
  function TearDown(l: Lane): Lane {
    l.(batch := [], batchTimer := false, delayed := None, open := false, registered := false)
  }

  // ---- the delayed queue ------------------------------------------------------

  function Live(l: Lane): seq<Entry>
    requires l.delayed.Some? ==> l.delayed.value.head <= |l.delayed.value.queue|
  {
    if l.delayed.None? then [] else l.delayed.value.queue[l.delayed.value.head..]
  }

  /** The drain timer, unless one is armed already. */
  function Arm(d: Delayed, at: int): Delayed {
    if d.timer.Some? then d else d.(timer := Some(at))
  }

  /** Head advances; once enough of the array is consumed the rest is copied to a fresh one. */
  function TakeHead(l: Lane, d: Delayed): Lane
    requires d.head < |d.queue|
  {
    var head := d.head + 1;
    var total := d.total - d.queue[d.head].msg.size;
    if head >= COMPACT_FROM && head * 2 >= |d.queue| then
      l.(delayed := Some(d.(queue := d.queue[head..], head := 0, total := total)),
         dequeued := l.dequeued + 1, copied := l.copied + |d.queue| - head)
    else
      l.(delayed := Some(d.(head := head, total := total)), dequeued := l.dequeued + 1)
  }

  function SendNow(l: Lane, msg: Message, a: Answer, due: Option<int>): (Lane, SendResult) {
    if !l.open then (TearDown(l), NotOpen)
    else if a.buffered > BACKPRESSURE_MAX_BYTES then (l, Backpressure)
    else if !a.sendOk then (TearDown(l), SendError)
    else (l.(handed := l.handed + [Handed(msg, a.now, due)]), Sent)
  }

  /** The queue's state, created on first use. It stays even if the message is then refused. */
  function DelayedState(l: Lane): Delayed {
    if l.delayed.Some? then l.delayed.value else Delayed([], 0, None, 0)
  }

  function Push(d: Delayed, msg: Message, a: Answer): Delayed {
    var previousDue := if d.queue == [] then a.now else d.queue[|d.queue| - 1].dueAt;
    var d1 := d.(queue := d.queue + [Entry(msg, Max(previousDue, a.now + a.delayMs))], total := d.total + msg.size);
    if d1.head < |d1.queue| then Arm(d1, Max(a.now, d1.queue[d1.head].dueAt)) else d1
  }

  function QueueDelayed(l: Lane, msg: Message, a: Answer): (Lane, SendResult) {
    if !l.open then (TearDown(l), NotOpen)
    else
      var d := DelayedState(l);
      if d.total + a.buffered + msg.size > BACKPRESSURE_MAX_BYTES then (l.(delayed := Some(d)), Backpressure)
      else (l.(delayed := Some(Push(d, msg, a))), Sent)
  }

  /** Direct when there is neither a delay nor a delayed queue, behind the queue otherwise. */
  function SendSafely(l: Lane, msg: Message, a: Answer): (r: (Lane, SendResult)) {
    var r := if a.delayMs > 0 || l.delayed.Some? then QueueDelayed(l, msg, a) else SendNow(l, msg, a, None);
    if r.1 == Sent then (r.0.(accepted := r.0.accepted + [msg]), Sent) else r
  }

  function DrainFrom(l: Lane, answers: seq<Answer>): Lane
    requires l.delayed.Some? ==> l.delayed.value.head <= |l.delayed.value.queue|
    requires |answers| >= |Live(l)|
    decreases |answers|
  {
    if l.delayed.None? then l
    else
      var d := l.delayed.value;
      if d.head == |d.queue| then l.(delayed := None)
      else
        var e := d.queue[d.head];
        var a := answers[0];
        if e.dueAt > a.now then l.(delayed := Some(Arm(d, Max(a.now, e.dueAt))))
        else
          var r := SendNow(l, e.msg, a, Some(e.dueAt));
          match r.1
          case Sent => DrainFrom(TakeHead(r.0, d), answers[1..])
          case Backpressure => l.(delayed := Some(Arm(d, a.now + RETRY_INTERVAL_MS)))
          case _ => r.0
  }

  function Drain(l: Lane, answers: seq<Answer>): Lane
    requires l.delayed.Some? ==> l.delayed.value.head <= |l.delayed.value.queue|
    requires |answers| >= |Live(l)|
  {
    if l.delayed.None? then l
    else if !l.open then TearDown(l)
    else DrainFrom(l.(delayed := Some(l.delayed.value.(timer := None))), answers)
  }

  // ---- the batcher and the glue -----------------------------------------------

  datatype BatchResult = Delivered | Refused(retry: bool)

  /** The glue tears the client down on backpressure too and never asks for a retry. */
  function SendBatched(l: Lane, msg: Message, a: Answer): (Lane, BatchResult) {
    var r := SendSafely(l, msg, a);
    match r.1
    case Sent => (r.0, Delivered)
    case Backpressure => (TearDown(r.0), Refused(false))
    case _ => (r.0, Refused(false))
  }

  /** Sends the batch in order; a refusal drops the rest, or keeps it and re-arms the timer on retry. */
  function Flush(l: Lane, answers: seq<Answer>): Lane
    requires |answers| >= |l.batch|
    decreases |answers|
  {
    if l.batch == [] then l
    else
      var r := SendBatched(l, l.batch[0], answers[0]);
      match r.1
      case Delivered =>
        FlushKeepsBatch(l, answers[0]);
        Flush(r.0.(batch := l.batch[1..]), answers[1..])
      case Refused(retry) =>
        if retry then r.0.(batchTimer := true) else r.0.(batch := [])
  }

  /** A flush of nothing leaves even the fired timer in place. */
  function FlushStep(l: Lane, answers: seq<Answer>): Lane
    requires |answers| >= |l.batch|
  {
    if l.batch == [] then l else Flush(l.(batchTimer := false), answers)
  }

  lemma FlushKeepsBatch(l: Lane, a: Answer)
    requires l.batch != [] && SendBatched(l, l.batch[0], a).1 == Delivered
    ensures SendBatched(l, l.batch[0], a).0.batch == l.batch
  {
  }

  // ---- steps ------------------------------------------------------------------

  predicate HeadOk(l: Lane) {
    l.delayed.Some? ==> l.delayed.value.head <= |l.delayed.value.queue|
  }

  /** Broadcasts go only to clients the transport still lists. */
  predicate Enabled(l: Lane, e: Event) {
    match e
    case QueueMessage(msg) => l.registered && msg.kind == Broadcast
    case FlushBatch(answers) => l.batchTimer && |answers| >= |l.batch|
    case SendDirect(msg, _) => msg.kind == Direct
    case DrainTimer(answers) =>
      HeadOk(l) && l.delayed.Some? && l.delayed.value.timer.Some? && |answers| >= |Live(l)|
    case SocketCloses => true
    case Disconnect => true
  }

  function Step(l: Lane, e: Event): Lane
    requires Enabled(l, e)
  {
    match e
    case QueueMessage(msg) => l.(batch := l.batch + [msg], batchTimer := true, queued := l.queued + [msg])
    case FlushBatch(answers) => FlushStep(l, answers)
    case SendDirect(msg, a) => SendSafely(l, msg, a).0
    case DrainTimer(answers) => Drain(l, answers)
    case SocketCloses => l.(open := false)
    case Disconnect => TearDown(l)
  }

  function Run(l: Lane, events: seq<Event>): Lane
    decreases |events|
  {
    if events == [] then l
    else Run(if Enabled(l, events[0]) then Step(l, events[0]) else l, events[1..])
  }
}
