/** Backpressure queues of one channel (server/browser-channels.ts): pending messages, coalescing of
    terminal data, byte accounting and trimming. */
module ChannelQueues {
  import opened Common
  import opened ChannelFrames

  /** A channel id, with the byte length of its JSON string form. */
  datatype Channel = Channel(name: string, nameJsonBytes: nat)

  /** A byte of the data stream. Nothing in the plane looks at `place`: it is there to tell equal bytes
      sent at different times apart. */
  datatype Datum = Datum(value: Byte, place: nat)

  /** What callers send. Data whose base64 text is malformed travels as JSON and is never merged; its
      text is what the client then receives. `jsonBytes` is the size of the payload's own JSON. */
  datatype Payload =
    | Data(bytes: seq<Datum>)
    | Malformed(text: seq<Datum>, jsonBytes: nat)
    | Control(id: nat, jsonBytes: nat)

  /** What a client sees, unit by unit. */
  datatype Token = Unit(datum: Datum) | Ctl(id: nat) | Marker

  datatype Message =
    | TerminalData(enqueuedAtMs: int, rawData: seq<Datum>, sizeBytes: nat)
    | Serialized(enqueuedAtMs: int, body: Body, sizeBytes: nat)

  datatype Body = Text(text: seq<Datum>) | ControlBody(id: nat) | RecoveryRequired

  datatype Queue = Queue(drainPasses: nat, messages: seq<Message>, totalBytes: int)

  const EMPTY_QUEUE := Queue(0, [], 0)

  predicate IsChannelData(p: Payload) {
    !p.Control?
  }

  /** The data a payload adds to the channel's stream. */
  function DataOf(p: Payload): seq<Datum> {
    match p
    case Data(bytes) => bytes
    case Malformed(text, _) => text
    case Control(_, _) => []
  }

  // ---- sizes -------------------------------------------------------------

  const JSON_ENVELOPE_BYTES := |"{'type':'channel','channelId':,'payload':}"|
  const JSON_DATA_BYTES := |"{'type':'Data','data':''}"|
  const JSON_RECOVERY_BYTES := |"{'type':'RecoveryRequired','reason':'backpressure'}"|

  function JsonSize(ch: Channel, payloadBytes: nat): nat {
    JSON_ENVELOPE_BYTES + ch.nameJsonBytes + payloadBytes
  }

  /** Size of a data message: a binary frame for UUID ids, JSON around base64 otherwise. */
  function DataSize(ch: Channel, length: nat): nat {
    if IsUuid(ch.name) then CHANNEL_BINARY_HEADER_BYTES + length
    else JsonSize(ch, JSON_DATA_BYTES + (length + 2) / 3 * 4)
  }

  function RecoveryMessage(ch: Channel, now: int): Message {
    Serialized(now, RecoveryRequired, JsonSize(ch, JSON_RECOVERY_BYTES))
  }

  function RecoveryQueue(ch: Channel, now: int): Queue {
    var m := RecoveryMessage(ch, now);
    Queue(0, [m], m.sizeBytes)
  }

  function CreateMessage(ch: Channel, p: Payload, now: int): Message {
    match p
    case Data(bytes) => TerminalData(now, bytes, DataSize(ch, |bytes|))
    case Malformed(text, n) => Serialized(now, Text(text), JsonSize(ch, n))
    case Control(id, n) => Serialized(now, ControlBody(id), JsonSize(ch, n))
  }

  function QueueAge(q: Queue, now: int): int {
    if q.messages == [] then 0 else Max(0, now - q.messages[0].enqueuedAtMs)
  }

  // ---- the token view -----------------------------------------------------

  function Units(bytes: seq<Datum>): (ts: seq<Token>)
    ensures |ts| == |bytes|
    ensures forall i :: 0 <= i < |ts| ==> ts[i] == Unit(bytes[i])
  {
    seq(|bytes|, i requires 0 <= i < |bytes| => Unit(bytes[i]))
  }

  function MessageTokens(m: Message): seq<Token> {
    match m
    case TerminalData(_, raw, _) => Units(raw)
    case Serialized(_, Text(text), _) => Units(text)
    case Serialized(_, ControlBody(id), _) => [Ctl(id)]
    case Serialized(_, RecoveryRequired, _) => [Marker]
  }

  function PayloadTokens(p: Payload): seq<Token> {
    match p
    case Control(id, _) => [Ctl(id)]
    case _ => Units(DataOf(p))
  }

  function Tokens(ms: seq<Message>): seq<Token> {
    if ms == [] then [] else Tokens(ms[..|ms| - 1]) + MessageTokens(ms[|ms| - 1])
  }

  function SumBytes(ms: seq<Message>): nat {
    if ms == [] then 0 else SumBytes(ms[..|ms| - 1]) + ms[|ms| - 1].sizeBytes
  }

  predicate Accounted(q: Queue) {
    q.totalBytes == SumBytes(q.messages)
  }

  lemma {:induction false} TokensConcat(a: seq<Message>, b: seq<Message>)
    ensures Tokens(a + b) == Tokens(a) + Tokens(b)
  {
    if b == [] {
      assert a + b == a;
    } else {
      var init, last := b[..|b| - 1], MessageTokens(b[|b| - 1]);
      assert (a + b)[..|a + b| - 1] == a + init && (a + b)[|a + b| - 1] == b[|b| - 1];
      TokensConcat(a, init);
      assert Tokens(a) + Tokens(init) + last == Tokens(a) + (Tokens(init) + last);
    }
  }

  lemma {:induction false} SumBytesConcat(a: seq<Message>, b: seq<Message>)
    ensures SumBytes(a + b) == SumBytes(a) + SumBytes(b)
  {
    if b == [] {
      assert a + b == a;
    } else {
      assert (a + b)[..|a + b| - 1] == a + b[..|b| - 1];
      SumBytesConcat(a, b[..|b| - 1]);
    }
  }

  lemma TokensSplit(ms: seq<Message>, n: nat)
    requires n <= |ms|
    ensures Tokens(ms) == Tokens(ms[..n]) + Tokens(ms[n..])
    ensures SumBytes(ms) == SumBytes(ms[..n]) + SumBytes(ms[n..])
  {
    assert ms == ms[..n] + ms[n..];
    TokensConcat(ms[..n], ms[n..]);
    SumBytesConcat(ms[..n], ms[n..]);
  }

  lemma CreatedTokens(ch: Channel, p: Payload, now: int)
    ensures MessageTokens(CreateMessage(ch, p, now)) == PayloadTokens(p)
  {
  }

  // ---- coalescing ---------------------------------------------------------

  function TryCoalesce(ch: Channel, previous: Option<Message>, next: Message, maxBytes: nat): Option<Message> {
    if previous.None? || !previous.value.TerminalData? || !next.TerminalData? then None
    else if |previous.value.rawData| + |next.rawData| > maxBytes then None
    else
      var merged := previous.value.rawData + next.rawData;
      Some(TerminalData(previous.value.enqueuedAtMs, merged, DataSize(ch, |merged|)))
  }

  function Append(ch: Channel, q: Queue, m: Message, maxBytes: nat): Queue {
    var n := |q.messages|;
    var last := if n == 0 then None else Some(q.messages[n - 1]);
    var merged := TryCoalesce(ch, last, m, maxBytes);
    if merged.Some? then
      assert n > 0;
      q.(messages := q.messages[n - 1 := merged.value],
         totalBytes := q.totalBytes + merged.value.sizeBytes - last.value.sizeBytes)
    else
      q.(messages := q.messages + [m], totalBytes := q.totalBytes + m.sizeBytes)
  }

  /** Merging never reorders, drops or duplicates: the client-visible stream is the old one followed
      by the new message, byte for byte and control for control; the byte count stays exact. */
  lemma AppendKeepsStream(ch: Channel, q: Queue, m: Message, maxBytes: nat)
    ensures Tokens(Append(ch, q, m, maxBytes).messages) == Tokens(q.messages) + MessageTokens(m)
    ensures Accounted(q) ==> Accounted(Append(ch, q, m, maxBytes))
    ensures Append(ch, q, m, maxBytes).messages != []
  {
    var n := |q.messages|;
    var q' := Append(ch, q, m, maxBytes);
    if n > 0 && TryCoalesce(ch, Some(q.messages[n - 1]), m, maxBytes).Some? {
      var init := q.messages[..n - 1];
      var merged := q'.messages[n - 1];
      assert q'.messages[..n - 1] == init;
      assert Units(q.messages[n - 1].rawData) + Units(m.rawData) == MessageTokens(merged);
      assert Tokens(q.messages) + MessageTokens(m) == Tokens(init) + MessageTokens(merged);
    } else {
      assert q'.messages[..n] == q.messages;
    }
  }

  /** A merged message never holds more raw bytes than the configured maximum, unless a single payload
      already did. */
  lemma AppendRespectsCoalesceLimit(ch: Channel, q: Queue, m: Message, maxBytes: nat)
    requires m.TerminalData?
    ensures var last := Append(ch, q, m, maxBytes).messages[|Append(ch, q, m, maxBytes).messages| - 1];
            last.TerminalData? && (last.rawData == m.rawData || |last.rawData| <= maxBytes)
  {
  }

  // ---- trimming -----------------------------------------------------------

  function Trim(q: Queue, maxBytes: nat): Queue
    decreases |q.messages|
  {
    if q.totalBytes > maxBytes && |q.messages| > 1 then
      Trim(q.(messages := q.messages[1..], totalBytes := q.totalBytes - q.messages[0].sizeBytes), maxBytes)
    else
      q
  }

  lemma SumBytesFirst(ms: seq<Message>)
    requires ms != []
    ensures SumBytes(ms) == ms[0].sizeBytes + SumBytes(ms[1..])
  {
    assert ms == [ms[0]] + ms[1..];
    SumBytesConcat([ms[0]], ms[1..]);
    assert [ms[0]][..0] == [];
  }

  /** Trimming drops whole messages from the front, and drops something exactly when the queue is over
      the limit and holds more than one message. */
  lemma {:induction false} TrimShape(q: Queue, maxBytes: nat)
    ensures var q' := Trim(q, maxBytes);
            var dropped := |q.messages| - |q'.messages|;
            && 0 <= dropped && q'.messages == q.messages[dropped..]
            && (dropped > 0 <==> q.totalBytes > maxBytes && |q.messages| > 1)
            && (q'.totalBytes <= maxBytes || |q'.messages| <= 1)
            && (q.messages != [] ==> q'.messages != [])
    decreases |q.messages|
  {
    if q.totalBytes > maxBytes && |q.messages| > 1 {
      TrimShape(q.(messages := q.messages[1..], totalBytes := q.totalBytes - q.messages[0].sizeBytes), maxBytes);
    }
  }

  /** With exact accounting the dropped prefix is the shortest that brings the queue under the limit. */
  lemma {:induction false} TrimDropsShortestPrefix(q: Queue, maxBytes: nat, d: nat)
    requires Accounted(q)
    ensures Accounted(Trim(q, maxBytes))
    ensures d < |q.messages| - |Trim(q, maxBytes).messages| ==> SumBytes(q.messages[d..]) > maxBytes
    decreases |q.messages|
  {
    if q.totalBytes > maxBytes && |q.messages| > 1 {
      SumBytesFirst(q.messages);
      var rest := q.(messages := q.messages[1..], totalBytes := q.totalBytes - q.messages[0].sizeBytes);
      TrimDropsShortestPrefix(rest, maxBytes, if d == 0 then 0 else d - 1);
      if d == 0 {
        assert q.messages[0..] == q.messages;
      } else if d <= |q.messages| {
        assert rest.messages[d - 1..] == q.messages[d..];
      }
    }
  }

  method TrimPendingQueueToMaxBytes(queue: Queue, maxBytes: nat) returns (trimmed: Queue, overflowed: bool)
    ensures trimmed == Trim(queue, maxBytes)
    ensures overflowed <==> |trimmed.messages| < |queue.messages|
  {
    trimmed, overflowed := queue, false;
    while trimmed.totalBytes > maxBytes && |trimmed.messages| > 1
      invariant Trim(trimmed, maxBytes) == Trim(queue, maxBytes)
      invariant |trimmed.messages| <= |queue.messages|
      invariant overflowed <==> |trimmed.messages| < |queue.messages|
      decreases |trimmed.messages|
    {
      var dropped := trimmed.messages[0];
      trimmed := trimmed.(messages := trimmed.messages[1..], totalBytes := trimmed.totalBytes - dropped.sizeBytes);
      overflowed := true;
    }
  }
}
