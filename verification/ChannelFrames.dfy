/** Binary frames of the terminal channel (server/channel-frames.ts). */
module ChannelFrames {
  import opened Common

  const CHANNEL_DATA_FRAME_TYPE: Byte := 0x01
  const CHANNEL_ID_BYTES := 36
  const CHANNEL_BINARY_HEADER_BYTES := 1 + CHANNEL_ID_BYTES

  predicate IsHexDigit(c: char) {
    '0' <= c <= '9' || 'a' <= c <= 'f' || 'A' <= c <= 'F'
  }

  predicate IsHyphenIndex(i: int) {
    i == 8 || i == 13 || i == 18 || i == 23
  }

  /** The canonical textual form of a UUID, in either letter case. */
  predicate IsUuid(name: string) {
    && |name| == CHANNEL_ID_BYTES
    && forall i :: 0 <= i < |name| ==> if IsHyphenIndex(i) then name[i] == '-' else IsHexDigit(name[i])
  }

  /** A character as the 'ascii' encoding writes it: its low byte. */
  function AsciiByte(c: char): Byte {
    (c as int) % 256
  }

  /** A byte as the 'ascii' encoding reads it: the top bit is cleared. */
  function AsciiChar(b: Byte): char {
    (b % 128) as char
  }

  datatype Frame = Frame(channelId: string, bytes: seq<Byte>)

  /** What a client reads out of a binary message. */
  function ParseFrame(frame: seq<Byte>): Option<Frame> {
    if |frame| < CHANNEL_BINARY_HEADER_BYTES || frame[0] != CHANNEL_DATA_FRAME_TYPE then
      None
    else
      Some(Frame(seq(CHANNEL_ID_BYTES, i requires 0 <= i < CHANNEL_ID_BYTES => AsciiChar(frame[1 + i])),
                 frame[CHANNEL_BINARY_HEADER_BYTES..]))
  }

  lemma UuidCharsAreAscii(name: string, i: nat)
    requires IsUuid(name) && i < |name|
    ensures AsciiChar(AsciiByte(name[i])) == name[i]
  {
    assert name[i] == '-' || IsHexDigit(name[i]);
    assert (name[i] as int) < 128;
  }

  /** Fills the frame in place: type byte, channel id, then the decoded data; `decoded` is what the base64
      text stands for, or nothing if it is malformed. A frame exists exactly for UUID channel ids and
      well-formed data, and reading it back yields the id and the bytes that went in. */
  method BuildBinaryChannelFrame(channelId: string, decoded: Option<seq<Byte>>) returns (frame: Option<seq<Byte>>)
    ensures frame.Some? <==> IsUuid(channelId) && decoded.Some?
    ensures frame.Some? ==> |frame.value| == CHANNEL_BINARY_HEADER_BYTES + |decoded.value|
    ensures frame.Some? ==> ParseFrame(frame.value) == Some(Frame(channelId, decoded.value))
  {
    if !IsUuid(channelId) || decoded.None? {
      return None;
    }
    var raw := decoded.value;
    var buffer := new Byte[CHANNEL_BINARY_HEADER_BYTES + |raw|];
    buffer[0] := CHANNEL_DATA_FRAME_TYPE;
    for i := 0 to CHANNEL_ID_BYTES
      invariant buffer[0] == CHANNEL_DATA_FRAME_TYPE
      invariant forall j :: 0 <= j < i ==> buffer[1 + j] == AsciiByte(channelId[j])
    {
      buffer[1 + i] := AsciiByte(channelId[i]);
    }
    for i := 0 to |raw|
      invariant buffer[0] == CHANNEL_DATA_FRAME_TYPE
      invariant forall j :: 0 <= j < CHANNEL_ID_BYTES ==> buffer[1 + j] == AsciiByte(channelId[j])
      invariant buffer[CHANNEL_BINARY_HEADER_BYTES..CHANNEL_BINARY_HEADER_BYTES + i] == raw[..i]
    {
      buffer[CHANNEL_BINARY_HEADER_BYTES + i] := raw[i];
    }
    var bytes := buffer[..];
    assert bytes[CHANNEL_BINARY_HEADER_BYTES..] == raw by {
      assert buffer[CHANNEL_BINARY_HEADER_BYTES..CHANNEL_BINARY_HEADER_BYTES + |raw|] == raw[..|raw|];
      assert raw[..|raw|] == raw;
    }
    var id := seq(CHANNEL_ID_BYTES, i requires 0 <= i < CHANNEL_ID_BYTES => AsciiChar(bytes[1 + i]));
    forall i | 0 <= i < CHANNEL_ID_BYTES
      ensures id[i] == channelId[i]
    {
      UuidCharsAreAscii(channelId, i);
    }
    assert id == channelId;
    return Some(bytes);
  }
}
