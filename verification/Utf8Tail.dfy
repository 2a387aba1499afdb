/** Trimming a UTF-8 buffer to its last bytes (electron/coordinator/tool-gateway.ts), for byte sequences
    that are valid under section 4 of RFC 3629. */
module Utf8Tail {
  predicate IsContinuation(b: bv8) {
    b & 0xC0 == 0x80
  }

  // ---- valid sequences --------------------------------------------------------

  /** The second byte an initial byte of three or four allows. */
  predicate SecondOk(lead: bv8, second: bv8) {
    && IsContinuation(second)
    && (lead == 0xE0 ==> 0xA0 <= second)
    && (lead == 0xED ==> second <= 0x9F)
    && (lead == 0xF0 ==> 0x90 <= second)
    && (lead == 0xF4 ==> second <= 0x8F)
  }

  /** The length of the well-formed character at the front, 0 if there is none. */
  function CharLength(s: seq<bv8>): (n: nat)
    ensures n <= 4 && n <= |s|
    ensures forall k :: 1 <= k < n ==> IsContinuation(s[k])
    ensures n > 0 ==> !IsContinuation(s[0])
  {
    if s == [] then 0
    else if s[0] <= 0x7F then 1
    else if 0xC2 <= s[0] <= 0xDF then if |s| >= 2 && IsContinuation(s[1]) then 2 else 0
    else if 0xE0 <= s[0] <= 0xEF then
      if |s| >= 3 && SecondOk(s[0], s[1]) && IsContinuation(s[2]) then 3 else 0
    else if 0xF0 <= s[0] <= 0xF4 then
      if |s| >= 4 && SecondOk(s[0], s[1]) && IsContinuation(s[2]) && IsContinuation(s[3]) then 4 else 0
    else 0
  }

  predicate ValidUtf8(s: seq<bv8>)
    decreases |s|
  {
    s == [] || (CharLength(s) > 0 && ValidUtf8(s[CharLength(s)..]))
  }

  /** Position `i` lies between two characters, or at an end. */
  predicate IsBoundary(s: seq<bv8>, i: nat)
    decreases |s|
  {
    i == 0 || (CharLength(s) > 0 && i >= CharLength(s) && IsBoundary(s[CharLength(s)..], i - CharLength(s)))
  }

  // ---- boundaries ---------------------------------------------------------------

  /** In a valid buffer the boundaries are the end and the bytes that do not continue a character. */
  lemma {:induction false} BoundaryIsNoContinuation(s: seq<bv8>, i: nat)
    requires ValidUtf8(s) && i <= |s|
    ensures IsBoundary(s, i) <==> i == |s| || !IsContinuation(s[i])
    decreases |s|
  {
    if s != [] {
      var n := CharLength(s);
      if i >= n {
        BoundaryIsNoContinuation(s[n..], i - n);
      }
    }
  }

  /** Cutting a valid buffer at a boundary leaves two valid buffers. */
  lemma {:induction false} CutAtBoundary(s: seq<bv8>, i: nat)
    requires ValidUtf8(s) && i <= |s| && IsBoundary(s, i)
    ensures ValidUtf8(s[i..])
    decreases |s|
  {
    if i == 0 {
      assert s[0..] == s;
    } else {
      var n := CharLength(s);
      CutAtBoundary(s[n..], i - n);
      assert s[n..][i - n..] == s[i..];
    }
  }

  /** Three bytes on from any position there is a boundary. */
  lemma {:induction false} BoundaryWithinThree(s: seq<bv8>, i: nat) returns (j: nat)
    requires ValidUtf8(s) && i <= |s|
    ensures i <= j <= |s| && j <= i + 3 && IsBoundary(s, j)
    decreases |s|
  {
    if i == 0 {
      j := 0;
    } else {
      var n := CharLength(s);
      if i < n {
        j := n;
        assert IsBoundary(s[n..], 0);
      } else {
        var k := BoundaryWithinThree(s[n..], i - n);
        j := k + n;
      }
    }
  }

  // ---- the trim -------------------------------------------------------------------

  /** The bytes kept and the number dropped. On valid input the kept text is the longest suffix of at most
      `maxBytes` bytes that starts at a character, is itself valid, and is at most three bytes short. */
  method TrimUtf8BufferTail(buffer: seq<bv8>, maxBytes: nat) returns (text: seq<bv8>, truncatedBytes: nat)
    ensures truncatedBytes <= |buffer| && text == buffer[truncatedBytes..]
    ensures |text| <= maxBytes && truncatedBytes + |text| == |buffer|
    ensures |buffer| <= maxBytes ==> truncatedBytes == 0
    ensures ValidUtf8(buffer) ==>
              && ValidUtf8(text)
              && IsBoundary(buffer, truncatedBytes)
              && (forall j :: 0 <= j <= |buffer| && IsBoundary(buffer, j) && |buffer| - j <= maxBytes ==>
                    |buffer| - j <= |text|)
              && (|buffer| > maxBytes ==> maxBytes - |text| <= 3)
  {
    if |buffer| <= maxBytes {
      text, truncatedBytes := buffer, 0;
      assert buffer[0..] == buffer;
      return;
    }
    var start := |buffer| - maxBytes;
    while start < |buffer|
      invariant |buffer| - maxBytes <= start <= |buffer|
      invariant forall k :: |buffer| - maxBytes <= k < start ==> IsContinuation(buffer[k])
    {
      if buffer[start] & 0xC0 != 0x80 {
        break;
      }
      start := start + 1;
    }
    if ValidUtf8(buffer) {
      TrimmedTail(buffer, |buffer| - maxBytes, start);
    }
    text, truncatedBytes := buffer[start..], start;
  }

  /** From `low` on, the first byte that is no continuation is the first boundary. */
  lemma TrimmedTail(buffer: seq<bv8>, low: nat, start: nat)
    requires ValidUtf8(buffer) && 0 < low <= start <= |buffer|
    requires forall k :: low <= k < start ==> IsContinuation(buffer[k])
    requires start == |buffer| || !IsContinuation(buffer[start])
    ensures IsBoundary(buffer, start) && ValidUtf8(buffer[start..])
    ensures forall j :: low <= j <= |buffer| && IsBoundary(buffer, j) ==> start <= j
    ensures start - low <= 3
  {
    hide ValidUtf8, IsBoundary;
    BoundaryIsNoContinuation(buffer, start);
    CutAtBoundary(buffer, start);
    forall j | low <= j <= |buffer| && IsBoundary(buffer, j)
      ensures start <= j
    {
      BoundaryIsNoContinuation(buffer, j);
    }
    var j := BoundaryWithinThree(buffer, low);
  }
}
