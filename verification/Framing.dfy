/**
 * The bridge's wire format (inboxbridge/src/main.rs:88-132): a little-endian 32-bit length and a body. The reader loop
 * and what it makes of any input, whole, cut off or oversized.
 */
module Framing {
  newtype Byte = x: int | 0 <= x < 256

  type Bytes = seq<Byte>

  const TWO_TO_32 := 0x1_0000_0000
  const MAX_MESSAGE := 1_000_000

  // ------------------------------------------------------------------ frames

  /** to_le_bytes and from_le_bytes, for k bytes: least significant byte first. */
  function ToLe(n: nat, k: nat): (r: Bytes)
    ensures |r| == k
  {
    if k == 0 then [] else [(n % 256) as Byte] + ToLe(n / 256, k - 1)
  }

  function FromLe(b: Bytes): nat {
    if b == [] then 0 else b[0] as nat + 256 * FromLe(b[1..])
  }

  function Pow256(k: nat): nat {
    if k == 0 then 1 else 256 * Pow256(k - 1)
  }

  lemma {:induction false} LittleEndianRoundTrip(n: nat, k: nat)
    requires n < Pow256(k)
    ensures FromLe(ToLe(n, k)) == n
  {
    if k > 0 {
      LittleEndianRoundTrip(n / 256, k - 1);
      assert ToLe(n, k)[1..] == ToLe(n / 256, k - 1);
    }
  }

  lemma {:induction false} LittleEndianInjective(x: Bytes, y: Bytes)
    requires |x| == |y| && FromLe(x) == FromLe(y)
    ensures x == y
  {
    if x != [] {
      SameDigit(x[0] as int, FromLe(x[1..]), y[0] as int, FromLe(y[1..]));
      LittleEndianInjective(x[1..], y[1..]);
      assert x == [x[0]] + x[1..] && y == [y[0]] + y[1..];
    }
  }

  lemma SameDigit(a: int, p: int, b: int, q: int)
    requires 0 <= a < 256 && 0 <= b < 256 && a + 256 * p == b + 256 * q
    ensures a == b && p == q
  {
  }

  /** The four bytes in front of a body; `as u32` keeps the low 32 bits of its length. */
  function LengthBytes(n: nat): (r: Bytes)
    ensures |r| == 4
  {
    ToLe(n % TWO_TO_32, 4)
  }

  lemma LengthRoundTrip(n: nat)
    ensures FromLe(LengthBytes(n)) == n % TWO_TO_32
  {
    assert Pow256(1) == 256 && Pow256(2) == 0x1_0000 && Pow256(4) == TWO_TO_32;
    LittleEndianRoundTrip(n % TWO_TO_32, 4);
  }

  function Frame(body: Bytes): Bytes {
    LengthBytes(|body|) + body
  }

  /** The frame of a body, byte by byte: the length with the least significant byte first, then the body. */
  lemma FrameSpelledOut(body: Bytes)
    requires |body| < 0x1_0000_0000
    ensures var n, frame := |body|, Frame(body);
      && |frame| == 4 + n && frame[4..] == body
      && frame[0] as int == n % 0x100 && frame[1] as int == n / 0x100 % 0x100
      && frame[2] as int == n / 0x1_0000 % 0x100 && frame[3] as int == n / 0x100_0000
  {
    hide ToLe;
    var n := |body|;
    var bytes := FourBytes(n);
    assert LengthBytes(n) == bytes;
    Quotients(n);
  }

  lemma FourBytes(n: nat) returns (bytes: Bytes)
    requires n < 0x1_0000_0000
    ensures bytes == ToLe(n, 4) && |bytes| == 4
    ensures bytes[0] as int == n % 256 && bytes[1] as int == n / 256 % 256
    ensures bytes[2] as int == n / 256 / 256 % 256 && bytes[3] as int == n / 256 / 256 / 256 % 256
  {
    bytes := [];
    var last := LeadingByte(n / 256 / 256 / 256, 0);
    var third := LeadingByte(n / 256 / 256, 1);
    var second := LeadingByte(n / 256, 2);
    bytes := LeadingByte(n, 3);
    hide ToLe;
    assert bytes[1] == second[0] && bytes[2] == second[1] && second[1] == third[0];
    assert bytes[3] == second[2] && second[2] == third[1] && third[1] == last[0];
  }

  lemma LeadingByte(n: nat, k: nat) returns (bytes: Bytes)
    ensures bytes == ToLe(n, k + 1) && bytes[0] as int == n % 256 && bytes[1..] == ToLe(n / 256, k)
  {
    bytes := ToLe(n, k + 1);
  }

  lemma Quotients(n: nat)
    ensures n / 256 / 256 == n / 0x1_0000 && n / 256 / 256 / 256 == n / 0x100_0000
    ensures n < 0x1_0000_0000 ==> n / 0x100_0000 < 256
  {
  }

  function Frames(bodies: seq<Bytes>): Bytes {
    if bodies == [] then [] else Frame(bodies[0]) + Frames(bodies[1..])
  }

  lemma {:induction false} FramesAppend(a: seq<Bytes>, b: seq<Bytes>)
    ensures Frames(a + b) == Frames(a) + Frames(b)
  {
    hide Frame;
    if a == [] {
      assert a + b == b;
    } else {
      FramesAppend(a[1..], b);
      assert (a + b)[1..] == a[1..] + b;
      Associative(Frame(a[0]), Frames(a[1..]), Frames(b));
    }
  }

  lemma Associative<T>(a: seq<T>, b: seq<T>, c: seq<T>)
    ensures a + (b + c) == (a + b) + c
  {
  }

  // ------------------------------------------------------------------ the reader

  /** Why reading stopped: end of input (in or between frames), or a length over the limit. */
  datatype Exit = Closed | TooLarge

  datatype Reading = Reading(messages: seq<Bytes>, exit: Exit)

  /** The reader as a function of all of its input. */
  function Read(input: Bytes, limit: nat): Reading
    decreases |input|
  {
    if |input| < 4 then Reading([], Closed) else
      var len := FromLe(input[..4]);
      if len > limit then Reading([], TooLarge)
      else if |input| < 4 + len then Reading([], Closed)
      else
        var rest := Read(input[4 + len..], limit);
        Reading([input[4..4 + len]] + rest.messages, rest.exit)
  }

  /** The loop over stdin. */
  method ReadRequests(stdin: Bytes) returns (messages: seq<Bytes>, exit: Exit)
    ensures Reading(messages, exit) == Read(stdin, MAX_MESSAGE)
  {
    hide FromLe;
    messages := [];
    var at := 0;
    while true
      invariant 0 <= at <= |stdin|
      invariant var rest := Read(stdin[at..], MAX_MESSAGE);
        Read(stdin, MAX_MESSAGE) == Reading(messages + rest.messages, rest.exit)
      decreases |stdin| - at
    {
      if |stdin| - at < 4 { return messages, Closed; }
      var lenBytes := stdin[at..at + 4];
      assert stdin[at..][..4] == lenBytes;
      var len := FromLe(lenBytes);
      if len > MAX_MESSAGE { return messages, TooLarge; }
      if |stdin| - at - 4 < len { return messages, Closed; }
      var buf := stdin[at + 4..at + 4 + len];
      assert stdin[at..][4..4 + len] == buf && stdin[at..][4 + len..] == stdin[at + 4 + len..];
      Associative(messages, [buf], Read(stdin[at + 4 + len..], MAX_MESSAGE).messages);
      messages := messages + [buf];
      at := at + 4 + len;
    }
  }

  /** A frame read off the front, in terms of the length bytes only. */
  lemma ReadCut(head: Bytes, body: Bytes, rest: Bytes, limit: nat)
    requires |head| == 4 && FromLe(head) == |body| <= limit
    ensures var r := Read(rest, limit); Read(head + body + rest, limit) == Reading([body] + r.messages, r.exit)
  {
    hide FromLe;
    var input := head + body + rest;
    assert input[..4] == head;
    assert input[4..4 + |body|] == body && input[4 + |body|..] == rest;
  }

  lemma ReadOne(body: Bytes, rest: Bytes, limit: nat)
    requires |body| <= limit < TWO_TO_32
    ensures var r := Read(rest, limit); Read(Frame(body) + rest, limit) == Reading([body] + r.messages, r.exit)
  {
    hide LengthBytes, FromLe, Read;
    LengthRoundTrip(|body|);
    ReadCut(LengthBytes(|body|), body, rest, limit);
  }

  /** Whole frames are read back one by one, whatever follows them. */
  lemma {:induction false} ReadFrames(bodies: seq<Bytes>, rest: Bytes, limit: nat)
    requires limit < TWO_TO_32 && forall i :: 0 <= i < |bodies| ==> |bodies[i]| <= limit
    ensures var r := Read(rest, limit); Read(Frames(bodies) + rest, limit) == Reading(bodies + r.messages, r.exit)
  {
    hide Frame, Read;
    var r := Read(rest, limit);
    if bodies == [] {
      assert Frames(bodies) + rest == rest;
      assert bodies + r.messages == r.messages;
    } else {
      ReadFrames(bodies[1..], rest, limit);
      ReadOne(bodies[0], Frames(bodies[1..]) + rest, limit);
      Associative(Frame(bodies[0]), Frames(bodies[1..]), rest);
      Associative([bodies[0]], bodies[1..], r.messages);
      assert [bodies[0]] + bodies[1..] == bodies;
    }
  }

  /** Round trip: payloads within the limit come back as they were sent. */
  lemma FramingRoundTrip(bodies: seq<Bytes>, limit: nat)
    requires limit < TWO_TO_32 && forall i :: 0 <= i < |bodies| ==> |bodies[i]| <= limit
    ensures Read(Frames(bodies), limit) == Reading(bodies, Closed)
  {
    ReadFrames(bodies, [], limit);
    assert Frames(bodies) + [] == Frames(bodies) && bodies + [] == bodies;
  }

  /** The part of a frame that has arrived is not taken for a message. */
  lemma PartialFrameIgnored(bodies: seq<Bytes>, body: Bytes, sent: nat, limit: nat)
    requires limit < TWO_TO_32 && (forall i :: 0 <= i < |bodies| ==> |bodies[i]| <= limit)
    requires |body| <= limit && sent < |Frame(body)|
    ensures Read(Frames(bodies) + Frame(body)[..sent], limit) == Reading(bodies, Closed)
  {
    ReadFrames(bodies, Frame(body)[..sent], limit);
    PartialFrameStops(body, sent, limit);
    assert bodies + [] == bodies;
  }

  lemma PartialFrameStops(body: Bytes, sent: nat, limit: nat)
    requires |body| <= limit < TWO_TO_32 && sent < |Frame(body)|
    ensures Read(Frame(body)[..sent], limit) == Reading([], Closed)
  {
    hide FromLe, LengthBytes;
    LengthRoundTrip(|body|);
    var part := Frame(body)[..sent];
    if sent >= 4 { assert part[..4] == LengthBytes(|body|); }
  }

  /** What is left when reading stops. */
  ghost predicate Stuck(rest: Bytes, exit: Exit, limit: nat) {
    if |rest| < 4 then exit.Closed?
    else if FromLe(rest[..4]) > limit then exit.TooLarge?
    else exit.Closed? && |rest| < 4 + FromLe(rest[..4])
  }

  /**
   * The converse: the messages read are the only ones whose frames start the input and leave a rest that yields no
   * further message; the exit says why.
   */
  lemma ReadIff(input: Bytes, limit: nat, bodies: seq<Bytes>, exit: Exit)
    requires limit < TWO_TO_32
    ensures Read(input, limit) == Reading(bodies, exit) <==>
      && (forall i :: 0 <= i < |bodies| ==> |bodies[i]| <= limit)
      && Frames(bodies) <= input && Stuck(input[|Frames(bodies)|..], exit, limit)
  {
    if Read(input, limit) == Reading(bodies, exit) {
      ReadSound(input, limit);
    }
    if (forall i :: 0 <= i < |bodies| ==> |bodies[i]| <= limit) && Frames(bodies) <= input {
      var rest := input[|Frames(bodies)|..];
      if Stuck(rest, exit, limit) {
        ReadFrames(bodies, rest, limit);
        assert input == Frames(bodies) + rest && bodies + [] == bodies;
      }
    }
  }

  lemma {:induction false} ReadSound(input: Bytes, limit: nat)
    requires limit < TWO_TO_32
    ensures var r := Read(input, limit);
      && (forall i :: 0 <= i < |r.messages| ==> |r.messages[i]| <= limit)
      && Frames(r.messages) <= input && Stuck(input[|Frames(r.messages)|..], r.exit, limit)
    decreases |input|
  {
    hide FromLe, Frame;
    if |input| >= 4 {
      var len := FromLe(input[..4]);
      if len <= limit && 4 + len <= |input| {
        var body, rest := input[4..4 + len], input[4 + len..];
        ReadSound(rest, limit);
        StartsWithFrame(input, len);
        FrameInFront(input, body, rest, Read(rest, limit).messages);
      }
    }
  }

  lemma StartsWithFrame(input: Bytes, len: nat)
    requires 4 + len <= |input| && len < TWO_TO_32 && FromLe(input[..4]) == len
    ensures input == Frame(input[4..4 + len]) + input[4 + len..]
  {
    hide FromLe, LengthBytes;
    LengthRoundTrip(len);
    LittleEndianInjective(LengthBytes(len), input[..4]);
  }

  lemma FrameInFront(input: Bytes, body: Bytes, rest: Bytes, more: seq<Bytes>)
    requires input == Frame(body) + rest && Frames(more) <= rest
    ensures Frames([body] + more) <= input && input[|Frames([body] + more)|..] == rest[|Frames(more)|..]
  {
    hide Frame;
    assert ([body] + more)[1..] == more;
    assert Frames([body] + more) == Frame(body) + Frames(more);
  }

  /**
   * A request that has arrived whole is taken exactly when it has at most a million bytes; a longer one ends reading.
   */
  lemma RequestIsTakenIff(body: Bytes)
    requires |body| < TWO_TO_32
    ensures Read(Frame(body), MAX_MESSAGE) == Reading([body], Closed) <==> |body| <= 1_000_000
    ensures Read(Frame(body), MAX_MESSAGE) == Reading([], TooLarge) <==> |body| > 1_000_000
  {
    hide FromLe, LengthBytes;
    LengthRoundTrip(|body|);
    assert Frame(body)[..4] == LengthBytes(|body|);
    if |body| <= 1_000_000 {
      ReadOne(body, [], MAX_MESSAGE);
      assert Frame(body) + [] == Frame(body);
    }
  }

  /** A response comes back from its frame exactly when its length fits the 32 bits the writer keeps of it. */
  lemma ResponseRoundTripIff(body: Bytes)
    ensures Read(Frame(body), TWO_TO_32 - 1) == Reading([body], Closed) <==> |body| < TWO_TO_32
  {
    hide FromLe, LengthBytes;
    if |body| < TWO_TO_32 {
      ReadOne(body, [], TWO_TO_32 - 1);
      assert Frame(body) + [] == Frame(body);
    } else {
      LengthRoundTrip(|body|);
      assert Frame(body)[..4] == LengthBytes(|body|);
      assert |Read(Frame(body), TWO_TO_32 - 1).messages[0]| == |body| % TWO_TO_32;
    }
  }
}
