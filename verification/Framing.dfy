/** The wire frame: four length bytes, most significant first, and the body. */
module Framing {
  import opened Outcomes

  type Byte = b: int | 0 <= b < 256 witness 0

  const MAX_MESSAGE := 1024 * 1024

  datatype Frame = Message(body: seq<Byte>) | Closed | TooLong

  function Header(n: nat): seq<Byte>
    requires n < 0x1_0000_0000
  {
    [n / 0x100_0000, n / 0x1_0000 % 256, n / 256 % 256, n % 256]
  }

  function Size(header: seq<Byte>): nat
    requires |header| == 4
  {
    var a: int, b: int, c: int, d: int := header[0], header[1], header[2], header[3];
    ((a * 256 + b) * 256 + c) * 256 + d
  }

  lemma SizeOfHeader(n: nat)
    requires n < 0x1_0000_0000
    ensures Size(Header(n)) == n
  {
    var a, b, c := n / 256, n / 0x1_0000, n / 0x100_0000;
    assert b == a / 256 && c == b / 256;
    assert n == 256 * a + n % 256 && a == 256 * b + a % 256 && b == 256 * c + b % 256;
  }

  function Weight(bytes: seq<Byte>): int
    requires |bytes| == 4
  {
    var first: int, second: int, third: int, last: int := bytes[0], bytes[1], bytes[2], bytes[3];
    16777216 * first + 65536 * second + 256 * third + last
  }

  /** Most significant byte first, and nothing else: these four bytes are the only ones that weigh
      up to the length, the first of them the most. */
  lemma HeaderIsBigEndian(n: nat, header: seq<Byte>)
    requires n < 0x1_0000_0000 && |header| == 4
    ensures header == Header(n) <==> Weight(header) == n
  {
    SizeOfHeader(n);
    var a: int, b: int, c: int, d: int := header[0], header[1], header[2], header[3];
    if a * 0x100_0000 + b * 0x1_0000 + c * 0x100 + d == n {
      assert d == n % 256 && n / 256 == a * 0x1_0000 + b * 0x100 + c;
      assert c == n / 256 % 256 && n / 0x1_0000 == a * 0x100 + b;
      assert b == n / 0x1_0000 % 256 && n / 0x100_0000 == a;
    }
  }

  /** `encode_message`, for the bytes the value serializes to. */
  function Encode(body: seq<Byte>): Option<seq<Byte>> {
    if |body| > MAX_MESSAGE then None else Some(Header(|body|) + body)
  }

  /** What one receive makes of a stream, and what it leaves of it. */
  function Received(stream: seq<Byte>): (Frame, seq<Byte>) {
    if |stream| < 4 then (Closed, [])
    else
      var size := Size(stream[..4]);
      if size > MAX_MESSAGE then (TooLong, stream[4..])
      else if |stream| - 4 < size then (Closed, [])
      else (Message(stream[4..4 + size]), stream[4 + size..])
  }

  /** A socket: the bytes still to come, and how the kernel will cut them. */
  class Connection {
    var stream: seq<Byte>
    var cuts: seq<nat>

    constructor (bytes: seq<Byte>, chunks: seq<nat>)
      ensures stream == bytes && cuts == chunks
    {
      stream, cuts := bytes, chunks;
    }

    /** Some bytes, at most `size` and at least one while any are left; none means closed. */
    method Recv(size: nat) returns (chunk: seq<Byte>)
      requires size > 0
      modifies this
      ensures old(stream) == chunk + stream && |chunk| <= size
      ensures chunk == [] <==> old(stream) == []
    {
      var wanted := if cuts == [] then size else cuts[0];
      var most := if size < |stream| then size else |stream|;
      var n := if wanted == 0 then 1 else wanted;
      n := if n > most then most else n;
      cuts := if cuts == [] then [] else cuts[1..];
      chunk, stream := stream[..n], stream[n..];
    }

    /** `_read_exact`: all of `size` bytes, or nothing usable when the stream ends first. */
    method ReadExact(size: nat) returns (bytes: Option<seq<Byte>>)
      modifies this
      ensures if |old(stream)| >= size then bytes == Some(old(stream)[..size]) && stream == old(stream)[size..]
              else bytes == None && stream == []
    {
      var chunks: seq<Byte> := [];
      while |chunks| < size
        invariant old(stream) == chunks + stream && |chunks| <= size
        decreases size - |chunks|
      {
        var chunk := Recv(size - |chunks|);
        if chunk == [] {
          return None;
        }
        chunks := chunks + chunk;
      }
      return Some(chunks);
    }

    method ReceiveMessage() returns (frame: Frame)
      modifies this
      ensures (frame, stream) == Received(old(stream))
    {
      var header := ReadExact(4);
      if header.None? {
        return Closed;
      }
      var size := Size(header.value);
      if size > MAX_MESSAGE {
        return TooLong;
      }
      assert old(stream)[..4] == header.value && |stream| == |old(stream)| - 4;
      assert |stream| >= size ==> stream[..size] == old(stream)[4..4 + size] && stream[size..] == old(stream)[4 + size..];
      var body := ReadExact(size);
      return if body.None? then Closed else Message(body.value);
    }
  }

  // ---------- round trip ----------

  function Encoded(bodies: seq<seq<Byte>>): seq<Byte>
    requires forall b :: b in bodies ==> |b| <= MAX_MESSAGE
  {
    if bodies == [] then [] else Encode(bodies[0]).value + Encoded(bodies[1..])
  }

  /** As many receives as asked, one after the other. */
  function ReceivedAll(stream: seq<Byte>, n: nat): (seq<Frame>, seq<Byte>)
    decreases n
  {
    if n == 0 then ([], stream)
    else
      var one := Received(stream);
      var rest := ReceivedAll(one.1, n - 1);
      ([one.0] + rest.0, rest.1)
  }

  method ReceiveAll(connection: Connection, n: nat) returns (frames: seq<Frame>)
    modifies connection
    ensures (frames, connection.stream) == ReceivedAll(old(connection.stream), n)
  {
    frames := [];
    assert frames + ReceivedAll(connection.stream, n).0 == ReceivedAll(connection.stream, n).0;
    for i := 0 to n
      invariant var rest := ReceivedAll(connection.stream, n - i);
        ReceivedAll(old(connection.stream), n) == (frames + rest.0, rest.1)
    {
      ghost var rest := ReceivedAll(connection.stream, n - i);
      var frame := connection.ReceiveMessage();
      assert frames + rest.0 == (frames + [frame]) + ReceivedAll(connection.stream, n - i - 1).0;
      frames := frames + [frame];
    }
    assert frames + [] == frames;
  }

  lemma FrameRoundTrip(body: seq<Byte>, rest: seq<Byte>)
    requires |body| <= MAX_MESSAGE
    ensures Received(Encode(body).value + rest) == (Message(body), rest)
  {
    var stream := Encode(body).value + rest;
    SizeOfHeader(|body|);
    assert stream[..4] == Header(|body|);
    assert stream[4..4 + |body|] == body && stream[4 + |body|..] == rest;
  }

  /** A body is delivered exactly from its own encoding: four length bytes that announce at most a
      mebibyte, and then that many bytes. A longer announcement is refused after the length bytes. */
  lemma {:induction false} DeliveredIff(stream: seq<Byte>, body: seq<Byte>, rest: seq<Byte>)
    ensures Received(stream) == (Message(body), rest) <==> |body| <= 1048576 && stream == Header(|body|) + body + rest
    ensures Received(stream).0.TooLong? <==> |stream| >= 4 && Size(stream[..4]) > 1048576
    ensures Encode(body).Some? <==> |body| <= 1048576
  {
    if Received(stream) == (Message(body), rest) {
      var size := Size(stream[..4]);
      HeaderIsBigEndian(size, stream[..4]);
      assert stream == stream[..4] + stream[4..4 + size] + stream[4 + size..];
    }
    if |body| <= 1048576 && stream == Header(|body|) + body + rest {
      FrameRoundTrip(body, rest);
      assert Encode(body).value + rest == stream;
    }
  }

  function Messages(bodies: seq<seq<Byte>>): seq<Frame> {
    if bodies == [] then [] else [Message(bodies[0])] + Messages(bodies[1..])
  }

  lemma NextFrame(body: seq<Byte>, tail: seq<Byte>, n: nat)
    requires |body| <= MAX_MESSAGE
    ensures var rest := ReceivedAll(tail, n);
      ReceivedAll(Encode(body).value + tail, n + 1) == ([Message(body)] + rest.0, rest.1)
  {
    FrameRoundTrip(body, tail);
  }

  lemma FirstEncoded(bodies: seq<seq<Byte>>, rest: seq<Byte>)
    requires bodies != [] && forall b :: b in bodies ==> |b| <= MAX_MESSAGE
    ensures Encoded(bodies) + rest == Encode(bodies[0]).value + (Encoded(bodies[1..]) + rest)
  {
  }

  /** Any sequence of bodies up to a mebibyte comes back in order, from exactly its own bytes,
      however the stream is cut. */
  lemma {:induction false} StreamRoundTrip(bodies: seq<seq<Byte>>, rest: seq<Byte>)
    requires forall b :: b in bodies ==> |b| <= MAX_MESSAGE
    ensures ReceivedAll(Encoded(bodies) + rest, |bodies|) == (Messages(bodies), rest)
    decreases bodies
  {
    if bodies == [] {
      assert Encoded(bodies) + rest == rest;
    } else {
      FirstEncoded(bodies, rest);
      StreamRoundTrip(bodies[1..], rest);
      NextFrame(bodies[0], Encoded(bodies[1..]) + rest, |bodies| - 1);
    }
  }

  /** A truncated stream never yields a message it did not carry whole. */
  lemma TruncatedNeverDelivers(body: seq<Byte>, n: nat)
    requires |body| <= MAX_MESSAGE && n < |Encode(body).value|
    ensures Received(Encode(body).value[..n]) == (Closed, [])
  {
  }
}
