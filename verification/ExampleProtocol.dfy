/** The example protocol: a 4-byte big-endian length, one command byte, the payload. */
module ExampleProtocol {
  import opened Basics
  import opened Framing

  const HeaderSize: nat := 4
  const MaxPacketSize: nat := 0x10_0000

  /** The network-order value of the first four bytes. */
  function HeaderValue(d: seq<Byte>): nat
    requires |d| >= 4
  {
    (((d[0] as int) * 256 + d[1]) * 256 + d[2]) * 256 + d[3]
  }

  /** A 32-bit number in network order. */
  function Header(len: nat): seq<Byte>
    requires len < 0x1_0000_0000
  {
    [len / 0x100_0000, len / 0x1_0000 % 256, len / 0x100 % 256, len % 256]
  }

  lemma HeaderRoundTrip(len: nat)
    requires len < 0x1_0000_0000
    ensures HeaderValue(Header(len)) == len
  {
    var a, b, c := len / 256, len / 256 / 256, len / 256 / 256 / 256;
    assert len / 0x1_0000 == b && len / 0x100_0000 == c;
    assert len == a * 256 + len % 256 && a == b * 256 + a % 256 && b == c * 256 + b % 256;
  }

  datatype Packet = Packet(command: Byte, payload: seq<Byte>)

  datatype ParseResult = ParseNeedMore | ParseInvalid | ParseOk(consumed: nat, packet: Packet)

  /** Parsing one packet from the front of a string. */
  function ParsePacket(data: seq<Byte>): ParseResult {
    if |data| < HeaderSize then ParseNeedMore
    else
      var len := HeaderValue(data[..4]);
      if len < 1 then ParseInvalid
      else if len > MaxPacketSize then ParseInvalid
      else
        var total := HeaderSize + len;
        if |data| < total then ParseNeedMore
        else ParseOk(total, Packet(data[HeaderSize], data[HeaderSize + 1..][..len - 1]))
  }

  /** The router's extractor, which borrows the payload from the buffer. */
  function Extract(data: seq<Byte>): Extraction {
    if |data| < HeaderSize then NeedMore
    else
      var len := HeaderValue(data);
      if len < 1 || len > MaxPacketSize then Invalid
      else if |data| < HeaderSize + len then NeedMore
      else Ok(HeaderSize + len, Message(data[HeaderSize], data[5..5 + (len - 1)]))
  }

  /** The length field is a 32-bit number: a longer payload wraps. */
  function BuildPacket(command: Byte, payload: seq<Byte>): seq<Byte> {
    Header((1 + |payload|) % 0x1_0000_0000) + [command] + payload
  }

  /** The two parsers agree on every input. */
  lemma ParsersAgree(data: seq<Byte>)
    ensures Extract(data) == match ParsePacket(data)
                             case ParseNeedMore => NeedMore
                             case ParseInvalid => Invalid
                             case ParseOk(consumed, packet) => Ok(consumed, Message(packet.command, packet.payload))
  {
    if |data| >= 5 {
      var len := HeaderValue(data);
      if 1 <= len && |data| >= HeaderSize + len {
        assert data[HeaderSize + 1..][..len - 1] == data[5..5 + (len - 1)];
      }
    }
  }

  lemma ExtractFits()
    ensures Fits(Extract) && Stable(Extract)
  {
    forall d, more: seq<Byte> | !Extract(d).NeedMore?
      ensures Extract(d + more) == Extract(d)
    {
      ExtractStable(d, more);
    }
  }

  lemma ExtractStable(d: seq<Byte>, more: seq<Byte>)
    requires !Extract(d).NeedMore?
    ensures Extract(d + more) == Extract(d)
  {
    assert HeaderValue(d + more) == HeaderValue(d);
    var len := HeaderValue(d);
    if 1 <= len && |d| >= HeaderSize + len {
      assert (d + more)[5..5 + (len - 1)] == d[5..5 + (len - 1)];
    }
  }

  /** A payload of at most 2^20 - 1 bytes. */
  predicate Sendable(p: Packet) {
    |p.payload| <= 0xF_FFFF
  }

  /** What a built packet looks like: the length in network order, cut to 32 bits, the command, the payload. */
  lemma WireFormat(command: Byte, payload: seq<Byte>)
    ensures var out := BuildPacket(command, payload);
            && |out| == 5 + |payload| && out[4] == command && out[5..] == payload
            && LengthField(out) == (1 + |payload|) % 0x1_0000_0000
  {
    BuiltHeader(command, payload, []);
    assert BuildPacket(command, payload) + [] == BuildPacket(command, payload);
  }

  /** The first four bytes as a number, high byte first. */
  function LengthField(d: seq<Byte>): nat
    requires |d| >= 4
  {
    0x100_0000 * (d[0] as nat) + 0x1_0000 * (d[1] as nat) + 0x100 * (d[2] as nat) + d[3]
  }

  /** What each verdict means in terms of the bytes; the length counts the command and the payload. */
  lemma ParseMeans(d: seq<Byte>)
    ensures ParsePacket(d).ParseInvalid? <==> |d| >= 4 && !(1 <= LengthField(d) <= 0x10_0000)
    ensures ParsePacket(d).ParseOk? <==> |d| >= 4 && 1 <= LengthField(d) <= 0x10_0000 && |d| >= 4 + LengthField(d)
    ensures ParsePacket(d).ParseOk? ==>
              ParsePacket(d) == ParseOk(4 + LengthField(d), Packet(d[4], d[5..4 + LengthField(d)]))
  {
    if |d| >= 5 {
      var len := LengthField(d);
      if 1 <= len && |d| >= 4 + len {
        assert d[5..][..len - 1] == d[5..4 + len];
      }
    }
  }

  lemma BuiltHeader(command: Byte, payload: seq<Byte>, rest: seq<Byte>)
    ensures var data := BuildPacket(command, payload) + rest;
            && |data| == 5 + |payload| + |rest| && HeaderValue(data) == (1 + |payload|) % 0x1_0000_0000
            && data[4] == command && data[5..5 + |payload|] == payload && data[5 + |payload|..] == rest
  {
    var len := (1 + |payload|) % 0x1_0000_0000;
    HeaderRoundTrip(len);
    var data := BuildPacket(command, payload) + rest;
    assert data[..4] == Header(len);
  }

  /** A packet is read back as it was built exactly when its payload is at most 2^20 - 1 bytes long. */
  lemma PacketRoundTripIff(command: Byte, payload: seq<Byte>, rest: seq<Byte>)
    ensures ParsePacket(BuildPacket(command, payload) + rest) == ParseOk(5 + |payload|, Packet(command, payload))
            <==> |payload| <= 0xF_FFFF
  {
    BuiltHeader(command, payload, rest);
    var data := BuildPacket(command, payload) + rest;
    assert data[..4][0] == data[0] && data[..4][1] == data[1] && data[..4][2] == data[2] && data[..4][3] == data[3];
    assert data[HeaderSize + 1..][..|payload|] == data[5..5 + |payload|];
  }

  function Encode(ps: seq<Packet>): seq<Byte> {
    if ps == [] then [] else BuildPacket(ps[0].command, ps[0].payload) + Encode(ps[1..])
  }

  function Messages(ps: seq<Packet>): (ms: seq<Message>)
    ensures |ms| == |ps|
  {
    seq(|ps|, k requires 0 <= k < |ps| => Message(ps[k].command, ps[k].payload))
  }

  lemma ExtractBuilt(p: Packet, rest: seq<Byte>)
    requires Sendable(p)
    ensures var d := BuildPacket(p.command, p.payload) + rest;
            && Extract(d) == Ok(5 + |p.payload|, Message(p.command, p.payload))
            && |d| >= 5 + |p.payload| && d[5 + |p.payload|..] == rest
  {
    BuiltHeader(p.command, p.payload, rest);
  }

  lemma EncodeFirst(ps: seq<Packet>, tail: seq<Byte>)
    requires ps != []
    ensures Encode(ps) + tail == BuildPacket(ps[0].command, ps[0].payload) + (Encode(ps[1..]) + tail)
    ensures Messages(ps) == [Message(ps[0].command, ps[0].payload)] + Messages(ps[1..])
  {}

  /** A stream of packets and a partial one is cut into exactly those packets, and keeps exactly the rest. */
  lemma {:induction false} StreamRoundTrip(ps: seq<Packet>, tail: seq<Byte>)
    requires (forall k | 0 <= k < |ps| :: Sendable(ps[k])) && Tail(Extract, tail) && Fits(Extract)
    ensures Consume(Extract, Encode(ps) + tail) == (Messages(ps), tail) && Clean(Extract, Encode(ps) + tail)
    decreases |ps|
  {
    if ps == [] {
      assert Encode(ps) + tail == tail;
    } else {
      var rest := Encode(ps[1..]) + tail;
      StreamRoundTrip(ps[1..], tail);
      EncodeFirst(ps, tail);
      ExtractBuilt(ps[0], rest);
      ConsumeOne(Extract, Encode(ps) + tail, Message(ps[0].command, ps[0].payload), rest, Messages(ps[1..]), tail);
    }
  }

  /** The same for the router, fed with any split of the stream. */
  lemma AnySplitRoundTrip(ps: seq<Packet>, tail: seq<Byte>, chunks: seq<seq<Byte>>)
    requires (forall k | 0 <= k < |ps| :: Sendable(ps[k])) && Tail(Extract, tail)
    requires Concat(chunks) == Encode(ps) + tail
    ensures Fits(Extract)
    ensures Feed(Extract, [], chunks) == (Messages(ps), tail)
  {
    ExtractFits();
    StreamRoundTrip(ps, tail);
    assert [] + Concat(chunks) == Concat(chunks);
    ChunksDoNotMatter(Extract, [], chunks);
  }

  /**
   Where a stream with a bad header is split does matter: a first piece may be followed by anything,
   joined or not, without a difference, exactly when it is clean.
   */
  lemma SplitMattersIff(a: seq<Byte>)
    ensures Fits(Extract)
    ensures Clean(Extract, a) <==> forall b :: SameJoined(a, b)
  {
    ExtractFits();
    if Clean(Extract, a) {
      forall b
        ensures SameJoined(a, b)
      {
        ConsumeSplit(Extract, a, b);
      }
    } else {
      DirtySplit(a, BuildPacket(1, []));
    }
  }

  lemma DirtySplit(a: seq<Byte>, packet: seq<Byte>)
    requires Fits(Extract) && Stable(Extract) && !Clean(Extract, a) && packet == BuildPacket(1, [])
    ensures !SameJoined(a, packet)
  {
    OnePacket(packet);
    ConsumeSplit(Extract, a, packet);
    assert [] + packet == packet;
    var (ms, rest) := Consume(Extract, a);
    assert |(ms + Consume(Extract, rest + packet).0)| == |ms| + 1;
    assert |Consume(Extract, a + packet).0| == |ms|;
  }

  lemma OnePacket(packet: seq<Byte>)
    requires packet == BuildPacket(1, []) && Fits(Extract)
    ensures |Consume(Extract, packet).0| == 1
  {
    StreamRoundTrip([Packet(1, [])], []);
    assert Encode([Packet(1, [])]) == packet + Encode([]);
    assert packet + Encode([]) + [] == packet;
  }

  /** Two pieces give what they give joined. */
  ghost predicate SameJoined(a: seq<Byte>, b: seq<Byte>)
    requires Fits(Extract)
  {
    var (ms, rest) := Consume(Extract, a);
    Consume(Extract, a + b) == (ms + Consume(Extract, rest + b).0, Consume(Extract, rest + b).1)
  }
}
