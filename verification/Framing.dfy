/** Length-prefixed packets over a byte stream (judge/bridge/base_handler.py, `read_size`, `read_sized_packet`, `handle`
    on the plain path, and `send`).  The stream may arrive in chunks of any sizes. */
module Framing {
  import opened Prelude

  type Byte = x: int | 0 <= x < 256

  const SIZE_LENGTH := 4
  const MAX_ALLOWED_PACKET_SIZE := 8 * 1024 * 1024

  // ---- big-endian sizes ----

  function Pack(n: int): (b: seq<Byte>)
    requires 0 <= n < 0x1_0000_0000
    ensures |b| == SIZE_LENGTH
  {
    [n / 0x100_0000, n / 0x1_0000 % 256, n / 256 % 256, n % 256]
  }

  function Unpack(b: seq<Byte>): (n: int)
    requires |b| == SIZE_LENGTH
    ensures 0 <= n < 0x1_0000_0000
  {
    ((b[0] as int * 256 + b[1] as int) * 256 + b[2] as int) * 256 + b[3] as int
  }

  lemma UnpackPack(n: int)
    requires 0 <= n < 0x1_0000_0000
    ensures Unpack(Pack(n)) == n
  {
    assert n / 256 / 256 == n / 0x1_0000 && n / 0x1_0000 / 256 == n / 0x100_0000;
  }

  /** Sizes go out most significant byte first. */
  lemma PackBigEndian(n: int)
    requires 0 <= n < 0x1_0000_0000
    ensures Pack(n)[0] as int * 0x100_0000 + Pack(n)[1] as int * 0x1_0000 + Pack(n)[2] as int * 0x100
            + Pack(n)[3] as int == n
  {
    assert n / 256 / 256 == n / 0x1_0000 && n / 0x1_0000 / 256 == n / 0x100_0000;
  }

  // ---- the wire format ----

  /** zlib as a pair of functions of which only this is assumed: what was compressed decompresses to itself. */
  datatype Zlib = Zlib(compress: string -> seq<Byte>, decompress: seq<Byte> -> Option<string>) {
    ghost predicate Inverse() {
      forall s :: decompress(compress(s)) == Some(s)
    }
  }

  /** The size field can hold the packet's compressed length. */
  predicate Sendable(z: Zlib, packet: string) {
    |z.compress(packet)| < 0x1_0000_0000
  }

  /** The receiver accepts the packet's frame. */
  predicate Small(z: Zlib, packet: string) {
    |z.compress(packet)| <= MAX_ALLOWED_PACKET_SIZE
  }

  ghost predicate AllSendable(z: Zlib, packets: seq<string>) {
    forall p :: p in packets ==> Sendable(z, p)
  }

  ghost predicate AllSmall(z: Zlib, packets: seq<string>) {
    forall p :: p in packets ==> Small(z, p)
  }

  function Frame(z: Zlib, packet: string): seq<Byte>
    requires Sendable(z, packet)
  {
    Pack(|z.compress(packet)|) + z.compress(packet)
  }

  function Stream(z: Zlib, packets: seq<string>): seq<Byte>
    requires AllSendable(z, packets)
  {
    if packets == [] then []
    else
      assert packets[0] in packets;
      Frame(z, packets[0]) + Stream(z, packets[1..])
  }

  lemma {:induction false} StreamConcat(z: Zlib, a: seq<string>, b: seq<string>)
    requires AllSendable(z, a + b)
    ensures AllSendable(z, a) && AllSendable(z, b)
    ensures Stream(z, a + b) == Stream(z, a) + Stream(z, b)
  {
    hide Frame, Sendable;
    assert forall p :: p in a + b <==> p in a || p in b;
    if a == [] {
      assert a + b == b;
    } else {
      assert (a + b)[1..] == a[1..] + b;
      assert (a + b)[0] == a[0];
      StreamConcat(z, a[1..], b);
    }
  }

  // ---- reading ----

  /** How reading ends: the peer closed before a size, the size was refused, the body was no zlib data, or the peer
      closed inside a body, where the loop over the body reads nothing for ever. */
  datatype End = Closed | TooLarge | Corrupt | Stuck

  datatype Parsed = Parsed(packets: seq<string>, end: End)

  /** The packets a byte stream carries, and why reading stops. */
  function Parse(z: Zlib, s: seq<Byte>): Parsed
    decreases |s|
  {
    if |s| < SIZE_LENGTH then Parsed([], Closed)
    else
      var size := Unpack(s[..SIZE_LENGTH]);
      if size > MAX_ALLOWED_PACKET_SIZE then Parsed([], TooLarge)
      else if SIZE_LENGTH + size > |s| then Parsed([], Stuck)
      else
        var packet := z.decompress(s[SIZE_LENGTH..SIZE_LENGTH + size]);
        if packet.None? then Parsed([], Corrupt)
        else
          var rest := Parse(z, s[SIZE_LENGTH + size..]);
          Parsed([packet.value] + rest.packets, rest.end)
  }

  /** The peer does not close in the middle of a body that is being read. */
  predicate Whole(z: Zlib, s: seq<Byte>)
    decreases |s|
  {
    |s| >= SIZE_LENGTH ==>
      var size := Unpack(s[..SIZE_LENGTH]);
      size <= MAX_ALLOWED_PACKET_SIZE ==>
        && SIZE_LENGTH + size <= |s|
        && (z.decompress(s[SIZE_LENGTH..SIZE_LENGTH + size]).Some? ==> Whole(z, s[SIZE_LENGTH + size..]))
  }

  /** Reading never ends exactly when the peer closes in the middle of a body that is being read. */
  lemma {:induction false} StuckIff(z: Zlib, s: seq<Byte>)
    ensures Parse(z, s).end == Stuck <==> !Whole(z, s)
    decreases |s|
  {
    if |s| >= SIZE_LENGTH {
      var size := Unpack(s[..SIZE_LENGTH]);
      if SIZE_LENGTH + size <= |s| { StuckIff(z, s[SIZE_LENGTH + size..]); }
    }
  }

  /** Such a stream: a size of one, and no body. */
  lemma StuckExample(z: Zlib)
    ensures Parse(z, [0, 0, 0, 1]) == Parsed([], Stuck)
  {
    var s: seq<Byte> := [0, 0, 0, 1];
    assert s[..SIZE_LENGTH] == s;
  }

  lemma FrameFirst(z: Zlib, p: string, s: seq<Byte>)
    requires z.Inverse() && Sendable(z, p)
    ensures Parse(z, Frame(z, p) + s)
         == if Small(z, p) then Parsed([p] + Parse(z, s).packets, Parse(z, s).end) else Parsed([], TooLarge)
  {
    hide Pack, Unpack;
    var body := z.compress(p);
    var t := Frame(z, p) + s;
    UnpackPack(|body|);
    assert t[..SIZE_LENGTH] == Pack(|body|);
    assert t[SIZE_LENGTH..SIZE_LENGTH + |body|] == body;
    assert t[SIZE_LENGTH + |body|..] == s;
  }

  /** Reading what was sent gives back the packets, in order, whatever follows them on the stream. */
  lemma {:induction false} ParseStream(z: Zlib, packets: seq<string>, tail: seq<Byte>)
    requires z.Inverse() && AllSendable(z, packets) && AllSmall(z, packets)
    ensures Parse(z, Stream(z, packets) + tail) == Parsed(packets + Parse(z, tail).packets, Parse(z, tail).end)
    decreases |packets|
  {
    hide Parse, Frame, Small, Sendable;
    if packets == [] {
      assert Stream(z, packets) + tail == tail;
      assert packets + Parse(z, tail).packets == Parse(z, tail).packets;
    } else {
      var p, rest := packets[0], packets[1..];
      assert p in packets && AllSmall(z, rest) && AllSendable(z, rest);
      FrameFirst(z, p, Stream(z, rest) + tail);
      assert Stream(z, packets) + tail == Frame(z, p) + (Stream(z, rest) + tail);
      ParseStream(z, rest, tail);
      assert [p] + (rest + Parse(z, tail).packets) == packets + Parse(z, tail).packets;
    }
  }

  /** The packets before the first one that is too large. */
  function Accepted(z: Zlib, packets: seq<string>): seq<string> {
    if packets == [] || !Small(z, packets[0]) then [] else [packets[0]] + Accepted(z, packets[1..])
  }

  /** Reading all that was sent: everything up to the first packet that is too large, which ends the connection. */
  lemma {:induction false} ParseSent(z: Zlib, packets: seq<string>)
    requires z.Inverse() && AllSendable(z, packets)
    ensures Parse(z, Stream(z, packets))
         == Parsed(Accepted(z, packets), if AllSmall(z, packets) then Closed else TooLarge)
    ensures AllSmall(z, packets) <==> Accepted(z, packets) == packets
    decreases |packets|
  {
    hide Frame, Small, Sendable, Unpack;
    if packets != [] {
      var p, rest := packets[0], packets[1..];
      assert p in packets && forall x :: x in packets <==> x == p || x in rest;
      FrameFirst(z, p, Stream(z, rest));
      ParseSent(z, rest);
      assert |Accepted(z, rest)| == |rest| ==> Accepted(z, rest) == rest by { AcceptedPrefix(z, rest); }
    }
  }

  lemma {:induction false} AcceptedPrefix(z: Zlib, packets: seq<string>)
    ensures Accepted(z, packets) <= packets
    decreases |packets|
  {
    if packets != [] && Small(z, packets[0]) { AcceptedPrefix(z, packets[1..]); }
  }

  /** If the peer goes away after k bytes, exactly the packets whose frames had gone out are delivered, and reading gets
      stuck exactly when the size of the next frame had gone out as well. */
  lemma CutStream(z: Zlib, packets: seq<string>, n: nat, k: nat)
    requires z.Inverse() && AllSendable(z, packets) && AllSmall(z, packets)
    requires n <= |packets| && k <= |Stream(z, packets)|
    requires |Stream(z, packets[..n])| <= k && (n < |packets| ==> k < |Stream(z, packets[..n + 1])|)
    ensures Parse(z, Stream(z, packets)[..k])
         == Parsed(packets[..n], if |Stream(z, packets[..n])| + SIZE_LENGTH <= k then Stuck else Closed)
  {
    hide Parse, Stream, Small, Sendable, Unpack;
    var gone := Stream(z, packets[..n]);
    assert packets == packets[..n] + packets[n..];
    StreamConcat(z, packets[..n], packets[n..]);
    var tail := Stream(z, packets)[|gone|..k];
    assert Stream(z, packets)[..k] == gone + tail;
    ParseStream(z, packets[..n], tail);
    if n < |packets| {
      var p := packets[n];
      assert packets[..n + 1] == packets[..n] + [p];
      StreamConcat(z, packets[..n], [p]);
      StreamConcat(z, packets[..n + 1], packets[n + 1..]);
      assert packets == packets[..n + 1] + packets[n + 1..];
      OneFrame(z, p);
      assert p in packets;
      assert tail == Frame(z, p)[..k - |gone|];
      CutFrame(z, p, k - |gone|);
    } else {
      assert packets[..n] == packets && tail == [];
      NoSize(z, tail);
    }
  }

  lemma OneFrame(z: Zlib, p: string)
    requires Sendable(z, p)
    ensures Stream(z, [p]) == Frame(z, p)
  {
    hide Frame;
    assert Stream(z, []) == [];
  }

  lemma CutFrame(z: Zlib, p: string, k: nat)
    requires Sendable(z, p) && Small(z, p) && k < |Frame(z, p)|
    ensures Parse(z, Frame(z, p)[..k]) == Parsed([], if SIZE_LENGTH <= k then Stuck else Closed)
  {
    hide Pack, Unpack;
    UnpackPack(|z.compress(p)|);
    if SIZE_LENGTH <= k { assert Frame(z, p)[..k][..SIZE_LENGTH] == Pack(|z.compress(p)|); }
  }

  lemma NoSize(z: Zlib, s: seq<Byte>)
    requires |s| < SIZE_LENGTH
    ensures Parse(z, s) == Parsed([], Closed)
  {}

  /** One packet further. */
  lemma Advance(z: Zlib, s: seq<Byte>, size: int)
    requires |s| >= SIZE_LENGTH && size == Unpack(s[..SIZE_LENGTH])
    ensures size > MAX_ALLOWED_PACKET_SIZE ==> Parse(z, s) == Parsed([], TooLarge)
    ensures size <= MAX_ALLOWED_PACKET_SIZE ==>
              var rest := s[SIZE_LENGTH..];
              if size > |rest| then Parse(z, s) == Parsed([], Stuck)
              else
                var packet := z.decompress(rest[..size]);
                && (packet.None? ==> Parse(z, s) == Parsed([], Corrupt))
                && (packet.Some? ==>
                      var p := Parse(z, rest[size..]);
                      Parse(z, s) == Parsed([packet.value] + p.packets, p.end))
  {
    if size <= MAX_ALLOWED_PACKET_SIZE && SIZE_LENGTH + size <= |s| {
      assert s[SIZE_LENGTH..][..size] == s[SIZE_LENGTH..SIZE_LENGTH + size];
      assert s[SIZE_LENGTH..][size..] == s[SIZE_LENGTH + size..];
    }
  }

  // ---- the connection ----

  class Connection {
    const z: Zlib
    /** Bytes sent by the peer and not yet received; the peer has closed after them. */
    var stream: seq<Byte>
    /** Packets handed on. */
    var delivered: seq<string>
    var gotPacket: bool
    /** Bytes sent to the peer, and the packets they carry. */
    var sent: seq<Byte>
    ghost var messages: seq<string>

    /** What was sent is the stream of the packets sent. */
    ghost predicate Valid()
      reads this
    {
      AllSendable(z, messages) && sent == Stream(z, messages)
    }

    constructor (z: Zlib, stream: seq<Byte>)
      ensures this.z == z && this.stream == stream && delivered == [] && !gotPacket
      ensures Valid() && messages == []
    {
      this.z := z;
      this.stream := stream;
      delivered := [];
      gotPacket := false;
      sent := [];
      messages := [];
    }

    /** A socket read: some non-empty first part of what is left, of at most n bytes; empty only at the end. */
    method Recv(n: nat) returns (data: seq<Byte>)
      requires n > 0
      modifies `stream
      ensures old(stream) == data + stream
      ensures |data| <= n && (data == [] <==> old(stream) == [])
    {
      if stream == [] {
        return [];
      }
      var k :| 1 <= k <= n && k <= |stream|;
      data := stream[..k];
      stream := stream[k..];
    }

    /** None when the peer closed before a whole size arrived. */
    method ReadSize() returns (size: Option<int>)
      modifies `stream
      ensures size.Some? <==> |old(stream)| >= SIZE_LENGTH
      ensures size.Some? ==> size.value == Unpack(old(stream)[..SIZE_LENGTH]) && stream == old(stream)[SIZE_LENGTH..]
    {
      var buffer: seq<Byte> := [];
      while |buffer| < SIZE_LENGTH
        invariant |buffer| <= SIZE_LENGTH
        invariant old(stream) == buffer + stream
      {
        var data := Recv(SIZE_LENGTH - |buffer|);
        if data == [] {
          return None;
        }
        buffer := buffer + data;
      }
      size := Some(Unpack(buffer));
    }

    /** Reads a body of the given size and hands it on; the result tells why reading must stop, if it must. The source
        goes on reading where this returns Stuck; what it would do then is `Spin`. */
    method ReadSizedPacket(size: nat) returns (stop: Option<End>)
      modifies `stream, `delivered, `gotPacket
      ensures size > MAX_ALLOWED_PACKET_SIZE ==> stop == Some(TooLarge) && unchanged(this)
      ensures size <= MAX_ALLOWED_PACKET_SIZE && size > |old(stream)| ==>
                stop == Some(Stuck) && stream == [] && delivered == old(delivered) && gotPacket == old(gotPacket)
      ensures size <= MAX_ALLOWED_PACKET_SIZE && size <= |old(stream)| ==>
                var packet := z.decompress(old(stream)[..size]);
                && stream == old(stream)[size..]
                && stop == (if packet.None? then Some(Corrupt) else None)
                && delivered == old(delivered) + (if packet.None? then [] else [packet.value])
                && gotPacket == (old(gotPacket) || packet.Some?)
    {
      if size > MAX_ALLOWED_PACKET_SIZE {
        return Some(TooLarge);
      }
      var buffer: seq<Byte> := [];
      var remainder: nat := size;
      while remainder != 0
        invariant old(stream) == buffer + stream
        invariant |buffer| + remainder == size
        invariant delivered == old(delivered) && gotPacket == old(gotPacket)
      {
        var data := Recv(remainder);
        if data == [] {
          return Some(Stuck);
        }
        remainder := remainder - |data|;
        buffer := buffer + data;
      }
      assert buffer == old(stream)[..size];
      stop := OnPacket(buffer);
    }

    /** The body loop once the peer has closed: however often it goes round, it reads nothing and nothing changes. */
    method Spin(remainder: nat, rounds: nat) returns (left: nat)
      requires stream == [] && remainder > 0
      modifies `stream
      ensures left == remainder && unchanged(this)
    {
      left := remainder;
      for i := 0 to rounds
        invariant left == remainder && stream == []
      {
        var data := Recv(left);
        left := left - |data|;
      }
    }

    method OnPacket(data: seq<Byte>) returns (stop: Option<End>)
      modifies `delivered, `gotPacket
      ensures var packet := z.decompress(data);
              && stop == (if packet.None? then Some(Corrupt) else None)
              && delivered == old(delivered) + (if packet.None? then [] else [packet.value])
              && gotPacket == (old(gotPacket) || packet.Some?)
    {
      var decompressed := z.decompress(data);
      if decompressed.None? {
        return Some(Corrupt);
      }
      gotPacket := true;
      delivered := delivered + [decompressed.value];
      stop := None;
    }

    /** Reads packets until the connection ends. */
    method Handle() returns (end: End)
      modifies `stream, `delivered, `gotPacket
      ensures delivered == old(delivered) + Parse(z, old(stream)).packets && end == Parse(z, old(stream)).end
      ensures end == Stuck ==> stream == []
    {
      hide Unpack, Pack, Parse;
      ghost var all, before := Parse(z, stream), delivered;
      while true
        invariant delivered + Parse(z, stream).packets == before + all.packets && Parse(z, stream).end == all.end
        decreases |stream|
      {
        ghost var s, sofar := stream, delivered;
        var size := ReadSize();
        if size.None? {
          NoSize(z, s);
          assert delivered + [] == delivered;
          return Closed;
        }
        Advance(z, s, size.value);
        var stop := ReadSizedPacket(size.value);
        if stop.Some? {
          assert sofar + [] == delivered;
          return stop.value;
        }
        assert sofar + Parse(z, s).packets == delivered + Parse(z, stream).packets;
      }
    }

    /** `send`: a packet whose size fits the size field goes out, so that a peer reading everything sent gets all
        packets sent so far, up to the first it finds too large; a longer one raises an error and nothing goes out. */
    method Send(packet: string) returns (ok: bool)
      requires Valid()
      modifies `sent, `messages
      ensures ok == Sendable(z, packet)
      ensures Valid() && messages == (if ok then old(messages) + [packet] else old(messages))
      ensures z.Inverse() && ok ==> Parse(z, sent).packets == Accepted(z, old(messages) + [packet])
      ensures !ok ==> sent == old(sent)
    {
      hide Frame, Parse, Accepted, Stream;
      var compressed := z.compress(packet);
      ok := |compressed| < 0x1_0000_0000;
      if ok {
        StreamConcat(z, messages, [packet]);
        OneFrame(z, packet);
        FrameIs(z, packet);
        sent := sent + (Pack(|compressed|) + compressed);
        messages := messages + [packet];
        if z.Inverse() { ParseSent(z, messages); }
      }
    }
  }

  lemma FrameIs(z: Zlib, packet: string)
    requires Sendable(z, packet)
    ensures Frame(z, packet) == Pack(|z.compress(packet)|) + z.compress(packet)
  {}

  /** Sending packets one by one and reading the stream, however it is cut into chunks, delivers exactly those packets
      in order, up to the first that is too large. */
  method RoundTrip(z: Zlib, packets: seq<string>) returns (peer: Connection, end: End)
    requires z.Inverse() && AllSendable(z, packets)
    ensures fresh(peer) && peer.delivered == Accepted(z, packets)
    ensures end == if AllSmall(z, packets) then Closed else TooLarge
    ensures AllSmall(z, packets) ==> peer.delivered == packets
  {
    var sender := new Connection(z, []);
    for k := 0 to |packets|
      invariant sender.Valid() && sender.z == z && fresh(sender)
      invariant sender.messages == packets[..k]
    {
      var ok := sender.Send(packets[k]);
      assert packets[..k + 1] == packets[..k] + [packets[k]];
    }
    assert packets[..|packets|] == packets;
    peer := new Connection(z, sender.sent);
    ParseSent(z, packets);
    end := peer.Handle();
  }
}
