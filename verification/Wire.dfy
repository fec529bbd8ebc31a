/**
 Byte-level framing: length-prefixed messages and UDP packets on a stream.
 Message bodies are laid out as bincode 1 does: fixed-width little-endian integers, enum
 variants as 32-bit numbers, and trailing bytes ignored when a body is read.
 */
module Wire {
  import opened Basics

  datatype WireError = Eof | Malformed | VersionMismatch(got: Byte)

  // ---- Integers ----

  function Be16(n: Port): (b: Bytes)
    ensures |b| == 2 && UnBe16(b) == n
  {
    [n / 0x100, n % 0x100]
  }

  function UnBe16(b: Bytes): Port
    requires |b| == 2
  {
    b[0] as int * 0x100 + b[1] as int
  }

  function Le16(n: Port): (b: Bytes)
    ensures |b| == 2 && UnLe16(b) == n
  {
    [n % 0x100, n / 0x100]
  }

  function UnLe16(b: Bytes): Port
    requires |b| == 2
  {
    b[1] as int * 0x100 + b[0] as int
  }

  /** An enum variant below 256 as a 32-bit little-endian number. */
  function Tag(n: Byte): Bytes {
    [n, 0, 0, 0]
  }

  // ---- Streams of any kind of item ----

  /** Items written back to back. */
  function WrittenAll<T>(write: T -> Bytes, items: seq<T>): Bytes {
    if items == [] then [] else write(items[0]) + WrittenAll(write, items[1..])
  }

  /** The next `k` items of a stream, and what is left of it. */
  function ReadAll<T>(read: Bytes -> Result<(T, Bytes), WireError>, s: Bytes, k: nat): Result<(seq<T>, Bytes), WireError>
    decreases k
  {
    if k == 0 then Ok(([], s))
    else
      match read(s)
      case Err(e) => Err(e)
      case Ok((item, rest)) =>
        match ReadAll(read, rest, k - 1)
        case Err(e) => Err(e)
        case Ok((more, left)) => Ok(([item] + more, left))
  }

  /** If every single item can be read off the front of a stream, a whole stream can be read. */
  lemma {:induction false} AllRoundTrip<T>(
    write: T -> Bytes, read: Bytes -> Result<(T, Bytes), WireError>, items: seq<T>, rest: Bytes)
    requires forall i, tail :: 0 <= i < |items| ==> read(write(items[i]) + tail) == Ok((items[i], tail))
    ensures ReadAll(read, WrittenAll(write, items) + rest, |items|) == Ok((items, rest))
    decreases |items|
  {
    if items == [] {
      assert WrittenAll(write, items) + rest == rest;
    } else {
      var tail := WrittenAll(write, items[1..]) + rest;
      AllRoundTrip(write, read, items[1..], rest);
      assert WrittenAll(write, items) + rest == write(items[0]) + tail;
      ReadFirst(read, write(items[0]) + tail, items, tail, rest);
    }
  }

  lemma ReadFirst<T>(read: Bytes -> Result<(T, Bytes), WireError>, s: Bytes, items: seq<T>, tail: Bytes, rest: Bytes)
    requires items != [] && read(s) == Ok((items[0], tail))
    requires ReadAll(read, tail, |items| - 1) == Ok((items[1..], rest))
    ensures ReadAll(read, s, |items|) == Ok((items, rest))
  {
    assert [items[0]] + items[1..] == items;
  }

  // ---- Length-prefixed frames ----

  /** What is written for a payload: its length cut to 16 bits, then all of it. */
  function Frame(payload: Bytes): Bytes {
    Be16(|payload| % 0x10000) + payload
  }

  /** One frame off the front of a stream, with what is left. */
  function ReadFrame(s: Bytes): Result<(Bytes, Bytes), WireError> {
    if |s| < 2 then Err(Eof)
    else
      var n := UnBe16(s[..2]);
      if |s| - 2 < n then Err(Eof) else Ok((s[2..][..n], s[2..][n..]))
  }

  /** A payload of any length is read back as its first (length mod 2^16) bytes, and the
      rest stays in the stream. */
  lemma ReadAfterWrite(payload: Bytes, rest: Bytes)
    ensures var n := |payload| % 0x10000;
      ReadFrame(Frame(payload) + rest) == Ok((payload[..n], payload[n..] + rest))
  {
    var n := |payload| % 0x10000;
    var s := Frame(payload) + rest;
    assert s[..2] == Be16(n);
    assert s[2..] == payload + rest;
    assert (payload + rest)[..n] == payload[..n] && (payload + rest)[n..] == payload[n..] + rest;
  }

  /** A frame round-trips exactly when its payload is shorter than 2^16 bytes. */
  lemma FrameRoundTripIff(payload: Bytes, rest: Bytes)
    ensures ReadFrame(Frame(payload) + rest) == Ok((payload, rest)) <==> |payload| < 0x10000
  {
    ReadAfterWrite(payload, rest);
    if |payload| >= 0x10000 {
      assert |payload[..|payload| % 0x10000]| < |payload|;
    } else {
      assert payload[|payload|..] + rest == rest && payload[..|payload|] == payload;
    }
  }

  /** Frames written back to back are read as exactly that sequence, and what follows them is
      left untouched. */
  lemma FramesRoundTrip(payloads: seq<Bytes>, rest: Bytes)
    requires forall i :: 0 <= i < |payloads| ==> |payloads[i]| < 0x10000
    ensures ReadAll(ReadFrame, WrittenAll(Frame, payloads) + rest, |payloads|) == Ok((payloads, rest))
  {
    forall i, tail | 0 <= i < |payloads| ensures ReadFrame(Frame(payloads[i]) + tail) == Ok((payloads[i], tail)) {
      FrameRoundTripIff(payloads[i], tail);
    }
    AllRoundTrip(Frame, ReadFrame, payloads, rest);
  }

  // ---- UDP packets ----

  type Octets4 = s: Bytes | |s| == 4 witness [0, 0, 0, 0]
  type Octets16 = s: Bytes | |s| == 16 witness [0, 0, 0, 0, 0, 0, 0, 0, 0, 0, 0, 0, 0, 0, 0, 0]

  /** A socket address as it travels: the flow and scope of an IPv6 address are not sent. */
  datatype Addr = V4(ip4: Octets4, port: Port) | V6(ip6: Octets16, port: Port)

  datatype Packet = Packet(from: Addr, data: Bytes)

  function AddrBytes(a: Addr): Bytes {
    match a
    case V4(ip, port) => Tag(0) + ip + Le16(port)
    case V6(ip, port) => Tag(1) + ip + Le16(port)
  }

  function Header(from: Addr, len: Port): Bytes {
    AddrBytes(from) + Le16(len)
  }

  /** The header fits the single length byte in front of it. */
  lemma HeaderFits(from: Addr, len: Port)
    ensures |Header(from, len)| == if from.V4? then 12 else 24
    ensures |Header(from, len)| < 0x100
  {
  }

  function DecodeHeader(b: Bytes): Result<(Addr, Port), WireError> {
    if |b| >= 12 && b[..4] == Tag(0) then
      Ok((V4(b[4..8], UnLe16(b[8..10])), UnLe16(b[10..12])))
    else if |b| >= 24 && b[..4] == Tag(1) then
      Ok((V6(b[4..20], UnLe16(b[20..22])), UnLe16(b[22..24])))
    else Err(Malformed)
  }

  lemma HeaderRoundTrip(from: Addr, len: Port)
    ensures DecodeHeader(Header(from, len)) == Ok((from, len))
  {
    var h := Header(from, len);
    match from
    case V4(ip, port) =>
      assert h[..4] == Tag(0) && h[4..8] == ip && h[8..10] == Le16(port) && h[10..12] == Le16(len);
    case V6(ip, port) =>
      assert h[..4] == Tag(1) && h[4..20] == ip && h[20..22] == Le16(port) && h[22..24] == Le16(len);
  }

  function WithHeader(header: Bytes, data: Bytes): Bytes {
    [|header| % 0x100] + header + data
  }

  function PacketBytes(p: Packet): Bytes {
    WithHeader(Header(p.from, |p.data| % 0x10000), p.data)
  }

  /** One packet: a header-length byte, the header, and as much data as the header says. */
  function ReadPacket(s: Bytes): Result<(Packet, Bytes), WireError> {
    if |s| < 1 || |s| - 1 < s[0] then Err(Eof)
    else
      var body := s[1..];
      match DecodeHeader(body[..s[0]])
      case Err(e) => Err(e)
      case Ok((from, n)) =>
        var data := body[s[0]..];
        if |data| < n then Err(Eof) else Ok((Packet(from, data[..n]), data[n..]))
  }

  lemma ReadWithHeader(header: Bytes, from: Addr, n: Port, data: Bytes, rest: Bytes)
    requires |header| < 0x100 && DecodeHeader(header) == Ok((from, n)) && n <= |data|
    ensures ReadPacket(WithHeader(header, data) + rest) == Ok((Packet(from, data[..n]), data[n..] + rest))
  {
    var s := WithHeader(header, data) + rest;
    assert s[0] == |header| && s[1..] == header + (data + rest);
    assert s[1..][..|header|] == header && s[1..][|header|..] == data + rest;
    assert (data + rest)[..n] == data[..n] && (data + rest)[n..] == data[n..] + rest;
  }

  /** Data of any length is read back as its first (length mod 2^16) bytes, and the rest stays
      in the stream. */
  lemma PacketAfterWrite(p: Packet, rest: Bytes)
    ensures var n := |p.data| % 0x10000;
      ReadPacket(PacketBytes(p) + rest) == Ok((Packet(p.from, p.data[..n]), p.data[n..] + rest))
  {
    var n := |p.data| % 0x10000;
    HeaderFits(p.from, n);
    HeaderRoundTrip(p.from, n);
    ReadWithHeader(Header(p.from, n), p.from, n, p.data, rest);
  }

  /** A packet round-trips exactly when its data is shorter than 2^16 bytes. */
  lemma PacketRoundTripIff(p: Packet, rest: Bytes)
    ensures ReadPacket(PacketBytes(p) + rest) == Ok((p, rest)) <==> |p.data| < 0x10000
  {
    PacketAfterWrite(p, rest);
    if |p.data| >= 0x10000 {
      assert |p.data[..|p.data| % 0x10000]| < |p.data|;
    } else {
      assert p.data[|p.data|..] + rest == rest;
      assert p.data[..|p.data|] == p.data;
    }
  }

  /** A whole stream of packets comes back with every address, port and payload in order. */
  lemma PacketsRoundTrip(ps: seq<Packet>, rest: Bytes)
    requires forall i :: 0 <= i < |ps| ==> |ps[i].data| < 0x10000
    ensures ReadAll(ReadPacket, WrittenAll(PacketBytes, ps) + rest, |ps|) == Ok((ps, rest))
  {
    forall i, tail | 0 <= i < |ps| ensures ReadPacket(PacketBytes(ps[i]) + tail) == Ok((ps[i], tail)) {
      PacketRoundTripIff(ps[i], tail);
    }
    AllRoundTrip(PacketBytes, ReadPacket, ps, rest);
  }

  // ---- Message bodies ----

  const PROTO_VERSION: Byte := 1

  type Digest = s: Bytes | |s| == 32 witness seq(32, i => 0)

  datatype Hello =
    | ControlChannelHello(version: Byte, digest: Digest)
    | DataChannelHello(version: Byte, digest: Digest)

  datatype DataCmd = StartForwardTcp(localPort: Option<Port>) | StartForwardUdp

  function HelloBytes(h: Hello): Bytes {
    match h
    case ControlChannelHello(v, d) => Tag(0) + [v] + d
    case DataChannelHello(v, d) => Tag(1) + [v] + d
  }

  /** Reading a greeting: a known variant, a full body, and our protocol version. */
  function DecodeHello(b: Bytes): Result<Hello, WireError> {
    if |b| < 37 || (b[..4] != Tag(0) && b[..4] != Tag(1)) then Err(Malformed)
    else if b[4] != PROTO_VERSION then Err(VersionMismatch(b[4]))
    else if b[..4] == Tag(0) then Ok(ControlChannelHello(b[4], b[5..37]))
    else Ok(DataChannelHello(b[4], b[5..37]))
  }

  function DataCmdBytes(c: DataCmd): Bytes {
    match c
    case StartForwardTcp(Some(p)) => Tag(0) + [1] + Le16(p)
    case StartForwardTcp(None) => Tag(0) + [0]
    case StartForwardUdp => Tag(1)
  }

  function DecodeDataCmd(b: Bytes): Result<DataCmd, WireError> {
    if |b| < 4 then Err(Malformed)
    else if b[..4] == Tag(1) then Ok(StartForwardUdp)
    else if b[..4] == Tag(0) && |b| >= 5 && b[4] == 0 then Ok(StartForwardTcp(None))
    else if b[..4] == Tag(0) && |b| >= 7 && b[4] == 1 then Ok(StartForwardTcp(Some(UnLe16(b[5..7]))))
    else Err(Malformed)
  }

  /** A greeting that was framed and sent is read back unless its version differs. */
  lemma HelloTravels(h: Hello, rest: Bytes)
    ensures var r := ReadFrame(Frame(HelloBytes(h)) + rest);
      && r == Ok((HelloBytes(h), rest))
      && DecodeHello(r.value.0) ==
           if h.version == PROTO_VERSION then Ok(h) else Err(VersionMismatch(h.version))
  {
    FrameRoundTripIff(HelloBytes(h), rest);
    var b := HelloBytes(h);
    assert b[..4] == Tag(if h.ControlChannelHello? then 0 else 1) && b[5..37] == h.digest;
  }

  lemma DataCmdTravels(c: DataCmd, rest: Bytes)
    ensures var r := ReadFrame(Frame(DataCmdBytes(c)) + rest);
      r == Ok((DataCmdBytes(c), rest)) && DecodeDataCmd(r.value.0) == Ok(c)
  {
    FrameRoundTripIff(DataCmdBytes(c), rest);
    var b := DataCmdBytes(c);
    match c
    case StartForwardTcp(Some(p)) =>
      assert b[..4] == Tag(0) && b[5..7] == Le16(p);
    case StartForwardTcp(None) =>
      assert b[..4] == Tag(0);
    case StartForwardUdp =>
      assert b[..4] == Tag(1);
  }

  // ---- The bytes themselves ----

  /** A frame starts with the two bytes of its length, the higher one first. */
  lemma FrameLayout(payload: Bytes)
    requires |payload| < 0x10000
    ensures Frame(payload) == [|payload| / 256, |payload| % 256] + payload
  {
    assert |payload| % 0x10000 == |payload|;
    assert Be16(|payload|) == [|payload| / 256, |payload| % 256];
  }

  /** A header is the address variant in four bytes, the address, its port and the data length, the
      lower bytes first. */
  lemma HeaderLayout(from: Addr, n: Port)
    ensures var tail := [from.port % 256, from.port / 256, n % 256, n / 256];
      Header(from, n) == if from.V4? then [0, 0, 0, 0] + from.ip4 + tail else [1, 0, 0, 0] + from.ip6 + tail
  {
  }

  /** A packet is the length of its header in one byte, the header, and the data. */
  lemma PacketLayout(p: Packet)
    requires |p.data| < 0x10000
    ensures PacketBytes(p) == [if p.from.V4? then 12 else 24] + Header(p.from, |p.data|) + p.data
  {
    HeaderFits(p.from, |p.data|);
  }

  /** Greetings and data commands start with their variant in four bytes. */
  lemma MessageLayout(version: Byte, digest: Digest, port: Port)
    ensures HelloBytes(ControlChannelHello(version, digest)) == [0, 0, 0, 0, version] + digest
    ensures HelloBytes(DataChannelHello(version, digest)) == [1, 0, 0, 0, version] + digest
    ensures DataCmdBytes(StartForwardTcp(Some(port))) == [0, 0, 0, 0, 1, port % 256, port / 256]
    ensures DataCmdBytes(StartForwardTcp(None)) == [0, 0, 0, 0, 0]
    ensures DataCmdBytes(StartForwardUdp) == [1, 0, 0, 0]
    ensures DecodeHello(HelloBytes(ControlChannelHello(version, digest))).Ok? <==> version == 1
  {
    HelloTravels(ControlChannelHello(version, digest), []);
  }

  // ---- What readers accept ----

  lemma Be16Of(b: Bytes)
    requires |b| == 2
    ensures Be16(UnBe16(b)) == b
  {
  }

  /** A frame is read exactly off a stream that starts with it. */
  lemma ReadsFrameIff(s: Bytes, payload: Bytes, rest: Bytes)
    ensures ReadFrame(s) == Ok((payload, rest)) <==> |payload| < 0x10000 && s == Frame(payload) + rest
  {
    if ReadFrame(s) == Ok((payload, rest)) {
      Be16Of(s[..2]);
      assert |payload| == UnBe16(s[..2]) && |payload| % 0x10000 == |payload|;
      assert s[2..] == payload + rest;
      assert s == Be16(|payload|) + (payload + rest) == Frame(payload) + rest;
    }
    if |payload| < 0x10000 && s == Frame(payload) + rest {
      FrameRoundTripIff(payload, rest);
    }
  }

  /** Trailing bytes of a body are ignored; apart from them, exactly the bytes of a data command are read
      as that command. */
  lemma ReadsDataCmdIff(b: Bytes, c: DataCmd)
    ensures DecodeDataCmd(b) == Ok(c) <==> DataCmdBytes(c) <= b
  {
    var x := DataCmdBytes(c);
    assert Tag(0) != Tag(1) by {
      assert Tag(0)[0] != Tag(1)[0];
    }
    match c
    case StartForwardTcp(Some(p)) =>
      assert x[..4] == Tag(0) && x[4] == 1 && x[5..7] == Le16(p);
      if x <= b {
        SameParts(x, b, 4, 5, 7);
        assert b[4] == x[4];
      }
      if DecodeDataCmd(b) == Ok(c) {
        Le16Of(b[5..7]);
        assert b[..7] == b[..4] + [b[4]] + b[5..7] == x;
      }
    case StartForwardTcp(None) =>
      assert x[..4] == Tag(0) && x[4] == 0 && |x| == 5;
      if x <= b {
        SameParts(x, b, 4, 5, 5);
        assert b[4] == x[4];
      }
      if DecodeDataCmd(b) == Ok(c) {
        assert b[..5] == b[..4] + [b[4]] == x;
      }
    case StartForwardUdp =>
      if DecodeDataCmd(b) == Ok(c) {
        assert b[..4] == x;
      }
  }

  /** ... exactly the bytes of a greeting of version 1 as that greeting ... */
  lemma ReadsHelloIff(b: Bytes, h: Hello)
    ensures DecodeHello(b) == Ok(h) <==> HelloBytes(h) <= b && h.version == 1
  {
    var x := HelloBytes(h);
    assert |x| == 37 && x[..4] == Tag(if h.ControlChannelHello? then 0 else 1) && x[4] == h.version && x[5..37] == h.digest;
    if |b| >= 37 {
      assert b[..37] == b[..4] + [b[4]] + b[5..37] && x == x[..4] + [x[4]] + x[5..37];
      if x <= b {
        SameParts(x, b, 4, 5, 37);
      }
      if DecodeHello(b) == Ok(h) {
        assert x == b[..37];
      }
    }
  }

  /** A prefix has the same pieces. */
  lemma SameParts(x: Bytes, b: Bytes, i: nat, j: nat, k: nat)
    requires x <= b && i <= j <= k <= |x|
    ensures b[..i] == x[..i] && b[i..j] == x[i..j] && b[j..k] == x[j..k]
  {
    assert forall n :: 0 <= n < |x| ==> b[n] == x[n];
  }

  lemma V4Iff(b: Bytes, from: Addr, n: Port)
    requires from.V4?
    ensures DecodeHeader(b) == Ok((from, n)) <==> Header(from, n) <= b
  {
    var x := Header(from, n);
    assert |x| == 12 && x[..4] == Tag(0) && x[4..8] == from.ip4 && x[8..10] == Le16(from.port) && x[10..12] == Le16(n);
    if x <= b {
      SameParts(x, b, 4, 8, 10);
      SameParts(x, b, 8, 10, 12);
    }
    if DecodeHeader(b) == Ok((from, n)) {
      Le16Of(b[8..10]);
      Le16Of(b[10..12]);
      assert b[..12] == b[..4] + b[4..8] + b[8..10] + b[10..12] == x;
    }
  }

  lemma V6Iff(b: Bytes, from: Addr, n: Port)
    requires from.V6?
    ensures DecodeHeader(b) == Ok((from, n)) <==> Header(from, n) <= b
  {
    var x := Header(from, n);
    assert |x| == 24 && x[..4] == Tag(1) && x[4..20] == from.ip6 && x[20..22] == Le16(from.port) && x[22..24] == Le16(n);
    if x <= b {
      SameParts(x, b, 4, 20, 22);
      SameParts(x, b, 20, 22, 24);
      assert Tag(0) != Tag(1) by {
        assert Tag(0)[0] != Tag(1)[0];
      }
    }
    if DecodeHeader(b) == Ok((from, n)) {
      Le16Of(b[20..22]);
      Le16Of(b[22..24]);
      assert b[..24] == b[..4] + b[4..20] + b[20..22] + b[22..24] == x;
    }
  }

  lemma Le16Of(b: Bytes)
    requires |b| == 2
    ensures Le16(UnLe16(b)) == b
  {
  }

  /** ... and exactly the bytes of a header as that header. */
  lemma ReadsHeaderIff(b: Bytes, from: Addr, n: Port)
    ensures DecodeHeader(b) == Ok((from, n)) <==> Header(from, n) <= b
  {
    if from.V4? {
      V4Iff(b, from, n);
    } else {
      V6Iff(b, from, n);
    }
  }

  // ---- The stream as an object ----

  /** One direction of a connection: bytes written and not yet read. */
  class Stream {
    var pending: Bytes

    constructor ()
      ensures pending == []
    {
      pending := [];
    }

    method WriteAll(bytes: Bytes)
      modifies this
      ensures pending == old(pending) + bytes
    {
      pending := pending + bytes;
    }

    /** Takes exactly `n` bytes; a shorter stream is used up and reported. */
    method ReadExact(n: nat) returns (r: Result<Bytes, WireError>)
      modifies this
      ensures r.Ok? <==> n <= |old(pending)|
      ensures r.Ok? ==> r.value == old(pending)[..n] && pending == old(pending)[n..]
      ensures r.Err? ==> r.error == Eof && pending == []
    {
      if |pending| < n {
        pending := [];
        return Err(Eof);
      }
      r := Ok(pending[..n]);
      pending := pending[n..];
    }

    method WriteLenPrefixed(payload: Bytes)
      modifies this
      ensures pending == old(pending) + Frame(payload)
    {
      WriteAll(Be16(|payload| % 0x10000));
      WriteAll(payload);
    }

    method ReadLenPrefixed() returns (r: Result<Bytes, WireError>)
      modifies this
      ensures match ReadFrame(old(pending))
        case Ok((payload, rest)) => r == Ok(payload) && pending == rest
        case Err(e) => r == Err(e) && pending == []
    {
      var prefix := ReadExact(2);
      if prefix.Err? {
        return prefix;
      }
      r := ReadExact(UnBe16(prefix.value));
    }

    /** The length byte, the header and the data, one write after the other. */
    method WriteParts(header: Bytes, data: Bytes)
      modifies this
      ensures pending == old(pending) + WithHeader(header, data)
    {
      WriteAll([|header| % 0x100]);
      WriteAll(header);
      WriteAll(data);
    }

    /** Writing a packet that owns its data. */
    method WritePacket(p: Packet)
      modifies this
      ensures pending == old(pending) + PacketBytes(p)
    {
      WriteParts(Header(p.from, |p.data| % 0x10000), p.data);
    }

    /** Writing a packet from a borrowed slice emits the same bytes. */
    method WriteSlice(from: Addr, data: Bytes)
      modifies this
      ensures pending == old(pending) + PacketBytes(Packet(from, data))
    {
      WriteParts(Header(from, |data| % 0x10000), data);
    }

    /** Reading the header-length byte and then one packet. */
    method ReadOnePacket() returns (r: Result<Packet, WireError>)
      modifies this
      ensures match ReadPacket(old(pending))
        case Ok((p, rest)) => r == Ok(p) && pending == rest
        case Err(e) => r == Err(e)
    {
      var first := ReadExact(1);
      if first.Err? {
        return Err(first.error);
      }
      var header := ReadExact(first.value[0]);
      if header.Err? {
        return Err(header.error);
      }
      var fields := DecodeHeader(header.value);
      if fields.Err? {
        return Err(fields.error);
      }
      var data := ReadExact(fields.value.1);
      if data.Err? {
        return Err(data.error);
      }
      r := Ok(Packet(fields.value.0, data.value));
    }
  }

  lemma WrittenNext<T>(write: T -> Bytes, items: seq<T>, i: nat, done: Bytes)
    requires i < |items|
    ensures done + WrittenAll(write, items[i..]) == done + write(items[i]) + WrittenAll(write, items[i + 1..])
    ensures WrittenAll(write, items[i..]) == write(items[i]) + WrittenAll(write, items[i + 1..])
  {
  }

  /** A peer that writes any number of messages back to back and a peer that then reads as many
      agree on every one of them, and the stream is empty afterwards. */
  method Converse(payloads: seq<Bytes>) returns (received: seq<Bytes>)
    requires forall i :: 0 <= i < |payloads| ==> |payloads[i]| < 0x10000
    ensures received == payloads
  {
    var stream := new Stream();
    for i := 0 to |payloads|
      invariant fresh(stream) && stream.pending + WrittenAll(Frame, payloads[i..]) == WrittenAll(Frame, payloads)
    {
      WrittenNext(Frame, payloads, i, stream.pending);
      stream.WriteLenPrefixed(payloads[i]);
    }
    received := [];
    for i := 0 to |payloads|
      invariant received == payloads[..i] && stream.pending == WrittenAll(Frame, payloads[i..])
    {
      WrittenNext(Frame, payloads, i, []);
      FrameRoundTripIff(payloads[i], WrittenAll(Frame, payloads[i + 1..]));
      var r := stream.ReadLenPrefixed();
      received := received + [r.value];
    }
    assert stream.pending == [];
  }
}
