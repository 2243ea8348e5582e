/** Request frames on a connection: a header of 48 bytes, then as many bytes of the body as the header says. */
module Frames {

  import opened Wire

  const NAME_SIZE := 32
  const BODY_SIZE := 480
  const HEADER_SIZE := 48
  const MAGIC := 0xabcd
  const VERSION := 1

  type UInt16 = x: int | 0 <= x < 0x1_0000

  /** Three bytes between `needReturn` and `seqno` are padding, which no one sets. */
  datatype Header = Header(
    magic: UInt16, version: UInt16, needReturn: bool, padding: seq<Byte>, seqno: Int32, bodyLength: Int32,
    name: seq<Byte>)

  datatype Message = Message(header: Header, body: seq<Byte>)

  predicate Shape(m: Message)
  {
    && |m.header.padding| == 3 && |m.header.name| == NAME_SIZE && |m.body| == BODY_SIZE
  }

  /** What the sender needs: the body's length fits the buffer. */
  predicate Sendable(m: Message)
  {
    Shape(m) && 0 <= m.header.bodyLength <= BODY_SIZE
  }

  function Bytes2(u: UInt16): (b: seq<Byte>)
    ensures |b| == 2
  {
    [(u % 256) as Byte, (u / 256) as Byte]
  }

  function Number2(b: seq<Byte>): UInt16
    requires |b| == 2
  {
    b[0] as int + 256 * b[1] as int
  }

  function HeaderBytes(h: Header): (b: seq<Byte>)
    requires |h.padding| == 3 && |h.name| == NAME_SIZE
    ensures |b| == HEADER_SIZE
  {
    Bytes2(h.magic) + Bytes2(h.version) + [if h.needReturn then 1 else 0] + h.padding
    + Bytes4(Unsigned(h.seqno)) + Bytes4(Unsigned(h.bodyLength)) + h.name
  }

  function HeaderOf(b: seq<Byte>): (h: Header)
    requires |b| == HEADER_SIZE
    ensures |h.padding| == 3 && |h.name| == NAME_SIZE
  {
    Header(Number2(b[..2]), Number2(b[2..4]), b[4] != 0, b[5..8], Signed(Number4(b[8..12])),
           Signed(Number4(b[12..16])), b[16..])
  }

  lemma HeaderRoundTrip(h: Header)
    requires |h.padding| == 3 && |h.name| == NAME_SIZE
    ensures HeaderOf(HeaderBytes(h)) == h
  {
    var b := HeaderBytes(h);
    assert b[..2] == Bytes2(h.magic) && b[2..4] == Bytes2(h.version) && b[5..8] == h.padding;
    assert b[8..12] == Bytes4(Unsigned(h.seqno)) && b[12..16] == Bytes4(Unsigned(h.bodyLength)) && b[16..] == h.name;
    IntRoundTrip(h.seqno);
    IntRoundTrip(h.bodyLength);
  }

  /** A number of four bytes, the lowest first. */
  function LittleEndian(b: seq<Byte>, at: nat): int
    requires at + 4 <= |b|
  {
    b[at] as int + 0x100 * b[at + 1] as int + 0x1_0000 * b[at + 2] as int + 0x100_0000 * b[at + 3] as int
  }

  /** Where the fields of a header lie in its 48 bytes. */
  lemma HeaderLayout(h: Header)
    requires |h.padding| == 3 && |h.name| == 32
    ensures var b := HeaderBytes(h);
      && |b| == 48
      && b[0] as int + 0x100 * b[1] as int == h.magic
      && b[2] as int + 0x100 * b[3] as int == h.version
      && (b[4] != 0 <==> h.needReturn)
      && LittleEndian(b, 8) == (if h.seqno < 0 then h.seqno + 0x1_0000_0000 else h.seqno)
      && LittleEndian(b, 12) == (if h.bodyLength < 0 then h.bodyLength + 0x1_0000_0000 else h.bodyLength)
      && b[16..48] == h.name
  {
    var b := HeaderBytes(h);
    assert b[..2] == Bytes2(h.magic) && b[2..4] == Bytes2(h.version);
    assert b[8..12] == Bytes4(Unsigned(h.seqno)) && b[12..16] == Bytes4(Unsigned(h.bodyLength)) && b[16..48] == h.name;
    Bytes4RoundTrip(Unsigned(h.seqno));
    Bytes4RoundTrip(Unsigned(h.bodyLength));
    hide Bytes4, HeaderBytes;
    FourAt(b, 8);
    FourAt(b, 12);
  }

  lemma FourAt(b: seq<Byte>, at: nat)
    requires at + 4 <= |b|
    ensures LittleEndian(b, at) == Number4(b[at..at + 4])
  {
  }

  function Zeros(n: nat): (z: seq<Byte>)
    ensures |z| == n
  {
    seq(n, _ => 0 as Byte)
  }

  function Frame(m: Message): seq<Byte>
    requires Sendable(m)
  {
    HeaderBytes(m.header) + m.body[..m.header.bodyLength]
  }

  function Stream(ms: seq<Message>): seq<Byte>
    requires forall i :: 0 <= i < |ms| ==> Sendable(ms[i])
  {
    if ms == [] then [] else Frame(ms[0]) + Stream(ms[1..])
  }

  /** What the reader of a connection makes of its bytes: a message and the rest, or a bad packet. */
  datatype Receipt = Received(message: Message, rest: seq<Byte>) | BadPacket

  /** Reads a header, then the body that it announces into a buffer of zeros. */
  function Receive(b: seq<Byte>): (r: Receipt)
    ensures r.Received? ==> |r.rest| < |b|
  {
    if |b| < HEADER_SIZE then BadPacket else
      var h := HeaderOf(b[..HEADER_SIZE]);
      var n := h.bodyLength;
      if n < 0 || n > BODY_SIZE || |b| - HEADER_SIZE < n then BadPacket
      else Received(Message(h, b[HEADER_SIZE..HEADER_SIZE + n] + Zeros(BODY_SIZE - n)), b[HEADER_SIZE + n..])
  }

  /** All the messages of a stream, up to its end or the first bad packet. */
  function ReceiveAll(b: seq<Byte>): seq<Message>
    decreases |b|
  {
    match Receive(b)
    case BadPacket => []
    case Received(m, rest) => [m] + ReceiveAll(rest)
  }

  /** The message without what is not sent of its body. */
  function Sent(m: Message): (r: Message)
    requires Sendable(m)
    ensures Sendable(r)
  {
    m.(body := m.body[..m.header.bodyLength] + Zeros(BODY_SIZE - m.header.bodyLength))
  }

  predicate ZeroTail(m: Message)
    requires Sendable(m)
  {
    forall k :: m.header.bodyLength <= k < BODY_SIZE ==> m.body[k] == 0
  }

  lemma FrameRoundTrip(m: Message, rest: seq<Byte>)
    requires Sendable(m)
    ensures Receive(Frame(m) + rest) == Received(Sent(m), rest)
  {
    var b, n := Frame(m) + rest, m.header.bodyLength;
    assert b[..HEADER_SIZE] == HeaderBytes(m.header);
    HeaderRoundTrip(m.header);
    hide HeaderOf, HeaderBytes;
    assert b[HEADER_SIZE..HEADER_SIZE + n] == m.body[..n];
    assert b[HEADER_SIZE + n..] == rest;
  }

  /** Frames sent one after another come apart into the messages that were sent. */
  lemma {:induction false} StreamRoundTrip(ms: seq<Message>)
    requires forall i :: 0 <= i < |ms| ==> Sendable(ms[i])
    ensures ReceiveAll(Stream(ms)) == seq(|ms|, i requires 0 <= i < |ms| => Sent(ms[i]))
  {
    if ms != [] {
      hide Frame, Sent, Sendable;
      FrameRoundTrip(ms[0], Stream(ms[1..]));
      StreamRoundTrip(ms[1..]);
      hide Receive;
      SentFirst(ms);
    }
  }

  lemma SentFirst(ms: seq<Message>)
    requires ms != [] && forall i :: 0 <= i < |ms| ==> Sendable(ms[i])
    ensures seq(|ms|, i requires 0 <= i < |ms| => Sent(ms[i]))
         == [Sent(ms[0])] + seq(|ms[1..]|, i requires 0 <= i < |ms[1..]| => Sent(ms[1..][i]))
  {
    hide Sent, Sendable;
  }

  /** A message arrives as it was exactly when the body is zero behind what is sent of it. */
  lemma SentIsWholeIff(m: Message)
    requires Sendable(m)
    ensures Sent(m) == m <==> ZeroTail(m)
  {
    var n := m.header.bodyLength;
    if Sent(m) == m {
      forall k | n <= k < BODY_SIZE ensures m.body[k] == 0 {
        assert Sent(m).body[k] == Zeros(BODY_SIZE - n)[k - n];
      }
    }
    if ZeroTail(m) {
      assert Sent(m).body == m.body;
    }
  }

  // ---- a request's parameter ----

  /** The message of a call: its parameter packed as a string into a zeroed body. */
  function Request(seqno: Int32, name: seq<Byte>, padding: seq<Byte>, param: seq<Byte>): (m: Message)
    requires |padding| == 3 && |name| == NAME_SIZE && |Packed([Str(param)])| <= BODY_SIZE
    ensures Sendable(m) && ZeroTail(m)
  {
    var packed := Packed([Str(param)]);
    Message(Header(MAGIC, VERSION, true, padding, seqno, |packed|, name), packed + Zeros(BODY_SIZE - |packed|))
  }

  lemma NulFreeString(param: seq<Byte>)
    requires 0 !in param
    ensures NulFree(Str(param))
  {
  }

  /** The service is given the parameter of the call, however many other frames come after it, under the header of a
      call: the magic number and version that the server checks, the service's name, and that a reply is wanted. */
  lemma ParameterArrives(seqno: Int32, name: seq<Byte>, padding: seq<Byte>, param: seq<Byte>, rest: seq<Byte>)
    requires |padding| == 3 && |name| == 32 && |Packed([Str(param)])| <= 480
    requires 0 !in param
    ensures var r := Receive(Frame(Request(seqno, name, padding, param)) + rest);
      && r.Received? && r.rest == rest
      && r.message.header == Header(0xabcd, 1, true, padding, seqno, |Packed([Str(param)])|, name)
      && |r.message.body| == 480
      && Parsed(r.message.body, [StringType]) == Got([Str(param)], r.message.header.bodyLength)
  {
    var m, vs := Request(seqno, name, padding, param), [Str(param)];
    assert TypesOf(vs) == [StringType];
    assert m.body == Packed(vs) + Zeros(BODY_SIZE - |Packed(vs)|) && m.header.bodyLength == |Packed(vs)|;
    assert m.header == Header(0xabcd, 1, true, padding, seqno, |Packed(vs)|, name) && |m.body| == 480;
    hide *;
    FrameRoundTrip(m, rest);
    SentIsWholeIff(m);
    PackRoundTrip(vs, Zeros(BODY_SIZE - |Packed(vs)|));
    SeenIsSentIff(vs);
    NulFreeString(param);
  }

  // ---- in buffers ----

  /** Copies the header, then the body behind it. */
  method SerializeMessage(m: Message, out: array<Byte>) returns (size: nat)
    requires Sendable(m) && |Frame(m)| <= out.Length
    modifies out
    ensures size == |Frame(m)| && out[..] == Written(old(out[..]), 0, Frame(m))
  {
    WrittenTwice(out[..], 0, HeaderBytes(m.header), m.body[..m.header.bodyLength]);
    MemCpy(out, 0, HeaderBytes(m.header));
    MemCpy(out, HEADER_SIZE, m.body[..m.header.bodyLength]);
    size := HEADER_SIZE + m.header.bodyLength;
  }

  /** Receives the header, then the body into a zeroed buffer. */
  method ReceiveMessage(stream: seq<Byte>, body: array<Byte>) returns (ok: bool, header: Header, rest: seq<Byte>)
    requires body.Length == BODY_SIZE && body[..] == Zeros(BODY_SIZE)
    modifies body
    ensures Receive(stream) == if ok then Received(Message(header, body[..]), rest) else BadPacket
  {
    header, rest := Header(0, 0, false, Zeros(3), 0, 0, Zeros(NAME_SIZE)), stream;
    if |stream| < HEADER_SIZE {
      return false, header, rest;
    }
    header, rest := HeaderOf(stream[..HEADER_SIZE]), stream[HEADER_SIZE..];
    var n := header.bodyLength;
    if n < 0 || n > BODY_SIZE || |rest| < n {
      return false, header, rest;
    }
    MemCpy(body, 0, rest[..n]);
    assert body[..] == stream[HEADER_SIZE..HEADER_SIZE + n] + Zeros(BODY_SIZE - n);
    rest := rest[n..];
    ok := true;
  }
}
