/** Sizes as four big-endian bytes. */
module WireSize {
  function PutSize(n: nat): (b: seq<bv8>)
    requires n < 0x1_0000_0000
    ensures |b| == 4
  {
    [(n / 256 / 256 / 256) as bv8, (n / 256 / 256 % 256) as bv8, (n / 256 % 256) as bv8, (n % 256) as bv8]
  }

  function GetSize(b: seq<bv8>): nat
    requires |b| == 4
  {
    ((b[0] as int * 256 + b[1] as int) * 256 + b[2] as int) * 256 + b[3] as int
  }

  lemma Doubles(h: bv8)
    requires h as int < 128
    ensures (h << 1) as int == 2 * (h as int) && ((h << 1) | 1) as int == 2 * (h as int) + 1
  {
  }

  /** The byte of a number, bit by bit. */
  ghost function Bits(n: nat): (b: bv8)
    requires n < 256
    ensures b as int == n
  {
    if n == 0 then 0
    else
      var h := Bits(n / 2);
      Doubles(h);
      if n % 2 == 1 then (h << 1) | 1 else h << 1
  }

  lemma SameByte(n: nat, b: bv8)
    requires n < 256 && b as int == n
    ensures n as bv8 == b
  {
  }

  lemma ByteRound(n: nat)
    requires n < 256
    ensures (n as bv8) as int == n
  {
    SameByte(n, Bits(n));
  }

  lemma SizeRound(n: nat)
    requires n < 0x1_0000_0000
    ensures GetSize(PutSize(n)) == n
  {
    var b := PutSize(n);
    ByteRound(n / 256 / 256 / 256);
    ByteRound(n / 256 / 256 % 256);
    ByteRound(n / 256 % 256);
    ByteRound(n % 256);
    assert b[0] as int == n / 256 / 256 / 256 && b[1] as int == n / 256 / 256 % 256;
    assert b[2] as int == n / 256 % 256 && b[3] as int == n % 256;
    var a, c := n / 256, n / 256 / 256;
    assert n == a * 256 + n % 256 && a == c * 256 + a % 256 && c == c / 256 * 256 + c % 256;
  }
}

/** The AllRelay packet format: the Go writer (allrelay-server/internal/audio/ogg.go), the Go reader
    and demultiplexer (allrelay-server/internal/protocol/packet.go, demuxer.go) and the C reader
    (scrcpy/app/src/demuxer.c). */
module Wire {
  import opened Wrappers
  import opened WireSize

  type Bytes = seq<bv8>

  const HEADER_SIZE := 16
  const MAX_PAYLOAD := 16 * 1024 * 1024
  const FLAG_SESSION: bv64 := 1 << 63
  const FLAG_CONFIG: bv64 := 1 << 62
  const FLAG_KEY_FRAME: bv64 := 1 << 61
  const PTS_MASK: bv64 := (1 << 53) - 1
  /** The C reader's mask is wider. */
  const C_PTS_MASK: bv64 := FLAG_KEY_FRAME - 1

  // ---- big-endian numbers

  function Put32(x: bv32): (b: Bytes)
    ensures |b| == 4
  {
    [((x >> 24) & 0xff) as bv8, ((x >> 16) & 0xff) as bv8, ((x >> 8) & 0xff) as bv8, (x & 0xff) as bv8]
  }

  function Get32(b: Bytes): bv32
    requires |b| == 4
  {
    ((b[0] as bv32) << 24) | ((b[1] as bv32) << 16) | ((b[2] as bv32) << 8) | (b[3] as bv32)
  }

  function Put64(x: bv64): (b: Bytes)
    ensures |b| == 8
  {
    [((x >> 56) & 0xff) as bv8, ((x >> 48) & 0xff) as bv8, ((x >> 40) & 0xff) as bv8, ((x >> 32) & 0xff) as bv8,
     ((x >> 24) & 0xff) as bv8, ((x >> 16) & 0xff) as bv8, ((x >> 8) & 0xff) as bv8, (x & 0xff) as bv8]
  }

  function Get64(b: Bytes): bv64
    requires |b| == 8
  {
    ((b[0] as bv64) << 56) | ((b[1] as bv64) << 48) | ((b[2] as bv64) << 40) | ((b[3] as bv64) << 32)
    | ((b[4] as bv64) << 24) | ((b[5] as bv64) << 16) | ((b[6] as bv64) << 8) | (b[7] as bv64)
  }

  lemma Round32(x: bv32)
    ensures Get32(Put32(x)) == x
  {
  }

  lemma Round64(x: bv64)
    ensures Get64(Put64(x)) == x
  {
  }

  // ---- WritePacket

  datatype Packet = Packet(id: bv32, flags: bv64, pts: bv64, payload: Bytes)

  /** The length is cut to 32 bits. */
  function Write(p: Packet): Bytes {
    Put32(p.id) + Put64(p.pts | p.flags) + PutSize(|p.payload| % 0x1_0000_0000) + p.payload
  }

  // ---- ReadHeader and ReadPayload

  datatype Header = Header(id: bv32, ptsAndFlags: bv64, payloadSize: nat, width: nat, height: nat)
  {
    predicate IsSession() { ptsAndFlags & FLAG_SESSION != 0 }
    predicate IsConfig() { ptsAndFlags & FLAG_CONFIG != 0 }
    predicate IsKeyFrame() { ptsAndFlags & FLAG_KEY_FRAME != 0 }
    function PTS(): bv64 { ptsAndFlags & PTS_MASK }
  }

  /** A result of reading, with what the reader holds afterwards. */
  datatype Read<T> = Eof | Truncated | TooLarge | Got(value: T, rest: Bytes)

  function ParseHeader(b: Bytes): Header
    requires |b| == HEADER_SIZE
  {
    var upper := Get32(b[4..8]);
    if upper & 0x8000_0000 != 0
    then Header(Get32(b[..4]), (upper as bv64) << 32, 0, GetSize(b[8..12]), GetSize(b[12..16]))
    else Header(Get32(b[..4]), Get64(b[4..12]), GetSize(b[12..16]), 0, 0)
  }

  function ReadHeader(d: Bytes): Read<Header> {
    if d == [] then Eof
    else if |d| < HEADER_SIZE then Truncated
    else Got(ParseHeader(d[..HEADER_SIZE]), d[HEADER_SIZE..])
  }

  function ReadPayload(d: Bytes, size: nat): Read<Bytes> {
    if size == 0 then Got([], d)
    else if size > MAX_PAYLOAD then TooLarge
    else if size > |d| then Truncated
    else Got(d[..size], d[size..])
  }

  // ---- Demuxer.Run

  datatype Delivery = Delivery(header: Header, payload: Bytes)

  /** What the handlers are called with behind `done`, and whether Run ends without an error. */
  function Demux(d: Bytes, handlers: set<bv32>, done: seq<Delivery>): (seq<Delivery>, bool)
    decreases |d|
  {
    var h := ReadHeader(d);
    if !h.Got? then (done, h.Eof?)
    else
      var p := ReadPayload(h.rest, h.value.payloadSize);
      if !p.Got? then (done, false)
      else Demux(p.rest, handlers, if h.value.id in handlers then done + [Delivery(h.value, p.value)] else done)
  }

  class Demuxer {
    var reader: Bytes
    var handlers: set<bv32>
    var delivered: seq<Delivery>

    constructor (input: Bytes)
      ensures reader == input && handlers == {} && delivered == []
    {
      reader, handlers, delivered := input, {}, [];
    }

    method RegisterHandler(id: bv32)
      modifies this`handlers
      ensures handlers == old(handlers) + {id}
    {
      handlers := handlers + {id};
    }

    method Run() returns (ok: bool)
      modifies this`reader, this`delivered
      ensures (delivered, ok) == Demux(old(reader), handlers, old(delivered))
    {
      while true
        invariant Demux(reader, handlers, delivered) == Demux(old(reader), handlers, old(delivered))
        decreases |reader|
      {
        var h := ReadHeader(reader);
        if !h.Got? {
          return h.Eof?;
        }
        reader := h.rest;
        var p := ReadPayload(reader, h.value.payloadSize);
        if !p.Got? {
          return false;
        }
        reader := p.rest;
        if h.value.id in handlers {
          delivered := delivered + [Delivery(h.value, p.value)];
        }
      }
    }
  }

  // ---- the C reader

  datatype CPacket = CPacket(id: bv32, pts: Option<bv64>, key: bool, data: Bytes)
  datatype CRead = CEnd | CFailed | CSession(width: nat, height: nat, resized: bool, rest: Bytes) | CGot(packet: CPacket, rest: Bytes)

  predicate CIsSession(b: Bytes)
    requires |b| == HEADER_SIZE
  {
    b[4] & 0x80 != 0
  }

  /** sc_demuxer_recv_header, then a session or sc_demuxer_recv_packet. */
  function CReadPacket(d: Bytes): CRead {
    if |d| < HEADER_SIZE then CEnd
    else
      var b := d[..HEADER_SIZE];
      if CIsSession(b) then CSession(GetSize(b[8..12]), GetSize(b[12..16]), b[7] & 1 != 0, d[HEADER_SIZE..])
      else
        var pf := Get64(b[4..12]);
        var len := GetSize(b[12..16]);
        if len == 0 || HEADER_SIZE + len > |d| then CFailed
        else
          CGot(CPacket(Get32(b[..4]), if pf & FLAG_CONFIG != 0 then None else Some(pf & C_PTS_MASK), pf & FLAG_KEY_FRAME != 0,
                       d[HEADER_SIZE..HEADER_SIZE + len]),
               d[HEADER_SIZE + len..])
  }

  /** What the C demuxer passes on: packets and sessions. */
  datatype CEvent = CMedia(packet: CPacket) | CSize(width: nat, height: nat, resized: bool)

  function CReadAll(d: Bytes, done: seq<CEvent>): (seq<CEvent>, bool)
    decreases |d|
  {
    match CReadPacket(d)
    case CEnd => (done, true)
    case CFailed => (done, false)
    case CSession(w, h, resized, rest) => CReadAll(rest, done + [CSize(w, h, resized)])
    case CGot(p, rest) => CReadAll(rest, done + [CMedia(p)])
  }

  // ---------------------------------------------------------------------------------------
  // The round trip

  /** No session bit, a timestamp below 2^53, a payload within the limit. */
  predicate Proper(p: Packet) {
    p.flags & FLAG_SESSION == 0 && p.pts <= PTS_MASK && |p.payload| <= MAX_PAYLOAD
  }

  function Sent(p: Packet): Delivery {
    Delivery(Header(p.id, p.pts | p.flags, |p.payload|, 0, 0), p.payload)
  }

  lemma Fields(id: Bytes, pf: Bytes, size: Bytes, payload: Bytes, rest: Bytes)
    requires |id| == 4 && |pf| == 8 && |size| == 4
    ensures var d := id + pf + size + payload + rest; var b := d[..HEADER_SIZE];
            && |d| == HEADER_SIZE + |payload| + |rest|
            && b[..4] == id && b[4..8] == pf[..4] && b[4..12] == pf && b[12..16] == size
            && d[HEADER_SIZE..] == payload + rest
  {
    var d := id + pf + size + payload + rest;
    var b := d[..HEADER_SIZE];
    assert b == id + pf + size;
  }

  lemma NotSession(x: bv64)
    requires x & FLAG_SESSION == 0
    ensures Get32(Put64(x)[..4]) & 0x8000_0000 == 0 && Put64(x)[0] & 0x80 == 0
  {
    var b := Put64(x);
    assert b[..4] == [b[0], b[1], b[2], b[3]];
  }

  lemma NoSessionBit(p: Packet)
    requires Proper(p)
    ensures (p.pts | p.flags) & FLAG_SESSION == 0
  {
  }

  /** A header without the session bit, from its fields. */
  lemma ParsesFields(b: Bytes, id: bv32, pf: bv64, size: nat)
    requires |b| == HEADER_SIZE && b[..4] == Put32(id) && b[4..8] == Put64(pf)[..4] && b[4..12] == Put64(pf)
    requires size < 0x1_0000_0000 && b[12..16] == PutSize(size) && pf & FLAG_SESSION == 0
    ensures ParseHeader(b) == Header(id, pf, size, 0, 0)
  {
    NotSession(pf);
    Round32(id);
    Round64(pf);
    SizeRound(size);
  }

  lemma PayloadReadsBack(payload: Bytes, rest: Bytes)
    requires |payload| <= MAX_PAYLOAD
    ensures ReadPayload(payload + rest, |payload|) == Got(payload, rest)
  {
    assert (payload + rest)[..|payload|] == payload && (payload + rest)[|payload|..] == rest;
    assert [] + rest == rest;
  }

  lemma ReadsBack(p: Packet, rest: Bytes)
    requires Proper(p)
    ensures ReadHeader(Write(p) + rest) == Got(Sent(p).header, p.payload + rest)
    ensures ReadPayload(p.payload + rest, |p.payload|) == Got(p.payload, rest)
  {
    var n, pf := |p.payload|, p.pts | p.flags;
    assert n % 0x1_0000_0000 == n;
    Fields(Put32(p.id), Put64(pf), PutSize(n), p.payload, rest);
    NoSessionBit(p);
    ParsesFields((Write(p) + rest)[..HEADER_SIZE], p.id, pf, n);
    PayloadReadsBack(p.payload, rest);
  }

  // ---- what Run makes of any input

  /** A header and the payload that it announces. */
  datatype Frame = Frame(header: Bytes, payload: Bytes)

  /** The length in bytes 12 to 15, most significant first; a session has no payload. */
  function Announced(b: Bytes): nat
    requires |b| == 16
  {
    if b[4] & 0x80 != 0 then 0
    else b[12] as int * 0x100_0000 + b[13] as int * 0x1_0000 + b[14] as int * 0x100 + b[15] as int
  }

  predicate IsFrame(f: Frame) {
    |f.header| == 16 && |f.payload| == Announced(f.header) && |f.payload| <= 16777216
  }

  /** What no frame begins: a header cut short, an announced length above 16 MiB, or a payload cut
      short. */
  predicate Broken(d: Bytes) {
    d != [] && (|d| < 16 || Announced(d[..16]) > 16777216 || |d| < 16 + Announced(d[..16]))
  }

  function FrameBytes(fs: seq<Frame>): Bytes {
    if fs == [] then [] else fs[0].header + fs[0].payload + FrameBytes(fs[1..])
  }

  /** The delivery that a frame makes, if its stream has a handler. */
  function FrameDelivery(f: Frame): Delivery
    requires IsFrame(f)
  {
    Delivery(ParseHeader(f.header), f.payload)
  }

  function FrameDeliveries(fs: seq<Frame>, handlers: set<bv32>, done: seq<Delivery>): seq<Delivery>
    requires forall i :: 0 <= i < |fs| ==> IsFrame(fs[i])
  {
    if fs == [] then done
    else
      var d := FrameDelivery(fs[0]);
      FrameDeliveries(fs[1..], handlers, if d.header.id in handlers then done + [d] else done)
  }

  lemma SessionBits(a: bv8, b: bv8, c: bv8, e: bv8)
    ensures Get32([a, b, c, e]) & 0x8000_0000 != 0 <==> a & 0x80 != 0
  {
  }

  lemma AnnouncedIsParsed(b: Bytes)
    requires |b| == 16
    ensures ParseHeader(b).payloadSize == Announced(b)
  {
    assert b[4..8] == [b[4], b[5], b[6], b[7]];
    SessionBits(b[4], b[5], b[6], b[7]);
  }

  lemma FrameReads(f: Frame, rest: Bytes)
    requires IsFrame(f)
    ensures ReadHeader(f.header + f.payload + rest) == Got(ParseHeader(f.header), f.payload + rest)
    ensures ReadPayload(f.payload + rest, ParseHeader(f.header).payloadSize) == Got(f.payload, rest)
  {
    var d := f.header + f.payload + rest;
    assert d[..16] == f.header && d[16..] == f.payload + rest;
    AnnouncedIsParsed(f.header);
    PayloadReadsBack(f.payload, rest);
  }

  lemma BrokenFails(d: Bytes, handlers: set<bv32>, done: seq<Delivery>)
    requires Broken(d)
    ensures Demux(d, handlers, done) == (done, false)
  {
    if |d| >= 16 { AnnouncedIsParsed(d[..16]); }
  }

  /** Run delivers exactly the whole frames at the head of its input, and ends without an error exactly
      if nothing is left behind them. */
  lemma {:induction false} RunExactly(fs: seq<Frame>, tail: Bytes, handlers: set<bv32>, done: seq<Delivery>)
    requires (forall i :: 0 <= i < |fs| ==> IsFrame(fs[i])) && (tail == [] || Broken(tail))
    ensures Demux(FrameBytes(fs) + tail, handlers, done) == (FrameDeliveries(fs, handlers, done), tail == [])
    decreases |fs|
  {
    if fs == [] {
      assert FrameBytes(fs) + tail == tail;
      if tail != [] { BrokenFails(tail, handlers, done); }
    } else {
      var d := FrameDelivery(fs[0]);
      var next := if d.header.id in handlers then done + [d] else done;
      BytesCons(fs, tail);
      RunFirst(fs[0], FrameBytes(fs[1..]) + tail, handlers, done);
      DeliveriesCons(fs, handlers, done, next);
      RunExactly(fs[1..], tail, handlers, next);
    }
  }

  lemma BytesCons(fs: seq<Frame>, tail: Bytes)
    requires fs != []
    ensures FrameBytes(fs) + tail == fs[0].header + fs[0].payload + (FrameBytes(fs[1..]) + tail)
  {
    Associate(fs[0].header, fs[0].payload, FrameBytes(fs[1..]), tail);
  }

  lemma Associate(a: Bytes, b: Bytes, c: Bytes, d: Bytes)
    ensures a + b + c + d == a + b + (c + d)
  {
  }

  lemma DeliveriesCons(fs: seq<Frame>, handlers: set<bv32>, done: seq<Delivery>, next: seq<Delivery>)
    requires fs != [] && forall i :: 0 <= i < |fs| ==> IsFrame(fs[i])
    requires next == if FrameDelivery(fs[0]).header.id in handlers then done + [FrameDelivery(fs[0])] else done
    ensures FrameDeliveries(fs, handlers, done) == FrameDeliveries(fs[1..], handlers, next)
  {
  }

  lemma RunFirst(f: Frame, rest: Bytes, handlers: set<bv32>, done: seq<Delivery>)
    requires IsFrame(f)
    ensures var d := FrameDelivery(f);
            Demux(f.header + f.payload + rest, handlers, done) == Demux(rest, handlers, if d.header.id in handlers then done + [d] else done)
  {
    FrameReads(f, rest);
  }

  /** Every input is such a sequence of frames with such a tail. */
  lemma {:induction false} EveryInputIsFrames(d: Bytes) returns (fs: seq<Frame>, tail: Bytes)
    ensures (forall i :: 0 <= i < |fs| ==> IsFrame(fs[i])) && (tail == [] || Broken(tail))
    ensures d == FrameBytes(fs) + tail
    decreases |d|
  {
    if d == [] || Broken(d) {
      fs, tail := [], d;
      assert FrameBytes(fs) + tail == d;
    } else {
      var f := Frame(d[..16], d[16..16 + Announced(d[..16])]);
      var more;
      more, tail := EveryInputIsFrames(d[16 + Announced(d[..16])..]);
      fs := [f] + more;
      assert d == f.header + f.payload + (FrameBytes(more) + tail);
      assert fs[1..] == more;
    }
  }

  // ---- packets and sessions in any order

  /** A packet of the writer, or a session header: its id, the upper half of its flags with the session
      bit, its size. */
  datatype Item = Media(p: Packet) | Session(id: bv32, upper: bv32, width: nat, height: nat)

  predicate IsItem(x: Item) {
    match x
    case Media(p) => Proper(p)
    case Session(_, upper, w, h) => upper & 0x8000_0000 != 0 && w < 0x1_0000_0000 && h < 0x1_0000_0000
  }

  function IdOf(x: Item): bv32 {
    match x
    case Media(p) => p.id
    case Session(id, _, _, _) => id
  }

  function SessionBytes(id: bv32, upper: bv32, w: nat, h: nat): Bytes
    requires w < 0x1_0000_0000 && h < 0x1_0000_0000
  {
    Put32(id) + Put32(upper) + PutSize(w) + PutSize(h)
  }

  function ItemBytes(x: Item): Bytes
    requires IsItem(x)
  {
    match x
    case Media(p) => Write(p)
    case Session(id, upper, w, h) => SessionBytes(id, upper, w, h)
  }

  function AllBytes(xs: seq<Item>): Bytes
    requires forall i :: 0 <= i < |xs| ==> IsItem(xs[i])
  {
    if xs == [] then [] else ItemBytes(xs[0]) + AllBytes(xs[1..])
  }

  /** What a handler is to be called with. */
  function SentItem(x: Item): Delivery {
    match x
    case Media(p) => Sent(p)
    case Session(id, upper, w, h) => Delivery(Header(id, (upper as bv64) << 32, 0, w, h), [])
  }

  function ItemFrame(x: Item): Frame
    requires IsItem(x) && |ItemBytes(x)| >= 16
  {
    Frame(ItemBytes(x)[..16], ItemBytes(x)[16..])
  }

  lemma SessionBit(upper: bv32)
    requires upper & 0x8000_0000 != 0
    ensures Put32(upper)[0] & 0x80 != 0
  {
  }

  lemma SessionFields(b: Bytes, id: Bytes, up: Bytes, w: Bytes, h: Bytes)
    requires |id| == |up| == |w| == |h| == 4 && b == id + up + w + h
    ensures |b| == 16 && b[..4] == id && b[4..8] == up && b[8..12] == w && b[12..16] == h && b[4] == up[0] && b[7] == up[3]
  {
  }

  lemma ParsesSession(b: Bytes, id: bv32, up: bv32, w: nat, h: nat)
    requires |b| == 16 && b[..4] == Put32(id) && b[4..8] == Put32(up) && up & 0x8000_0000 != 0
    requires w < 0x1_0000_0000 && h < 0x1_0000_0000 && b[8..12] == PutSize(w) && b[12..16] == PutSize(h)
    ensures ParseHeader(b) == Header(id, (up as bv64) << 32, 0, w, h)
  {
    Round32(id);
    Round32(up);
    SizeRound(w);
    SizeRound(h);
  }

  lemma SessionBytesParse(id: bv32, up: bv32, w: nat, h: nat)
    requires w < 0x1_0000_0000 && h < 0x1_0000_0000 && up & 0x8000_0000 != 0
    ensures var b := SessionBytes(id, up, w, h);
            |b| == 16 && ParseHeader(b) == Header(id, (up as bv64) << 32, 0, w, h) && b[4] == Put32(up)[0] && b[7] == Put32(up)[3]
  {
    var b := SessionBytes(id, up, w, h);
    SessionFields(b, Put32(id), Put32(up), PutSize(w), PutSize(h));
    ParsesSession(b, id, up, w, h);
  }

  lemma SessionBytesBit(id: bv32, up: bv32, w: nat, h: nat)
    requires w < 0x1_0000_0000 && h < 0x1_0000_0000 && up & 0x8000_0000 != 0
    ensures |SessionBytes(id, up, w, h)| == 16 && SessionBytes(id, up, w, h)[4] & 0x80 != 0
  {
    SessionBit(up);
    SessionFields(SessionBytes(id, up, w, h), Put32(id), Put32(up), PutSize(w), PutSize(h));
  }

  lemma SessionParses(x: Item, b: Bytes)
    requires IsItem(x) && x.Session? && b == SessionBytes(x.id, x.upper, x.width, x.height)
    ensures |b| == 16 && ParseHeader(b) == Header(x.id, (x.upper as bv64) << 32, 0, x.width, x.height)
    ensures b[4] & 0x80 != 0 && b[7] == Put32(x.upper)[3]
  {
    SessionBytesBit(x.id, x.upper, x.width, x.height);
    SessionBytesParse(x.id, x.upper, x.width, x.height);
  }

  lemma PacketIsFrame(p: Packet, b: Bytes)
    requires Proper(p) && b == Write(p)
    ensures |b| >= 16 && ParseHeader(b[..16]) == Sent(p).header && b[16..] == p.payload && Announced(b[..16]) == |p.payload|
  {
    ReadsBack(p, []);
    assert b + [] == b && p.payload + [] == p.payload;
    AnnouncedIsParsed(b[..16]);
  }

  lemma SessionIsFrame(x: Item, b: Bytes)
    requires IsItem(x) && x.Session? && b == SessionBytes(x.id, x.upper, x.width, x.height)
    ensures |b| == 16 && b[..16] == b && b[16..] == [] && Announced(b) == 0
    ensures ParseHeader(b) == Header(x.id, (x.upper as bv64) << 32, 0, x.width, x.height)
  {
    SessionParses(x, b);
  }

  lemma ItemIsFrame(x: Item, f: Frame)
    requires IsItem(x) && |ItemBytes(x)| >= 16 && f == ItemFrame(x)
    ensures IsFrame(f) && FrameDelivery(f) == SentItem(x) && ItemBytes(x) == f.header + f.payload
  {
    var b := ItemBytes(x);
    assert b == b[..16] + b[16..];
    match x
    case Media(p) => PacketIsFrame(p, b);
    case Session(_, _, _, _) => SessionIsFrame(x, b);
  }

  lemma ItemIsLong(x: Item)
    requires IsItem(x)
    ensures |ItemBytes(x)| >= 16
  {
  }

  lemma {:induction false} ItemsAreFrames(xs: seq<Item>) returns (fs: seq<Frame>)
    requires forall i :: 0 <= i < |xs| ==> IsItem(xs[i])
    ensures |fs| == |xs| && forall i :: 0 <= i < |xs| ==> IsFrame(fs[i]) && FrameDelivery(fs[i]) == SentItem(xs[i])
    ensures FrameBytes(fs) == AllBytes(xs)
    decreases |xs|
  {
    if xs == [] {
      fs := [];
    } else {
      var more := ItemsAreFrames(xs[1..]);
      ItemIsLong(xs[0]);
      var f := ItemFrame(xs[0]);
      ItemIsFrame(xs[0], f);
      FramesJoin(f, more);
      fs := [f] + more;
    }
  }

  lemma FramesJoin(f: Frame, more: seq<Frame>)
    ensures FrameBytes([f] + more) == f.header + f.payload + FrameBytes(more)
  {
    assert ([f] + more)[1..] == more;
  }

  /** The items of one stream. */
  function OfStream(xs: seq<Item>, id: bv32): seq<Item> {
    if xs == [] then [] else (if IdOf(xs[0]) == id then [xs[0]] else []) + OfStream(xs[1..], id)
  }

  function ForHandler(ds: seq<Delivery>, id: bv32): seq<Delivery> {
    if ds == [] then []
    else ForHandler(ds[..|ds| - 1], id) + if ds[|ds| - 1].header.id == id then [ds[|ds| - 1]] else []
  }

  function SentAll(xs: seq<Item>): seq<Delivery> {
    seq(|xs|, i requires 0 <= i < |xs| => SentItem(xs[i]))
  }

  lemma ForHandlerOne(done: seq<Delivery>, d: Delivery, id: bv32)
    ensures ForHandler(done + [d], id) == if d.header.id == id then ForHandler(done, id) + [d] else ForHandler(done, id)
  {
    assert (done + [d])[..|done|] == done;
    assert ForHandler(done, id) + [] == ForHandler(done, id);
  }

  lemma SentFirst(x: Item, xs: seq<Item>, before: seq<Delivery>)
    ensures before + SentAll([x] + xs) == (before + [SentItem(x)]) + SentAll(xs)
  {
    assert SentAll([x] + xs) == [SentItem(x)] + SentAll(xs);
  }

  lemma {:induction false} DeliveredToHandler(xs: seq<Item>, fs: seq<Frame>, handlers: set<bv32>, done: seq<Delivery>, id: bv32)
    requires id in handlers && |fs| == |xs|
    requires forall i :: 0 <= i < |xs| ==> IsFrame(fs[i]) && FrameDelivery(fs[i]) == SentItem(xs[i])
    ensures ForHandler(FrameDeliveries(fs, handlers, done), id) == ForHandler(done, id) + SentAll(OfStream(xs, id))
    decreases |xs|
  {
    if xs == [] {
      assert ForHandler(done, id) + [] == ForHandler(done, id);
    } else {
      var x, more, d := xs[0], OfStream(xs[1..], id), SentItem(xs[0]);
      DeliveredToHandler(xs[1..], fs[1..], handlers, if d.header.id in handlers then done + [d] else done, id);
      ForHandlerOne(done, d, id);
      if IdOf(x) == id {
        SentFirst(x, more, ForHandler(done, id));
      } else {
        assert [] + more == more;
      }
    }
  }

  lemma {:induction false} OnlyHandlers(fs: seq<Frame>, handlers: set<bv32>, done: seq<Delivery>)
    requires forall i :: 0 <= i < |fs| ==> IsFrame(fs[i])
    requires forall i :: 0 <= i < |done| ==> done[i].header.id in handlers
    ensures forall i :: 0 <= i < |FrameDeliveries(fs, handlers, done)| ==> FrameDeliveries(fs, handlers, done)[i].header.id in handlers
    decreases |fs|
  {
    if fs != [] {
      var d := FrameDelivery(fs[0]);
      OnlyHandlers(fs[1..], handlers, if d.header.id in handlers then done + [d] else done);
    }
  }

  /** Whatever packets and sessions were written, in any order: Run ends cleanly, and every registered
      handler is called with exactly its stream's packets and sessions, in order, each session with an
      empty payload. */
  lemma WireRoundTrip(xs: seq<Item>, handlers: set<bv32>, id: bv32)
    requires forall i :: 0 <= i < |xs| ==> IsItem(xs[i])
    ensures var (ds, ok) := Demux(AllBytes(xs), handlers, []);
            && ok
            && (id in handlers ==> ForHandler(ds, id) == SentAll(OfStream(xs, id)))
            && (forall i :: 0 <= i < |ds| ==> ds[i].header.id in handlers)
  {
    var fs := ItemsAreFrames(xs);
    RunExactly(fs, [], handlers, []);
    assert FrameBytes(fs) + [] == AllBytes(xs);
    OnlyHandlers(fs, handlers, []);
    if id in handlers {
      DeliveredToHandler(xs, fs, handlers, [], id);
      assert ForHandler([], id) + SentAll(OfStream(xs, id)) == SentAll(OfStream(xs, id));
    }
  }

  /** Byte for byte: big-endian fields, the flags in the topmost bits. */
  lemma PacketExample()
    ensures Write(Packet(0x0102_0304, FLAG_KEY_FRAME, 0x05_0607, [9]))
            == [1, 2, 3, 4, 0x20, 0, 0, 0, 0, 5, 6, 7, 0, 0, 0, 1, 9]
  {
    NumberExamples();
  }

  lemma NumberExamples()
    ensures Put32(0x0102_0304) == [1, 2, 3, 4] && PutSize(1) == [0, 0, 0, 1]
    ensures Put64(0x05_0607 | FLAG_KEY_FRAME) == [0x20, 0, 0, 0, 0, 5, 6, 7]
  {
  }

  lemma ConfigExample()
    ensures Write(Packet(5, FLAG_CONFIG, 0, [])) == [0, 0, 0, 5, 0x40, 0, 0, 0, 0, 0, 0, 0, 0, 0, 0, 0]
  {
    assert PutSize(0) == [0, 0, 0, 0];
  }

  lemma SessionExample(b: Bytes)
    requires b == [0, 0, 0, 1, 0x80, 0, 0, 1, 0, 0, 4, 0x38, 0, 0, 9, 0x60]
    ensures ParseHeader(b) == Header(1, 0x8000_0001_0000_0000, 0, 1080, 2400)
  {
    assert b[..4] == [0, 0, 0, 1] && b[4..8] == [0x80, 0, 0, 1] && b[8..12] == [0, 0, 4, 0x38] && b[12..16] == [0, 0, 9, 0x60];
  }

  /** The accessors give back what the writer was given, for the flags there are. */
  lemma AccessorsReadBack(p: Packet)
    requires Proper(p) && p.flags & !(FLAG_CONFIG | FLAG_KEY_FRAME) == 0
    ensures var h := Sent(p).header;
            && !h.IsSession() && h.PTS() == p.pts
            && (h.IsConfig() <==> p.flags & FLAG_CONFIG != 0) && (h.IsKeyFrame() <==> p.flags & FLAG_KEY_FRAME != 0)
  {
  }

  // ---- the two readers agree

  lemma NoSessionInUpper(b: Bytes)
    requires |b| == 8 && b[0] & 0x80 == 0
    ensures Get64(b) & FLAG_SESSION == 0
  {
  }

  lemma UpperSession(upper: bv32)
    ensures ((upper as bv64) << 32) & FLAG_SESSION != 0 <==> upper & 0x8000_0000 != 0
  {
  }

  /** Both readers take the same headers for session packets, and read the same size from them. */
  lemma SessionsAgree(b: Bytes)
    requires |b| == HEADER_SIZE
    ensures ParseHeader(b).IsSession() <==> CIsSession(b)
    ensures CIsSession(b) ==> CReadPacket(b) == CSession(ParseHeader(b).width, ParseHeader(b).height, b[7] & 1 != 0, [])
  {
    assert b[4..8] == [b[4], b[5], b[6], b[7]];
    SessionBits(b[4], b[5], b[6], b[7]);
    UpperSession(Get32(b[4..8]));
    if !CIsSession(b) { NoSessionInUpper(b[4..12]); }
    assert b[..HEADER_SIZE] == b;
  }

  lemma PayloadsAgree(d: Bytes, n: nat)
    requires HEADER_SIZE + n <= |d|
    ensures d[HEADER_SIZE..][..n] == d[HEADER_SIZE..HEADER_SIZE + n] && d[HEADER_SIZE..][n..] == d[HEADER_SIZE + n..]
  {
  }

  /** What the C reader makes of a packet that the Go reader found. */
  function InC(h: Header, payload: Bytes): CPacket {
    CPacket(h.id, if h.IsConfig() then None else Some(h.ptsAndFlags & C_PTS_MASK), h.IsKeyFrame(), payload)
  }

  /** On any packet with a payload that the Go reader accepts, the C reader finds the same stream,
      flags and payload, and goes on at the same place. */
  lemma ReadersAgree(d: Bytes, h: Header, payload: Bytes, rest: Bytes)
    requires |d| >= HEADER_SIZE && ReadHeader(d) == Got(h, d[HEADER_SIZE..])
    requires !h.IsSession() && h.payloadSize > 0 && ReadPayload(d[HEADER_SIZE..], h.payloadSize) == Got(payload, rest)
    ensures CReadPacket(d) == CGot(InC(h, payload), rest)
  {
    SessionsAgree(d[..HEADER_SIZE]);
    PayloadsAgree(d, h.payloadSize);
  }

  /** They find the same timestamp exactly if the bits between their masks are clear. */
  lemma TimestampsAgree(h: Header, payload: Bytes, x: bv64)
    requires !h.IsConfig() && x == h.ptsAndFlags
    ensures InC(h, payload).pts == Some(x & C_PTS_MASK) && h.PTS() == x & PTS_MASK
    ensures x & C_PTS_MASK == x & PTS_MASK <==> x & (C_PTS_MASK - PTS_MASK) == 0
  {
    MasksAgree(x);
  }

  /** They differ on a timestamp of 2^53, which the Go reader takes for zero. */
  lemma TimestampsDiffer(h: Header, payload: Bytes)
    requires h.ptsAndFlags == 1 << 53
    ensures InC(h, payload).pts == Some(1 << 53) && h.PTS() == 0
  {
  }

  lemma MasksAgree(x: bv64)
    ensures x & C_PTS_MASK == x & PTS_MASK <==> x & (C_PTS_MASK - PTS_MASK) == 0
  {
  }

  /** What the C reader makes of a packet written. */
  function CSent(p: Packet): CPacket {
    CPacket(p.id, if p.flags & FLAG_CONFIG != 0 then None else Some(p.pts), p.flags & FLAG_KEY_FRAME != 0, p.payload)
  }

  lemma CReadsBack(p: Packet, rest: Bytes)
    requires Proper(p) && p.payload != [] && p.flags & !(FLAG_CONFIG | FLAG_KEY_FRAME) == 0
    ensures CReadPacket(Write(p) + rest) == CGot(CSent(p), rest)
  {
    var h := Sent(p).header;
    ReadsBack(p, rest);
    AccessorsReadBack(p);
    assert (Write(p) + rest)[HEADER_SIZE..] == p.payload + rest;
    ReadersAgree(Write(p) + rest, h, p.payload, rest);
    MasksClear(p.pts, p.flags);
    MasksAgree(h.ptsAndFlags);
  }

  lemma MasksClear(pts: bv64, flags: bv64)
    requires pts <= PTS_MASK && flags & !(FLAG_CONFIG | FLAG_KEY_FRAME) == 0
    ensures (pts | flags) & (C_PTS_MASK - PTS_MASK) == 0
  {
  }

  lemma CSessionReadsBack(x: Item, rest: Bytes)
    requires IsItem(x) && x.Session?
    ensures CReadPacket(ItemBytes(x) + rest) == CSession(x.width, x.height, x.upper & 1 != 0, rest)
  {
    var d := ItemBytes(x) + rest;
    SessionParses(x, ItemBytes(x));
    assert d[..HEADER_SIZE] == ItemBytes(x) && d[HEADER_SIZE..] == rest;
    SessionsAgree(ItemBytes(x));
    ResizedBit(x.upper);
  }

  lemma ResizedBit(upper: bv32)
    ensures Put32(upper)[3] & 1 != 0 <==> upper & 1 != 0
  {
  }

  /** What the C reader makes of an item. */
  function CItem(x: Item): CEvent {
    match x
    case Media(p) => CMedia(CSent(p))
    case Session(_, upper, w, h) => CSize(w, h, upper & 1 != 0)
  }

  predicate ForC(x: Item) {
    x.Media? ==> x.p.payload != [] && x.p.flags & !(FLAG_CONFIG | FLAG_KEY_FRAME) == 0
  }

  function CSentAll(xs: seq<Item>, done: seq<CEvent>): seq<CEvent> {
    if xs == [] then done else CSentAll(xs[1..], done + [CItem(xs[0])])
  }

  /** The C reader gets every session and every non-empty packet written, in order. */
  lemma {:induction false} CRoundTrip(xs: seq<Item>, done: seq<CEvent>)
    requires forall i :: 0 <= i < |xs| ==> IsItem(xs[i]) && ForC(xs[i])
    ensures CReadAll(AllBytes(xs), done) == (CSentAll(xs, done), true)
    decreases |xs|
  {
    if xs != [] {
      CReadsItem(xs[0], AllBytes(xs[1..]), done);
      CRoundTrip(xs[1..], done + [CItem(xs[0])]);
    }
  }

  lemma CReadsItem(x: Item, rest: Bytes, done: seq<CEvent>)
    requires IsItem(x) && ForC(x)
    ensures CReadAll(ItemBytes(x) + rest, done) == CReadAll(rest, done + [CItem(x)])
  {
    match x
    case Media(p) => CReadsBack(p, rest);
    case Session(_, _, _, _) => CSessionReadsBack(x, rest);
  }

  /** The readers differ on an empty packet: the Go reader delivers it, the C reader fails. */
  lemma EmptyPacketFailsInC(p: Packet, rest: Bytes)
    requires Proper(p) && p.payload == []
    ensures CReadPacket(Write(p) + rest) == CFailed && ReadHeader(Write(p) + rest) == Got(Sent(p).header, rest)
  {
    ReadsBack(p, rest);
    assert [] + rest == rest;
    var d := Write(p) + rest;
    NoSessionBit(p);
    SessionsAgree(d[..HEADER_SIZE]);
  }

  /** A packet cut short fails in both: in its header the Go reader reports an error where the C reader
      reports the end; in its payload both fail. */
  lemma CutPacketFails(p: Packet, n: nat)
    requires Proper(p) && 0 < n < |Write(p)|
    ensures n < 16 ==> ReadHeader(Write(p)[..n]) == Truncated && CReadPacket(Write(p)[..n]) == CEnd
    ensures n >= 16 ==> ReadHeader(Write(p)[..n]).Got? && CReadPacket(Write(p)[..n]) == CFailed
                        && ReadPayload(ReadHeader(Write(p)[..n]).rest, ReadHeader(Write(p)[..n]).value.payloadSize) == Truncated
  {
    if n >= 16 {
      ReadsBack(p, []);
      assert Write(p) + [] == Write(p);
      var d := Write(p)[..n];
      assert d[..16] == Write(p)[..16];
      NoSessionBit(p);
      SessionsAgree(d[..16]);
    }
  }
}
