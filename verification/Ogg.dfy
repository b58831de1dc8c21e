/** The Ogg demultiplexer (allrelay-server/internal/audio/ogg.go) against lacing (sections 5 and 6 of
    RFC 3533). */
module Ogg {
  import opened Bytes

  const HEADER_SIZE := 27
  /** "OggS" */
  const SYNC: seq<Byte> := [0x4f, 0x67, 0x67, 0x53]

  function Sum(table: seq<Byte>): nat {
    if table == [] then 0 else table[0] + Sum(table[1..])
  }

  /** The packets that end in these segments, behind `done`; the current one begins at `start` and
      has `len` bytes so far. */
  function Unlace(table: seq<Byte>, data: seq<Byte>, start: nat, len: nat, done: seq<seq<Byte>>): seq<seq<Byte>>
    requires start + len + Sum(table) <= |data|
    decreases |table|
  {
    if table == [] then done
    else
      var n := len + table[0];
      if table[0] < 255 then Unlace(table[1..], data, start + n, 0, done + [data[start..start + n]])
      else Unlace(table[1..], data, start, n, done)
  }

  /** A result of reading a page: the end of the input, an error, or a page. */
  datatype PageRead = Eof | Failed | Page(raw: seq<Byte>, packets: seq<seq<Byte>>, rest: seq<Byte>)

  function TableOf(d: seq<Byte>): seq<Byte>
    requires |d| >= HEADER_SIZE && HEADER_SIZE + d[26] as int <= |d|
  {
    d[HEADER_SIZE..HEADER_SIZE + d[26] as int]
  }

  function ReadPage(d: seq<Byte>): PageRead {
    if d == [] then Eof
    else if |d| < HEADER_SIZE || d[..4] != SYNC || HEADER_SIZE + d[26] as int > |d| then Failed
    else
      var table := TableOf(d);
      var from := HEADER_SIZE + d[26] as int;
      var n := Sum(table);
      if from + n > |d| then Failed
      else Page(d[..from + n], Unlace(table, d[from..from + n], 0, 0, []), d[from + n..])
  }

  /** The demultiplexer: what is left of the input, and the packets of the page at hand. */
  datatype State = State(input: seq<Byte>, packets: seq<seq<Byte>>)
  datatype Next = End | Error | Packet(bytes: seq<Byte>)

  function NextPacket(s: State): (State, Next) {
    if s.packets != [] then (s.(packets := s.packets[1..]), Packet(s.packets[0]))
    else
      var p := ReadPage(s.input);
      match p
      case Eof => (s, End)
      case Failed => (s, Error)
      case Page(_, packets, rest) =>
        if packets == [] then (State(rest, []), End) else (State(rest, packets[1..]), Packet(packets[0]))
  }

  class OggDemuxer {
    var input: seq<Byte>
    var packets: seq<seq<Byte>>

    constructor (input: seq<Byte>)
      ensures this.input == input && packets == []
    {
      this.input, packets := input, [];
    }

    /** The loop over the segment table that adds up the data. */
    static method TotalLength(table: seq<Byte>) returns (total: nat)
      ensures total == Sum(table)
    {
      total := 0;
      for i := 0 to |table|
        invariant total + Sum(table[i..]) == Sum(table)
      {
        assert table[i..][1..] == table[i + 1..];
        total := total + table[i];
      }
      assert table[|table|..] == [];
    }

    /** The loop that cuts the data into packets. */
    static method SplitPackets(table: seq<Byte>, data: seq<Byte>) returns (out: seq<seq<Byte>>)
      requires |data| == Sum(table)
      ensures out == Unlace(table, data, 0, 0, [])
    {
      out := [];
      var packetStart := 0;
      var packetLen := 0;
      for i := 0 to |table|
        invariant 0 <= packetStart && 0 <= packetLen && packetStart + packetLen + Sum(table[i..]) == |data|
        invariant Unlace(table[i..], data, packetStart, packetLen, out) == Unlace(table, data, 0, 0, [])
      {
        assert table[i..][1..] == table[i + 1..];
        packetLen := packetLen + table[i];
        if table[i] < 255 {
          out := out + [data[packetStart..packetStart + packetLen]];
          packetStart := packetStart + packetLen;
          packetLen := 0;
        }
      }
      assert table[|table|..] == [];
    }

    method ReadPageFrom() returns (r: PageRead)
      modifies this`input
      ensures r == ReadPage(old(input))
      ensures input == if r.Page? then r.rest else old(input)
    {
      if input == [] {
        return Eof;
      }
      if |input| < HEADER_SIZE || input[..4] != SYNC || HEADER_SIZE + input[26] as int > |input| {
        return Failed;
      }
      var from := HEADER_SIZE + input[26] as int;
      var table := input[HEADER_SIZE..from];
      var total := TotalLength(table);
      if from + total > |input| {
        return Failed;
      }
      var data := input[from..from + total];
      var raw := input[..HEADER_SIZE] + table + data;
      assert raw == input[..from + total];
      var split := SplitPackets(table, data);
      r := Page(raw, split, input[from + total..]);
      input := input[from + total..];
    }

    method Next() returns (r: Next)
      modifies this
      ensures (State(input, packets), r) == NextPacket(State(old(input), old(packets)))
    {
      if |packets| > 0 {
        r := Packet(packets[0]);
        packets := packets[1..];
        return;
      }
      var page := ReadPageFrom();
      if !page.Page? {
        return if page.Eof? then End else Error;
      }
      if |page.packets| == 0 {
        return End;
      }
      packets := page.packets[1..];
      r := Packet(page.packets[0]);
    }
  }

  // ---------------------------------------------------------------------------------------
  // Lacing

  /** The lacing values of a packet of `n` bytes. */
  function Lace(n: nat): seq<Byte> {
    if n < 255 then [n] else [255] + Lace(n - 255)
  }

  function LaceAll(ps: seq<seq<Byte>>): seq<Byte> {
    if ps == [] then [] else Lace(|ps[0]|) + LaceAll(ps[1..])
  }

  function Flat(ps: seq<seq<Byte>>): seq<Byte> {
    if ps == [] then [] else ps[0] + Flat(ps[1..])
  }

  lemma {:induction false} SumLace(n: nat, t: seq<Byte>)
    ensures Sum(Lace(n) + t) == n + Sum(t)
    decreases n
  {
    if n < 255 {
      assert ([n] + t)[1..] == t;
    } else {
      assert (Lace(n) + t)[1..] == Lace(n - 255) + t;
      SumLace(n - 255, t);
    }
  }

  lemma {:induction false} SumLaceAll(ps: seq<seq<Byte>>)
    ensures Sum(LaceAll(ps)) == |Flat(ps)|
  {
    if ps != [] {
      SumLace(|ps[0]|, LaceAll(ps[1..]));
      SumLaceAll(ps[1..]);
    }
  }

  lemma {:induction false} LaceUnlaces(n: nat, t: seq<Byte>, data: seq<Byte>, start: nat, len: nat, done: seq<seq<Byte>>)
    requires start + len + n + Sum(t) <= |data|
    ensures start + len + Sum(Lace(n) + t) <= |data|
    ensures Unlace(Lace(n) + t, data, start, len, done) == Unlace(t, data, start + len + n, 0, done + [data[start..start + len + n]])
    decreases n
  {
    SumLace(n, t);
    if n < 255 {
      assert ([n] + t)[1..] == t;
    } else {
      assert (Lace(n) + t)[1..] == Lace(n - 255) + t;
      LaceUnlaces(n - 255, t, data, start, len + 255, done);
    }
  }

  lemma Rejoin(done: seq<seq<Byte>>, ps: seq<seq<Byte>>)
    requires ps != []
    ensures (done + [ps[0]]) + ps[1..] == done + ps
  {
  }

  lemma {:induction false} PacketsUnlace(ps: seq<seq<Byte>>, data: seq<Byte>, start: nat, done: seq<seq<Byte>>)
    requires start <= |data| && data[start..] == Flat(ps)
    ensures start + 0 + Sum(LaceAll(ps)) <= |data|
    ensures Unlace(LaceAll(ps), data, start, 0, done) == done + ps
    decreases |ps|
  {
    SumLaceAll(ps);
    if ps == [] {
      assert done + ps == done;
    } else {
      var n := |ps[0]|;
      SumLaceAll(ps[1..]);
      LaceUnlaces(n, LaceAll(ps[1..]), data, start, 0, done);
      assert data[start..][..n] == ps[0] && data[start..][n..] == Flat(ps[1..]);
      assert data[start..start + n] == ps[0] && data[start + n..] == Flat(ps[1..]);
      PacketsUnlace(ps[1..], data, start + n, done + [ps[0]]);
      Rejoin(done, ps);
    }
  }

  /** A page whose packets all end in it: the fixed part of its header, up to the segment count,
      and its packets. */
  datatype OggPage = OggPage(head: seq<Byte>, packets: seq<seq<Byte>>)

  predicate ValidPage(p: OggPage) {
    |p.head| == 26 && p.head[..4] == SYNC && |LaceAll(p.packets)| <= 255 && p.packets != []
  }

  function Encode(p: OggPage): seq<Byte>
    requires ValidPage(p)
  {
    p.head + [|LaceAll(p.packets)|] + LaceAll(p.packets) + Flat(p.packets)
  }

  function EncodeAll(pages: seq<OggPage>): seq<Byte>
    requires forall i :: 0 <= i < |pages| ==> ValidPage(pages[i])
  {
    if pages == [] then [] else Encode(pages[0]) + EncodeAll(pages[1..])
  }

  lemma PageFields(p: OggPage, rest: seq<Byte>)
    requires ValidPage(p)
    ensures var d := Encode(p) + rest; var t := LaceAll(p.packets); var from := HEADER_SIZE + |t|;
            && |d| == from + |Flat(p.packets)| + |rest|
            && d[..4] == SYNC && d[26] == |t| && d[HEADER_SIZE..from] == t
            && d[from..from + |Flat(p.packets)|] == Flat(p.packets)
            && d[..from + |Flat(p.packets)|] == Encode(p) && d[from + |Flat(p.packets)|..] == rest
  {
    var d := Encode(p) + rest;
    assert d[..4] == p.head[..4];
  }

  /** ReadPage gives the page's bytes back unchanged, with its packets. */
  lemma PageReadsBack(p: OggPage, rest: seq<Byte>)
    requires ValidPage(p)
    ensures ReadPage(Encode(p) + rest) == Page(Encode(p), p.packets, rest)
  {
    PageFields(p, rest);
    SumLaceAll(p.packets);
    var data := Flat(p.packets);
    assert data[0..] == data;
    PacketsUnlace(p.packets, data, 0, []);
    assert [] + p.packets == p.packets;
  }

  /** Calling NextPacket until it returns no packet. */
  function Drain(s: State, done: seq<seq<Byte>>): (seq<seq<Byte>>, Next)
    decreases |s.input|, |s.packets|
  {
    var (s', r) := NextPacket(s);
    if !r.Packet? then (done, r)
    else
      ReadsForward(s);
      Drain(s', done + [r.bytes])
  }

  /** A packet comes from the queue, or from further input. */
  lemma ReadsForward(s: State)
    requires NextPacket(s).1.Packet?
    ensures var s' := NextPacket(s).0;
            |s'.input| < |s.input| || (s'.input == s.input && |s'.packets| < |s.packets|)
  {
  }

  function AllPackets(pages: seq<OggPage>): seq<seq<Byte>> {
    if pages == [] then [] else pages[0].packets + AllPackets(pages[1..])
  }

  lemma {:induction false} DrainQueue(input: seq<Byte>, queue: seq<seq<Byte>>, done: seq<seq<Byte>>)
    ensures Drain(State(input, queue), done) == Drain(State(input, []), done + queue)
    decreases |queue|
  {
    if queue == [] {
      assert done + queue == done;
    } else {
      DrainQueue(input, queue[1..], done + [queue[0]]);
      Rejoin(done, queue);
    }
  }

  lemma DrainPage(p: OggPage, rest: seq<Byte>, done: seq<seq<Byte>>)
    requires ValidPage(p)
    ensures Drain(State(Encode(p) + rest, []), done) == Drain(State(rest, []), done + p.packets)
  {
    PageReadsBack(p, rest);
    DrainQueue(rest, p.packets[1..], done + [p.packets[0]]);
    Rejoin(done, p.packets);
  }

  /** Reading with NextPacket gives back the packets of all the pages, in order, and then the end. */
  lemma {:induction false} OggRoundTrip(pages: seq<OggPage>, done: seq<seq<Byte>>)
    requires forall i :: 0 <= i < |pages| ==> ValidPage(pages[i])
    ensures Drain(State(EncodeAll(pages), []), done) == (done + AllPackets(pages), End)
    decreases |pages|
  {
    if pages == [] {
      assert done + AllPackets(pages) == done;
    } else {
      var p := pages[0];
      DrainPage(p, EncodeAll(pages[1..]), done);
      OggRoundTrip(pages[1..], done + p.packets);
      assert (done + p.packets) + AllPackets(pages[1..]) == done + AllPackets(pages);
    }
  }

  /** A page in which no packet ends stops the reading early: NextPacket reports the end whatever
      comes behind it. */
  lemma PacketlessPageEndsEarly(d: seq<Byte>)
    requires ReadPage(d).Page? && ReadPage(d).packets == []
    ensures NextPacket(State(d, [])) == (State(ReadPage(d).rest, []), End)
  {
  }

  /** And that is when every lacing value is 255. */
  lemma {:induction false} PacketlessExactly(table: seq<Byte>, data: seq<Byte>, start: nat, len: nat, done: seq<seq<Byte>>)
    requires start + len + Sum(table) <= |data|
    ensures |Unlace(table, data, start, len, done)| >= |done|
    ensures |Unlace(table, data, start, len, done)| == |done| <==> forall i :: 0 <= i < |table| ==> table[i] == 255
    decreases |table|
  {
    if table != [] {
      var n := len + table[0];
      if table[0] < 255 {
        PacketlessExactly(table[1..], data, start + n, 0, done + [data[start..start + n]]);
      } else {
        PacketlessExactly(table[1..], data, start, n, done);
        assert forall i :: 0 < i < |table| ==> table[i] == table[1..][i - 1];
      }
    }
  }

  // ---- what is no page

  /** Reading fails exactly on an input that is not empty and does not begin with a whole page: with
      "OggS", a segment count, as many lacing values, and as many bytes as these add up to. */
  lemma FailsExactly(d: seq<Byte>)
    ensures ReadPage(d).Eof? <==> d == []
    ensures ReadPage(d).Failed? <==>
              d != [] && (|d| < 27 || d[..4] != [0x4f, 0x67, 0x67, 0x53] || |d| < 27 + d[26] as int
                          || |d| < 27 + d[26] as int + Sum(d[27..27 + d[26] as int]))
  {
  }

  lemma PageLength(p: OggPage)
    requires ValidPage(p)
    ensures |Encode(p)| == 27 + |LaceAll(p.packets)| + Sum(LaceAll(p.packets))
    ensures Encode(p)[26] == |LaceAll(p.packets)| && Encode(p)[27..27 + |LaceAll(p.packets)|] == LaceAll(p.packets)
  {
    SumLaceAll(p.packets);
    PageFields(p, []);
    assert Encode(p) + [] == Encode(p);
  }

  /** A page cut short anywhere, even within its last packet, fails to be read. */
  lemma CutPageFails(p: OggPage, k: nat)
    requires ValidPage(p) && 0 < k < |Encode(p)|
    ensures ReadPage(Encode(p)[..k]) == Failed
  {
    var d, n := Encode(p)[..k], |LaceAll(p.packets)|;
    PageLength(p);
    FailsExactly(d);
    if k >= 27 + n {
      assert d[27..27 + n] == Encode(p)[27..27 + n];
    }
  }

  /** Behind whole pages, a cut one ends the reading in error; the packets before it all come out. */
  lemma {:induction false} CutEndsInError(pages: seq<OggPage>, last: OggPage, k: nat, done: seq<seq<Byte>>)
    requires (forall i :: 0 <= i < |pages| ==> ValidPage(pages[i])) && ValidPage(last) && 0 < k < |Encode(last)|
    ensures Drain(State(EncodeAll(pages) + Encode(last)[..k], []), done) == (done + AllPackets(pages), Error)
    decreases |pages|
  {
    if pages == [] {
      CutPageFails(last, k);
      assert EncodeAll(pages) + Encode(last)[..k] == Encode(last)[..k];
      assert done + AllPackets(pages) == done;
    } else {
      var p, cut := pages[0], Encode(last)[..k];
      assert EncodeAll(pages) + cut == Encode(p) + (EncodeAll(pages[1..]) + cut);
      DrainPage(p, EncodeAll(pages[1..]) + cut, done);
      CutEndsInError(pages[1..], last, k, done + p.packets);
      assert (done + p.packets) + AllPackets(pages[1..]) == done + AllPackets(pages);
    }
  }

  /** Lacing at its edges: a packet of 255 bytes ends with a lacing value of 0. */
  lemma LaceEdges()
    ensures Lace(0) == [0] && Lace(254) == [254] && Lace(255) == [255, 0] && Lace(300) == [255, 45]
  {
    assert Lace(0) == [0] && Lace(45) == [45];
  }

  /** A page of two packets, byte by byte. */
  lemma ExamplePage(head: seq<Byte>)
    requires |head| == 26 && head[..4] == [0x4f, 0x67, 0x67, 0x53]
    ensures ReadPage(head + [2, 1, 2, 7, 8, 9, 5]) == Page(head + [2, 1, 2, 7, 8, 9], [[7], [8, 9]], [5])
  {
    var p := OggPage(head, [[7], [8, 9]]);
    ExampleLaces();
    assert Encode(p) == head + [2, 1, 2, 7, 8, 9];
    PageReadsBack(p, [5]);
    assert Encode(p) + [5] == head + [2, 1, 2, 7, 8, 9, 5];
  }

  lemma ExampleLaces()
    ensures LaceAll([[7], [8, 9]]) == [1, 2] && Flat([[7], [8, 9]]) == [7, 8, 9]
  {
    var a: seq<Byte>, b: seq<Byte> := [7], [8, 9];
    assert [a, b][1..] == [b] && [b][1..] == [];
    assert LaceAll([b]) == [2] && Flat([b]) == b;
    assert LaceAll([a, b]) == [1] + LaceAll([b]) && Flat([a, b]) == a + Flat([b]);
  }
}
