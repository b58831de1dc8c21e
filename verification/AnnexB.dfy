/** Annex B and AVCC framing of H.264 (allrelay-server/internal/video/annexb.go; section B.1 and
    7.4.1 of ITU-T H.264). */
module AnnexB {
  import opened Bytes

  const START_CODE_4: seq<Byte> := [0, 0, 0, 1]

  predicate StartCode3(d: seq<Byte>) {
    |d| >= 3 && d[0] == 0 && d[1] == 0 && d[2] == 1
  }

  predicate StartCode4(d: seq<Byte>) {
    |d| >= 4 && d[0] == 0 && d[1] == 0 && d[2] == 0 && d[3] == 1
  }

  predicate IsAnnexB(d: seq<Byte>) {
    StartCode3(d) || StartCode4(d)
  }

  function ToAnnexB(nal: seq<Byte>): seq<Byte> {
    if IsAnnexB(nal) then nal else START_CODE_4 + nal
  }

  /** A start code is added once: data that has one stays as it is, any other gets four bytes. */
  lemma StartCodeAddedOnce(nal: seq<Byte>)
    ensures var d := ToAnnexB(nal);
            && (nal[..] == d || d == [0, 0, 0, 1] + nal)
            && (d == nal <==> (|nal| >= 3 && nal[..3] == [0, 0, 1]) || (|nal| >= 4 && nal[..4] == [0, 0, 0, 1]))
            && ToAnnexB(d) == d
  {
    assert |[0, 0, 0, 1] + nal| != |nal|;
  }

  // ---- splitting

  /** A start code that the search finds: it never looks at the last three bytes. */
  predicate Found(d: seq<Byte>, i: nat) {
    i < |d| - 3 && d[i] == 0 && d[i + 1] == 0 && (d[i + 2] == 1 || (d[i + 2] == 0 && d[i + 3] == 1))
  }

  /** Where the search from `i` ends: at the next start code, or at the end. */
  function NextStart(d: seq<Byte>, i: nat): (e: nat)
    requires i <= |d|
    ensures i <= e <= |d|
    ensures e < |d| ==> Found(d, e)
    ensures forall j :: i <= j < e ==> !Found(d, j)
    decreases |d| - i
  {
    if i >= |d| - 3 then |d| else if Found(d, i) then i else NextStart(d, i + 1)
  }

  function CodeLength(d: seq<Byte>): nat
    requires IsAnnexB(d)
  {
    if StartCode4(d) then 4 else 3
  }

  /** The pieces of a byte stream, each with its start code. */
  function AnnexParts(d: seq<Byte>): seq<seq<Byte>>
    requires IsAnnexB(d)
    decreases |d|
  {
    var e := NextStart(d, CodeLength(d));
    [d[..e]] + if e == |d| then [] else AnnexParts(d[e..])
  }

  /** The pieces of length-prefixed data, up to the first that does not fit. */
  function AvccParts(d: seq<Byte>): seq<seq<Byte>>
    decreases |d|
  {
    if |d| < 4 || 4 + FromBe32(d[..4]) > |d| then []
    else
      var n := FromBe32(d[..4]);
      [d[4..4 + n]] + AvccParts(d[4 + n..])
  }

  /** What SplitNALs returns; `atStart` tells whether the first piece begins where the data does
      (the callers compare addresses). */
  datatype Pieces = Pieces(parts: seq<seq<Byte>>, atStart: bool)

  function Split(d: seq<Byte>): Pieces {
    if |d| < 4 then Pieces([d], true)
    else if IsAnnexB(d) then Pieces(AnnexParts(d), true)
    else if AvccParts(d) == [] then Pieces([d], true)
    else Pieces(AvccParts(d), false)
  }

  method SplitNALs(data: seq<Byte>) returns (r: Pieces)
    ensures r == Split(data)
  {
    if |data| < 4 {
      return Pieces([data], true);
    }
    if IsAnnexB(data) {
      var nals := SplitStream(data);
      return Pieces(nals, true);
    }
    var nals := SplitLengths(data);
    r := if nals == [] then Pieces([data], true) else Pieces(nals, false);
  }

  /** The loop over start codes. */
  method SplitStream(data: seq<Byte>) returns (nals: seq<seq<Byte>>)
    requires IsAnnexB(data)
    ensures nals == AnnexParts(data)
  {
    nals := [];
    var pos := 0;
    assert data[0..] == data;
    while pos < |data|
      invariant 0 <= pos <= |data|
      invariant pos < |data| ==> IsAnnexB(data[pos..])
      invariant AnnexParts(data) == nals + if pos == |data| then [] else AnnexParts(data[pos..])
    {
      var start := pos;
      ghost var d := data[start..];
      if pos + 4 <= |data| && data[pos] == 0 && data[pos + 1] == 0 && data[pos + 2] == 0 && data[pos + 3] == 1 {
        pos := pos + 4;
      } else if pos + 3 <= |data| && data[pos] == 0 && data[pos + 1] == 0 && data[pos + 2] == 1 {
        pos := pos + 3;
      }
      assert pos == start + CodeLength(d);
      var end := FindStart(data, pos, start);
      PartsStep(data, start, end);
      Regroup(nals, data[start..end], if end == |data| then [] else AnnexParts(data[end..]));
      nals := nals + [data[start..end]];
      pos := end;
    }
  }

  lemma Regroup(done: seq<seq<Byte>>, part: seq<Byte>, rest: seq<seq<Byte>>)
    ensures done + ([part] + rest) == (done + [part]) + rest
  {
  }

  lemma PartsStep(data: seq<Byte>, start: nat, end: nat)
    requires start < end <= |data| && IsAnnexB(data[start..])
    requires end - start == NextStart(data[start..], CodeLength(data[start..]))
    ensures end < |data| ==> IsAnnexB(data[end..])
    ensures AnnexParts(data[start..]) == [data[start..end]] + if end == |data| then [] else AnnexParts(data[end..])
  {
    var d := data[start..];
    assert data[start..end] == d[..end - start];
    if end < |data| {
      assert Found(d, end - start);
      assert data[end..] == d[end - start..];
    }
  }

  /** The loop over length prefixes. */
  method SplitLengths(data: seq<Byte>) returns (nals: seq<seq<Byte>>)
    ensures nals == AvccParts(data)
  {
    nals := [];
    var pos := 0;
    assert data[0..] == data;
    while pos < |data|
      invariant 0 <= pos <= |data|
      invariant AvccParts(data) == nals + AvccParts(data[pos..])
    {
      if pos + 4 > |data| {
        break;
      }
      var size := FromBe32(data[pos..pos + 4]);
      assert data[pos..][..4] == data[pos..pos + 4];
      if pos + 4 + size > |data| {
        break;
      }
      assert data[pos..][4..4 + size] == data[pos + 4..pos + 4 + size];
      assert data[pos..][4 + size..] == data[pos + 4 + size..];
      Regroup(nals, data[pos + 4..pos + 4 + size], AvccParts(data[pos + 4 + size..]));
      nals := nals + [data[pos + 4..pos + 4 + size]];
      pos := pos + 4 + size;
    }
  }

  /** The inner search loop. */
  method FindStart(data: seq<Byte>, pos: nat, start: nat) returns (end: nat)
    requires start <= pos <= |data|
    ensures start <= end <= |data| && end - start == NextStart(data[start..], pos - start)
  {
    ghost var d := data[start..];
    var i := pos;
    while i < |data| - 3
      invariant pos <= i <= |data|
      invariant NextStart(d, pos - start) == NextStart(d, i - start)
    {
      if data[i] == 0 && data[i + 1] == 0 {
        if data[i + 2] == 1 {
          assert Found(d, i - start);
          return i;
        }
        if data[i + 2] == 0 && data[i + 3] == 1 {
          assert Found(d, i - start);
          return i;
        }
      }
      assert !Found(d, i - start);
      i := i + 1;
    }
    end := |data|;
  }

  // ---- converting

  /** Indexing the first byte of an empty piece panics. */
  datatype Outcome = Returns(bytes: seq<Byte>) | Panics

  /** Pieces with 4-byte start codes. */
  function Join(nals: seq<seq<Byte>>): seq<Byte> {
    if nals == [] then [] else START_CODE_4 + nals[0] + Join(nals[1..])
  }

  function Frame(frame: seq<Byte>): Outcome {
    if frame == [] || IsAnnexB(frame) then Returns(frame)
    else
      var p := Split(frame);
      if |p.parts| == 1 && p.parts[0] == [] then Panics
      else if |p.parts| == 1 && p.atStart then Returns(ToAnnexB(frame))
      else Returns(Join(p.parts))
  }

  lemma {:induction false} JoinAppend(a: seq<seq<Byte>>, b: seq<seq<Byte>>)
    ensures Join(a + b) == Join(a) + Join(b)
  {
    if a == [] {
      assert a + b == b;
    } else {
      assert (a + b)[1..] == a[1..] + b;
      JoinAppend(a[1..], b);
    }
  }

  method JoinNALs(nals: seq<seq<Byte>>) returns (out: seq<Byte>)
    ensures out == Join(nals)
  {
    out := [];
    for i := 0 to |nals|
      invariant out == Join(nals[..i])
    {
      assert nals[..i + 1] == nals[..i] + [nals[i]];
      JoinAppend(nals[..i], [nals[i]]);
      assert Join([nals[i]]) == START_CODE_4 + nals[i];
      out := out + START_CODE_4 + nals[i];
    }
    assert nals[..|nals|] == nals;
  }

  method FrameToAnnexB(frame: seq<Byte>) returns (r: Outcome)
    ensures r == Frame(frame)
  {
    if |frame| == 0 || IsAnnexB(frame) {
      return Returns(frame);
    }
    var nals := SplitNALs(frame);
    if |nals.parts| == 1 {
      if |nals.parts[0]| == 0 {
        return Panics;
      }
      if nals.atStart {
        return Returns(ToAnnexB(frame));
      }
    }
    var out := JoinNALs(nals.parts);
    r := Returns(out);
  }

  method ConfigToAnnexB(config: seq<Byte>) returns (r: Outcome)
    ensures r == Frame(config)
  {
    if |config| == 0 {
      return Returns(config);
    }
    if IsAnnexB(config) {
      return Returns(config);
    }
    var nals := SplitNALs(config);
    if |nals.parts| == 1 {
      if |nals.parts[0]| == 0 {
        return Panics;
      }
      if nals.atStart {
        return Returns(ToAnnexB(config));
      }
    }
    var out := JoinNALs(nals.parts);
    r := Returns(out);
  }

  /** The conversion panics on exactly these inputs: a zero length, and then nothing that fits. */
  lemma PanicsExactly(frame: seq<Byte>)
    ensures Frame(frame).Panics? <==>
              |frame| >= 4 && frame[..4] == [0, 0, 0, 0] && (|frame| < 8 || 8 + FromBe32(frame[4..8]) > |frame|)
  {
    if |frame| >= 4 {
      FromBe32RoundTrip(frame[..4]);
      if frame[..4] == [0, 0, 0, 0] {
        assert FromBe32(frame[..4]) == 0;
        var rest := frame[4..];
        assert frame[4..4 + 0] == [];
        assert |frame| >= 8 ==> rest[..4] == frame[4..8];
        assert AvccParts(frame) == [[]] + AvccParts(rest);
      } else if 4 + FromBe32(frame[..4]) <= |frame| {
        assert |frame[4..4 + FromBe32(frame[..4])]| > 0;
      }
    }
  }

  /** Four zero bytes are enough. */
  lemma ZeroLengthPanics()
    ensures Frame([0, 0, 0, 0]).Panics?
  {
    PanicsExactly([0, 0, 0, 0]);
  }

  // ---- splitting a byte stream loses nothing

  function Concat(parts: seq<seq<Byte>>): seq<Byte> {
    if parts == [] then [] else parts[0] + Concat(parts[1..])
  }

  /** A piece begins with a start code and does not split any further. */
  predicate Whole(p: seq<Byte>) {
    IsAnnexB(p) && AnnexParts(p) == [p]
  }

  lemma FirstPartIsWhole(d: seq<Byte>)
    requires IsAnnexB(d)
    ensures Whole(d[..NextStart(d, CodeLength(d))])
  {
    var p := d[..NextStart(d, CodeLength(d))];
    assert CodeLength(p) == CodeLength(d);
    assert forall j :: 0 <= j && Found(p, j) ==> Found(d, j);
    assert NextStart(p, CodeLength(p)) == |p|;
    assert p[..|p|] == p;
  }

  lemma {:induction false} AnnexPartsConcat(d: seq<Byte>)
    requires IsAnnexB(d)
    ensures Concat(AnnexParts(d)) == d
    ensures forall k :: 0 <= k < |AnnexParts(d)| ==> Whole(AnnexParts(d)[k])
    decreases |d|
  {
    var e := NextStart(d, CodeLength(d));
    assert AnnexParts(d)[0] == d[..e];
    FirstPartIsWhole(d);
    if e < |d| {
      AnnexPartsConcat(d[e..]);
      assert AnnexParts(d)[1..] == AnnexParts(d[e..]);
      assert d == d[..e] + d[e..];
    }
  }

  /** On any Annex B input SplitNALs returns pieces that each begin with a start code and split no
      further (so none is empty), and whose concatenation is the input. */
  lemma SplitCoversTheStream(d: seq<Byte>)
    requires IsAnnexB(d)
    ensures Concat(Split(d).parts) == d
    ensures forall k :: 0 <= k < |Split(d).parts| ==> Whole(Split(d).parts[k])
  {
    if |d| < 4 {
      assert d[..|d|] == d;
      assert AnnexParts(d) == [d];
      assert Split(d).parts[1..] == [];
    } else {
      AnnexPartsConcat(d);
    }
  }

  // ---- the round trip

  /** Emulation prevention keeps start codes out of a NAL unit, and its last byte is not zero. */
  predicate IsNal(n: seq<Byte>) {
    && 0 < |n| < 0x1_0000_0000
    && n[|n| - 1] != 0
    && forall i :: 0 <= i < |n| - 2 ==> !(n[i] == 0 && n[i + 1] == 0 && n[i + 2] == 1)
  }

  predicate AreNals(ns: seq<seq<Byte>>) {
    forall i :: 0 <= i < |ns| ==> IsNal(ns[i])
  }

  function Avcc(ns: seq<seq<Byte>>): seq<Byte>
    requires AreNals(ns)
  {
    if ns == [] then [] else Be32(|ns[0]|) + ns[0] + Avcc(ns[1..])
  }

  function Coded(ns: seq<seq<Byte>>): seq<seq<Byte>> {
    seq(|ns|, i requires 0 <= i < |ns| => START_CODE_4 + ns[i])
  }

  lemma {:induction false} AvccSplits(ns: seq<seq<Byte>>)
    requires AreNals(ns)
    ensures AvccParts(Avcc(ns)) == ns
  {
    if ns != [] {
      var d, n := Avcc(ns), |ns[0]|;
      Be32RoundTrip(n);
      assert d[..4] == Be32(n);
      assert d[4..4 + n] == ns[0];
      assert d[4 + n..] == Avcc(ns[1..]);
      AvccSplits(ns[1..]);
    }
  }

  /** Behind a NAL unit the search stops exactly where the next start code begins. */
  lemma NalEnds(n: seq<Byte>, rest: seq<Byte>)
    requires IsNal(n) && (rest == [] || StartCode4(rest))
    ensures NextStart(START_CODE_4 + n + rest, 4) == 4 + |n|
  {
    var d := START_CODE_4 + n + rest;
    var e := 4 + |n|;
    forall i | 4 <= i < e
      ensures !Found(d, i)
    {
      assert d[e - 1] == n[|n| - 1] != 0;
      if i + 2 < e {
        assert d[i] == n[i - 4] && d[i + 1] == n[i - 3] && d[i + 2] == n[i - 2];
      }
      if i + 3 < e {
        assert d[i + 3] == n[i - 1];
        assert !(n[i - 3] == 0 && n[i - 2] == 0 && n[i - 1] == 1);
      }
    }
    if rest != [] {
      assert d[e] == rest[0] && d[e + 1] == rest[1] && d[e + 2] == rest[2] && d[e + 3] == rest[3];
      assert Found(d, e);
    }
  }

  lemma {:induction false} JoinSplits(ns: seq<seq<Byte>>)
    requires AreNals(ns) && ns != []
    ensures StartCode4(Join(ns)) && AnnexParts(Join(ns)) == Coded(ns)
    decreases |ns|
  {
    var d, rest := Join(ns), Join(ns[1..]);
    var e := 4 + |ns[0]|;
    if |ns| > 1 {
      JoinSplits(ns[1..]);
    }
    NalEnds(ns[0], rest);
    assert d == START_CODE_4 + ns[0] + rest;
    assert d[..e] == START_CODE_4 + ns[0];
    if |ns| > 1 {
      assert d[e..] == rest;
      assert Coded(ns) == [START_CODE_4 + ns[0]] + Coded(ns[1..]);
    }
  }

  /** The start of length-prefixed data looks like a start code for these lengths only. */
  lemma LooksLikeAnnexB(ns: seq<seq<Byte>>)
    requires AreNals(ns) && ns != []
    ensures IsAnnexB(Avcc(ns)) <==> |ns[0]| == 1 || 256 <= |ns[0]| < 512
  {
    var d, n := Avcc(ns), |ns[0]|;
    assert d[0] == n / 256 / 256 / 256 && d[1] == n / 256 / 256 % 256 && d[2] == n / 256 % 256 && d[3] == n % 256;
  }

  ghost predicate RoundTrips(ns: seq<seq<Byte>>)
    requires AreNals(ns)
  {
    Frame(Avcc(ns)).Returns? && Split(Frame(Avcc(ns)).bytes).parts == Coded(ns)
  }

  predicate AllOnes(ns: seq<seq<Byte>>) {
    forall i :: 0 <= i < |ns| ==> |ns[i]| == 1
  }

  lemma {:induction false} OnesAreJoined(ns: seq<seq<Byte>>)
    requires AreNals(ns)
    ensures Avcc(ns) == Join(ns) <==> AllOnes(ns)
    decreases |ns|
  {
    if ns != [] {
      var a, j, n := Avcc(ns), Join(ns), |ns[0]|;
      OnesAreJoined(ns[1..]);
      assert AllOnes(ns) <==> n == 1 && AllOnes(ns[1..]) by {
        assert AllOnes(ns) ==> forall i :: 0 <= i < |ns[1..]| ==> |ns[1..][i]| == |ns[i + 1]| == 1;
        assert forall i :: 0 < i < |ns| ==> ns[i] == ns[1..][i - 1];
      }
      if a == j {
        assert a[..4] == Be32(n) && j[..4] == START_CODE_4;
        Be32RoundTrip(n);
        assert a[4 + n..] == Avcc(ns[1..]) && j[4 + n..] == Join(ns[1..]);
      } else if n == 1 {
        assert Be32(1) == START_CODE_4;
      }
    }
  }

  lemma {:induction false} ConcatCoded(ns: seq<seq<Byte>>)
    ensures Concat(Coded(ns)) == Join(ns)
    decreases |ns|
  {
    if ns != [] {
      ConcatCoded(ns[1..]);
      assert Coded(ns)[1..] == Coded(ns[1..]);
    }
  }

  /** Taken for a byte stream, the length-prefixed data comes back as it is. */
  lemma MistakenRoundTrip(ns: seq<seq<Byte>>)
    requires AreNals(ns) && ns != [] && IsAnnexB(Avcc(ns))
    ensures RoundTrips(ns) <==> AllOnes(ns)
  {
    OnesAreJoined(ns);
    JoinSplits(ns);
    SplitCoversTheStream(Avcc(ns));
    ConcatCoded(ns);
  }

  lemma ConvertedRoundTrip(ns: seq<seq<Byte>>)
    requires AreNals(ns) && ns != [] && !IsAnnexB(Avcc(ns))
    ensures RoundTrips(ns)
  {
    AvccSplits(ns);
    JoinSplits(ns);
    assert Split(Avcc(ns)) == Pieces(ns, false);
  }

  /** Length-prefixing NAL units, converting and splitting gives them back with 4-byte start codes,
      if and only if the first length cannot be mistaken for a start code, or every length reads
      as one. */
  lemma RoundTripExactly(ns: seq<seq<Byte>>)
    requires AreNals(ns) && ns != []
    ensures RoundTrips(ns) <==> (|ns[0]| != 1 && !(256 <= |ns[0]| < 512)) || AllOnes(ns)
  {
    LooksLikeAnnexB(ns);
    if IsAnnexB(Avcc(ns)) {
      MistakenRoundTrip(ns);
    } else {
      ConvertedRoundTrip(ns);
    }
  }

  /** A first NAL unit of one byte is such a case, if a longer one follows. */
  lemma OneByteNalBreaks(ns: seq<seq<Byte>>)
    requires ns == [[5], [5, 5]]
    ensures AreNals(ns) && !RoundTrips(ns)
  {
    RoundTripExactly(ns);
    assert |ns[1]| == 2;
  }

  // ---- byte streams with start codes of both lengths

  /** A NAL unit with a start code of four bytes, or of three. */
  datatype Coding = Coding(long: bool, nal: seq<Byte>)

  function Piece(u: Coding): seq<Byte> {
    (if u.long then [0, 0, 0, 1] else [0, 0, 1]) + u.nal
  }

  function PiecesOf(us: seq<Coding>): seq<seq<Byte>> {
    seq(|us|, i requires 0 <= i < |us| => Piece(us[i]))
  }

  function Stream(us: seq<Coding>): seq<Byte> {
    if us == [] then [] else Piece(us[0]) + Stream(us[1..])
  }

  lemma PieceStarts(u: Coding, rest: seq<Byte>)
    requires IsNal(u.nal)
    ensures IsAnnexB(Piece(u) + rest) && CodeLength(Piece(u) + rest) == if u.long then 4 else 3
    ensures |Piece(u)| >= 4
  {
  }

  /** Behind a NAL unit the search stops exactly where the next piece begins. */
  lemma SearchEnds(d: seq<Byte>, n: seq<Byte>, c: nat, e: nat)
    requires IsNal(n) && e == c + |n| && e <= |d| && d[c..e] == n
    requires e == |d| || (e + 4 <= |d| && IsAnnexB(d[e..]))
    ensures NextStart(d, c) == e
  {
    forall i | c <= i < e
      ensures !Found(d, i)
    {
      NotWithin(d, n, c, i);
    }
    if e < |d| { StartsAt(d, e); }
  }

  lemma PieceEnds(u: Coding, us: seq<Coding>)
    requires IsNal(u.nal) && forall i :: 0 <= i < |us| ==> IsNal(us[i].nal)
    ensures NextStart(Piece(u) + Stream(us), if u.long then 4 else 3) == |Piece(u)|
  {
    var d, c := Piece(u) + Stream(us), if u.long then 4 else 3;
    if us != [] {
      PieceStarts(us[0], Stream(us[1..]));
      assert d[|Piece(u)|..] == Stream(us);
    }
    SearchEnds(d, u.nal, c, |Piece(u)|);
  }

  lemma StartsAt(d: seq<Byte>, e: nat)
    requires e + 4 <= |d| && IsAnnexB(d[e..])
    ensures Found(d, e)
  {
  }

  lemma NotWithin(d: seq<Byte>, n: seq<Byte>, c: nat, i: nat)
    requires IsNal(n) && c + |n| <= |d| && d[c..c + |n|] == n && c <= i < c + |n|
    ensures !Found(d, i)
  {
    var e := c + |n|;
    assert forall k :: 0 <= k < |n| ==> d[c + k] == n[k];
    assert d[e - 1] == n[|n| - 1] != 0;
    if i + 2 < e {
      assert d[i] == n[i - c] && d[i + 1] == n[i - c + 1] && d[i + 2] == n[i - c + 2];
    }
    if i + 3 < e {
      assert d[i + 3] == n[i - c + 3];
    }
  }

  lemma {:induction false} StreamParts(us: seq<Coding>)
    requires us != [] && forall i :: 0 <= i < |us| ==> IsNal(us[i].nal)
    ensures IsAnnexB(Stream(us)) && |Stream(us)| >= 4 && AnnexParts(Stream(us)) == PiecesOf(us)
    decreases |us|
  {
    var u, rest := us[0], us[1..];
    PieceStarts(u, Stream(rest));
    PieceEnds(u, rest);
    var d := Stream(us);
    assert d[..|Piece(u)|] == Piece(u) && d[|Piece(u)|..] == Stream(rest);
    if rest != [] {
      StreamParts(rest);
      assert PiecesOf(us) == [Piece(u)] + PiecesOf(rest);
    }
  }

  /** A byte stream of NAL units, each behind a start code of three or of four bytes, splits into
      exactly these, and is no frame to convert: it stays as it is. */
  lemma StreamSplits(us: seq<Coding>)
    requires us != [] && forall i :: 0 <= i < |us| ==> IsNal(us[i].nal)
    ensures Split(Stream(us)) == Pieces(PiecesOf(us), true)
    ensures Frame(Stream(us)) == Returns(Stream(us))
  {
    StreamParts(us);
  }

  /** Data that neither begins with a start code nor with a length that fits gets one start code in
      front. */
  lemma UnframedGetsStartCode(d: seq<Byte>)
    requires d != [] && !(|d| >= 3 && d[..3] == [0, 0, 1]) && !(|d| >= 4 && d[..4] == [0, 0, 0, 1])
    requires |d| >= 4 ==> d[0] as int * 16777216 + d[1] as int * 65536 + d[2] as int * 256 + d[3] as int > |d| - 4
    ensures Frame(d) == Returns([0, 0, 0, 1] + d)
  {
    if |d| >= 4 {
      assert d[..4] == [d[0], d[1], d[2], d[3]];
    }
  }
}
