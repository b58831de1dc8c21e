/** The device messages (scrcpy/app/src/device_msg.c, scrcpy/app/src/device_msg.h). */
module DeviceMessages {
  import opened Bytes

  const DEVICE_MSG_MAX_SIZE := 0x4_0000

  datatype DeviceMsg =
    | Clipboard(text: seq<Byte>)
    | AckClipboard(sequence: Uint64)
    | UhidOutput(id: nat, data: seq<Byte>)

  /** The result of sc_device_msg_deserialize: 0, -1, or a message and its size. */
  datatype Parsed = Incomplete | Unknown | Msg(msg: DeviceMsg, size: nat)

  /** sc_device_msg_deserialize. */
  function Deserialize(d: seq<Byte>): (r: Parsed)
    ensures r.Msg? ==> 0 < r.size <= |d|
  {
    if d == [] then Incomplete
    else if d[0] == 0 then
      if |d| < 5 || FromBe32(d[1..5]) > |d| - 5 then Incomplete
      else Msg(Clipboard(d[5..5 + FromBe32(d[1..5])]), 5 + FromBe32(d[1..5]))
    else if d[0] == 1 then
      if |d| < 9 then Incomplete else Msg(AckClipboard(FromBe64(d[1..9])), 9)
    else if d[0] == 2 then
      if |d| < 5 || FromBe16(d[3..5]) > |d| - 5 then Incomplete
      else Msg(UhidOutput(FromBe16(d[1..3]), d[5..5 + FromBe16(d[3..5])]), 5 + FromBe16(d[3..5]))
    else Unknown
  }

  lemma DeserializeMore(d: seq<Byte>, more: seq<Byte>)
    requires !Deserialize(d).Incomplete?
    ensures Deserialize(d + more) == Deserialize(d)
  {
    var e := d + more;
    assert |d| >= 5 ==> e[1..5] == d[1..5] && e[1..3] == d[1..3] && e[3..5] == d[3..5];
    assert |d| >= 9 ==> e[1..9] == d[1..9];
    assert forall n :: 5 <= n <= |d| ==> e[5..n] == d[5..n];
  }

  lemma Number32(b: seq<Byte>)
    requires |b| == 4
    ensures FromBe32(b) == b[0] as int * 16777216 + b[1] as int * 65536 + b[2] as int * 256 + b[3] as int
  {
  }

  /** A message of each type byte by byte, and what is none. */
  lemma Examples()
    ensures Deserialize([0, 0, 0, 0, 2, 104, 105, 9]) == Msg(Clipboard([104, 105]), 7)
    ensures Deserialize([1, 0, 0, 0, 0, 0, 0, 1, 2]) == Msg(AckClipboard(258), 9)
    ensures Deserialize([2, 1, 3, 0, 2, 7, 8]) == Msg(UhidOutput(259, [7, 8]), 7)
    ensures Deserialize([]) == Incomplete && Deserialize([0, 0, 0, 0, 2, 104]) == Incomplete
  {
    var c: seq<Byte> := [0, 0, 0, 0, 2, 104, 105, 9];
    assert c[1..5] == [0, 0, 0, 2] && c[5..7] == [104, 105];
    var k: seq<Byte> := [1, 0, 0, 0, 0, 0, 0, 1, 2];
    assert k[1..9] == [0, 0, 0, 0, 0, 0, 1, 2];
    assert k[1..9][..4] == [0, 0, 0, 0] && k[1..9][4..] == [0, 0, 1, 2];
    var u: seq<Byte> := [2, 1, 3, 0, 2, 7, 8];
    assert u[1..3] == [1, 3] && u[3..5] == [0, 2] && u[5..7] == [7, 8];
    var p: seq<Byte> := [0, 0, 0, 0, 2, 104];
    assert p[1..5] == [0, 0, 0, 2];
  }

  /** Unknown is exactly a first byte above 2. */
  lemma UnknownExactly(d: seq<Byte>)
    ensures Deserialize(d).Unknown? <==> d != [] && d[0] > 2
  {
  }

  // ---- what was parsed can be put together again

  function Be16(n: nat): seq<Byte>
    requires n < 0x1_0000
  {
    [n / 256, n % 256]
  }

  predicate Sendable(m: DeviceMsg) {
    match m
    case Clipboard(text) => |text| < 0x1_0000_0000
    case AckClipboard(_) => true
    case UhidOutput(id, data) => id < 0x1_0000 && |data| < 0x1_0000
  }

  /** The bytes the device sends for a message. */
  function Serialize(m: DeviceMsg): seq<Byte>
    requires Sendable(m)
  {
    match m
    case Clipboard(text) => [0] + Be32(|text|) + text
    case AckClipboard(sequence) => [1] + Be64(sequence)
    case UhidOutput(id, data) => [2] + Be16(id) + Be16(|data|) + data
  }

  function SerializeAll(ms: seq<DeviceMsg>): seq<Byte>
    requires forall i :: 0 <= i < |ms| ==> Sendable(ms[i])
  {
    if ms == [] then [] else Serialize(ms[0]) + SerializeAll(ms[1..])
  }

  lemma SerializeOne(m: DeviceMsg, more: seq<Byte>)
    requires Sendable(m)
    ensures Deserialize(Serialize(m) + more) == Msg(m, |Serialize(m)|)
  {
    var e := Serialize(m) + more;
    match m
    case Clipboard(text) =>
      Be32RoundTrip(|text|);
      assert e[1..5] == Be32(|text|) && e[5..5 + |text|] == text;
    case AckClipboard(sequence) =>
      Be64RoundTrip(sequence);
      assert e[1..9] == Be64(sequence);
    case UhidOutput(id, data) =>
      assert e[1..3] == Be16(id) && e[3..5] == Be16(|data|) && e[5..5 + |data|] == data;
  }

  // ---- the buffer

  /** The header of a clipboard message that is larger than the buffer. */
  predicate Oversized(d: seq<Byte>) {
    |d| >= 5 && d[0] == 0 && 5 + d[1] as int * 16777216 + d[2] as int * 65536 + d[3] as int * 256 + d[4] as int > 262144
  }

  /** The buffer is full with nothing to process exactly if it holds an oversized message; such a
      message never fits, whatever arrives behind it. */
  lemma FullExactlyIfOversized(d: seq<Byte>)
    requires |d| == DEVICE_MSG_MAX_SIZE
    ensures Deserialize(d).Incomplete? <==> Oversized(d)
  {
    Number32(d[1..5]);
    assert d[1..5] == [d[1], d[2], d[3], d[4]];
  }

  lemma OversizedNeverParses(d: seq<Byte>, more: seq<Byte>)
    requires Oversized(d) && |d| + |more| <= DEVICE_MSG_MAX_SIZE
    ensures Deserialize(d + more).Incomplete?
  {
    Number32(d[1..5]);
    assert (d + more)[1..5] == d[1..5] == [d[1], d[2], d[3], d[4]];
  }
}
