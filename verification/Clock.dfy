/** The clock that estimates the offset between stream and system time (scrcpy/app/src/clock.c). */
module Clock {
  const CLOCK_RANGE := 32

  /** C's integer division. */
  function Quotient(a: int, b: int): int
    requires b > 0
  {
    if a >= 0 then a / b else -((-a) / b)
  }

  datatype ClockState = ClockState(range: nat, offset: int)

  const Fresh := ClockState(0, 0)

  /** sc_clock_update. */
  function Update(c: ClockState, system: int, stream: int): ClockState {
    var range := if c.range < CLOCK_RANGE then c.range + 1 else c.range;
    ClockState(range, Quotient(c.offset * (range - 1) + (system - stream) * (CLOCK_RANGE - range + 1), CLOCK_RANGE))
  }

  class ClockObject {
    var range: nat
    var offset: int

    function View(): ClockState
      reads this
    {
      ClockState(range, offset)
    }

    constructor ()
      ensures View() == Fresh
    {
      range, offset := 0, 0;
    }

    method UpdateWith(system: int, stream: int)
      modifies this
      ensures View() == Update(old(View()), system, stream)
    {
      if range < CLOCK_RANGE {
        range := range + 1;
      }
      var value := system - stream;
      var clockWeight := range - 1;
      var valueWeight := CLOCK_RANGE - range + 1;
      offset := Quotient(offset * clockWeight + value * valueWeight, CLOCK_RANGE);
    }

    method ToSystemTime(stream: int) returns (system: int)
      requires range != 0
      ensures system == stream + offset
    {
      system := stream + offset;
    }
  }

  // ---- the estimate stays within what was observed

  /** One observation: system time and stream time. */
  datatype Point = Point(system: int, stream: int)

  function UpdateAll(c: ClockState, ps: seq<Point>): ClockState
    decreases |ps|
  {
    if ps == [] then c else UpdateAll(Update(c, ps[0].system, ps[0].stream), ps[1..])
  }

  predicate Between(lo: int, ps: seq<Point>, hi: int) {
    forall i :: 0 <= i < |ps| ==> lo <= ps[i].system - ps[i].stream <= hi
  }

  /** A weighted mean, cut towards zero, of integers between two bounds is between them. */
  lemma MeanBetween(a: int, b: int, w: nat, lo: int, hi: int)
    requires w <= 32 && lo <= a <= hi && lo <= b <= hi
    ensures lo <= Quotient(a * w + b * (32 - w), 32) <= hi
  {
    var n := a * w + b * (32 - w);
    Scale(lo, a, w);
    Scale(lo, b, 32 - w);
    Scale(a, hi, w);
    Scale(b, hi, 32 - w);
    assert lo * w + lo * (32 - w) == lo * 32 && hi * w + hi * (32 - w) == hi * 32;
    assert lo * 32 <= n <= hi * 32;
  }

  lemma Scale(a: int, b: int, w: nat)
    requires a <= b
    ensures a * w <= b * w
  {
  }

  lemma UpdateBetween(c: ClockState, system: int, stream: int, lo: int, hi: int)
    requires c.range <= CLOCK_RANGE && (c.range > 0 ==> lo <= c.offset <= hi) && lo <= system - stream <= hi
    ensures lo <= Update(c, system, stream).offset <= hi && 0 < Update(c, system, stream).range <= CLOCK_RANGE
  {
    var range := Update(c, system, stream).range;
    if range == 1 {
      MeanBetween(system - stream, system - stream, 0, lo, hi);
      assert c.offset * 0 + (system - stream) * 32 == (system - stream) * 32;
    } else {
      MeanBetween(c.offset, system - stream, range - 1, lo, hi);
      assert CLOCK_RANGE - range + 1 == 32 - (range - 1);
    }
  }

  /** Over any run of updates the offset stays between the least and the greatest offset observed,
      whatever the rounding. */
  lemma {:induction false} OffsetBetween(c: ClockState, ps: seq<Point>, lo: int, hi: int)
    requires c.range <= CLOCK_RANGE && (c.range > 0 ==> lo <= c.offset <= hi) && Between(lo, ps, hi) && (c.range > 0 || ps != [])
    ensures lo <= UpdateAll(c, ps).offset <= hi && 0 < UpdateAll(c, ps).range <= CLOCK_RANGE
    decreases |ps|
  {
    if ps != [] {
      UpdateBetween(c, ps[0].system, ps[0].stream, lo, hi);
      assert Between(lo, ps[1..], hi);
      OffsetBetween(Update(c, ps[0].system, ps[0].stream), ps[1..], lo, hi);
    }
  }

  // ---- how fast it follows

  /** Thirty-two times the new offset is the weighted sum of old offset and observation, cut towards
      zero: the observation has all the weight at first, one part less with each update, and one part
      in thirty-two from the thirty-second on. */
  lemma UpdateIsWeightedMean(c: ClockState, system: int, stream: int)
    requires c.range <= 32
    ensures var r := if c.range < 32 then c.range + 1 else 32;
            var n := (r - 1) * c.offset + (33 - r) * (system - stream);
            var c' := Update(c, system, stream);
            && c'.range == r
            && (if n >= 0 then 32 * c'.offset <= n < 32 * c'.offset + 32 else 32 * c'.offset - 32 < n <= 32 * c'.offset)
  {
    var r := if c.range < 32 then c.range + 1 else 32;
    var n := c.offset * (r - 1) + (system - stream) * (CLOCK_RANGE - r + 1);
    assert n == (r - 1) * c.offset + (33 - r) * (system - stream);
    assert Update(c, system, stream).offset == Quotient(n, 32);
  }

  function Abs(x: int): nat {
    if x < 0 then -x else x
  }

  /** With a full range, an update leaves thirty-one parts of the distance to the observation, up to
      the rounding: a distance of 32 or more gets smaller, and a lesser one stays below 32. */
  lemma DistanceShrinks(c: ClockState, system: int, stream: int)
    requires c.range == 32
    ensures var d, d' := Abs(c.offset - (system - stream)), Abs(Update(c, system, stream).offset - (system - stream));
            && 32 * d' <= 31 * d + 31
            && (d >= 32 ==> d' < d) && (d < 32 ==> d' < 32)
    ensures 32 * Abs(Update(c, system, stream).offset - c.offset) <= Abs(c.offset - (system - stream)) + 31
  {
    UpdateIsWeightedMean(c, system, stream);
  }

  /** After the offset has jumped to `k`, the estimate comes at least one nearer with each update,
      until it is within 31 of it, and stays there. */
  lemma {:induction false} SettlesAfterJump(c: ClockState, ps: seq<Point>, k: int)
    requires c.range == 32 && Between(k, ps, k)
    ensures UpdateAll(c, ps).range == 32
    ensures Abs(UpdateAll(c, ps).offset - k) <= 31 || Abs(UpdateAll(c, ps).offset - k) <= Abs(c.offset - k) - |ps|
    decreases |ps|
  {
    if ps != [] {
      UpdateIsWeightedMean(c, ps[0].system, ps[0].stream);
      DistanceShrinks(c, ps[0].system, ps[0].stream);
      SettlesAfterJump(Update(c, ps[0].system, ps[0].stream), ps[1..], k);
    }
  }

  /** The first observation is taken as it is. */
  lemma FirstIsExact(system: int, stream: int)
    ensures Update(Fresh, system, stream) == ClockState(1, system - stream)
  {
  }

  /** A constant offset is estimated exactly, for good. */
  lemma ConstantIsExact(ps: seq<Point>, k: int)
    requires ps != [] && Between(k, ps, k)
    ensures UpdateAll(Fresh, ps).offset == k
  {
    OffsetBetween(Fresh, ps, k, k);
  }

  const INT64_LIMIT := 0x8000_0000_0000_0000

  /** The 64-bit arithmetic of an update does not overflow while offsets stay below 2^57
      microseconds (over four thousand years) in size. */
  lemma NoOverflow(c: ClockState, value: int, limit: int)
    requires limit == 0x200_0000_0000_0000 && 1 <= c.range <= CLOCK_RANGE && -limit <= c.offset <= limit && -limit <= value <= limit
    ensures var p, q := c.offset * (c.range - 1), value * (CLOCK_RANGE - c.range + 1);
            && -INT64_LIMIT <= p < INT64_LIMIT && -INT64_LIMIT <= q < INT64_LIMIT && -INT64_LIMIT <= p + q < INT64_LIMIT
  {
    var w := c.range - 1;
    Scale(c.offset, limit, w);
    Scale(-limit, c.offset, w);
    Scale(value, limit, 32 - w);
    Scale(-limit, value, 32 - w);
    assert CLOCK_RANGE - c.range + 1 == 32 - w;
  }
}
