/** The ring of audio samples (scrcpy/app/src/util/audiobuf.c) as a FIFO sequence. */
module AudioBuf {
  /** A cursor below 2 * size, brought back into the ring. */
  function Wrap(x: nat, size: nat): (r: nat)
    requires 0 < size && x < 2 * size
    ensures r < size && r == x % size
  {
    WrapIsModulo(x, size);
    if x < size then x else x - size
  }

  lemma WrapIsModulo(x: nat, size: nat)
    requires 0 < size && x < 2 * size
    ensures x % size == if x < size then x else x - size
  {
    if x >= size {
      assert x == 1 * size + (x - size);
    }
  }

  function Least(a: nat, b: nat): nat {
    if a < b then a else b
  }

  /** The cell `i` places behind a cursor. */
  function Cell(cursor: nat, i: nat, size: nat): (c: nat)
    requires cursor < size && i < size
    ensures c < size
  {
    if cursor + i < size then cursor + i else cursor + i - size
  }

  /** The `n` samples from a cursor on in a ring with these cells, oldest first. */
  function Window(cells: seq<int>, tail: nat, n: nat): (w: seq<int>)
    requires tail < |cells| && n <= |cells|
    ensures |w| == n
  {
    seq(n, i requires 0 <= i < n => cells[Cell(tail, i, |cells|)])
  }

  /** The first `k` lie up to the end of the array, then at its start; without them the window
      begins behind them. */
  lemma WindowDrop(cells: seq<int>, tail: nat, n: nat, k: nat)
    requires tail < |cells| && k <= n < |cells|
    ensures Window(cells, Wrap(tail + k, |cells|), n - k) == Window(cells, tail, n)[k..]
    ensures forall i :: 0 <= i < k && tail + i < |cells| ==> Window(cells, tail, n)[i] == cells[tail + i]
    ensures forall i :: 0 <= i < k && tail + i >= |cells| ==> Window(cells, tail, n)[i] == cells[tail + i - |cells|]
  {
    var w, v := Window(cells, tail, n), Window(cells, Wrap(tail + k, |cells|), n - k);
    forall i | 0 <= i < n - k
      ensures v[i] == w[k + i]
    {
      assert Cell(Wrap(tail + k, |cells|), i, |cells|) == Cell(tail, k + i, |cells|);
    }
  }

  /** Writing into the free cells behind the window extends it. */
  lemma WindowGrow(cells: seq<int>, cells': seq<int>, tail: nat, n: nat, from: seq<int>)
    requires tail < |cells| == |cells'| && n + |from| < |cells|
    requires forall i :: 0 <= i < n ==> cells'[Cell(tail, i, |cells|)] == cells[Cell(tail, i, |cells|)]
    requires forall i :: 0 <= i < |from| ==> cells'[Cell(tail, n + i, |cells|)] == from[i]
    ensures Window(cells', tail, n + |from|) == Window(cells, tail, n) + from
  {
    var w, v := Window(cells, tail, n) + from, Window(cells', tail, n + |from|);
    forall i | 0 <= i < n + |from|
      ensures v[i] == w[i]
    {
      if i >= n { assert v[i] == cells'[Cell(tail, n + (i - n), |cells|)]; }
    }
  }

  /** The two pieces of a write, up to the end of the array and from its start, are those cells. */
  lemma WindowFilled(cells: seq<int>, cells': seq<int>, head: nat, tail: nat, n: nat, from: seq<int>, right: nat)
    requires tail < |cells| == |cells'| && head < |cells| && n + |from| < |cells|
    requires head == Cell(tail, n, |cells|) && right == Least(|cells| - head, |from|)
    requires forall j :: 0 <= j < right ==> cells'[head + j] == from[j]
    requires forall j :: 0 <= j < |from| - right ==> cells'[j] == from[right + j]
    requires forall j :: |from| - right <= j < |cells| && !(head <= j < head + right) ==> cells'[j] == cells[j]
    ensures Window(cells', tail, n + |from|) == Window(cells, tail, n) + from
  {
    forall i | 0 <= i < |from|
      ensures cells'[Cell(tail, n + i, |cells|)] == from[i]
    {
      if i < right {
        assert Cell(tail, n + i, |cells|) == head + i;
      } else {
        assert Cell(tail, n + i, |cells|) == i - right;
      }
    }
    WindowGrow(cells, cells', tail, n, from);
  }

  class Ring {
    const data: array<int>
    var head: nat
    var tail: nat

    predicate Valid()
      reads this
    {
      data.Length >= 2 && head < data.Length && tail < data.Length
    }

    /** One cell is never used, so that head == tail means empty. */
    function Capacity(): nat
      requires Valid()
      reads this
    {
      data.Length - 1
    }

    function CanRead(): (n: nat)
      requires Valid()
      reads this
      ensures n <= Capacity()
    {
      if head >= tail then head - tail else data.Length + head - tail
    }

    /** The readable samples, oldest first. */
    function Contents(): (s: seq<int>)
      requires Valid()
      reads this, data
    {
      Window(data[..], tail, CanRead())
    }

    constructor (capacity: nat)
      requires capacity > 0
      ensures Valid() && fresh(data) && Capacity() == capacity && Contents() == []
    {
      data := new int[capacity + 1];
      head, tail := 0, 0;
    }

    method CountReadable() returns (n: nat)
      requires Valid()
      ensures n == |Contents()|
    {
      WrapIsModulo(data.Length + head - tail, data.Length);
      n := (data.Length + head - tail) % data.Length;
    }

    /** The two memcpy of a read: `n` samples from the tail on. */
    method CopyOut(to: array<int>, n: nat)
      requires Valid() && to != data && n <= CanRead() && n <= to.Length
      modifies to
      ensures to[..n] == Contents()[..n]
    {
      var right := if data.Length - tail > n then n else data.Length - tail;
      for i := 0 to right
        invariant forall j :: 0 <= j < i ==> to[j] == data[tail + j]
      {
        to[i] := data[tail + i];
      }
      for i := 0 to n - right
        invariant forall j :: 0 <= j < right ==> to[j] == data[tail + j]
        invariant forall j :: 0 <= j < i ==> to[right + j] == data[j]
      {
        to[right + i] := data[i];
      }
      WindowDrop(data[..], tail, CanRead(), n);
      forall i | 0 <= i < n
        ensures to[i] == Contents()[i]
      {
        if i >= right { assert to[right + (i - right)] == data[i - right]; }
      }
    }

    /** sc_audiobuf_read; `to` may be null, to drop samples. */
    method Read(to: array?<int>, count: nat) returns (n: nat)
      requires Valid() && count > 0 && (to != null ==> to != data && to.Length >= count)
      modifies this`tail, to
      ensures Valid() && n == Least(count, |old(Contents())|)
      ensures Contents() == old(Contents())[n..]
      ensures to != null ==> to[..n] == old(Contents())[..n]
    {
      n := CountReadable();
      if n == 0 {
        return;
      }
      if count < n {
        n := count;
      }
      if to != null {
        CopyOut(to, n);
      }
      Advance(n);
    }

    method Advance(n: nat)
      requires Valid() && n <= CanRead()
      modifies this`tail
      ensures Valid() && Contents() == old(Contents())[n..]
    {
      WindowDrop(data[..], tail, CanRead(), n);
      WrapIsModulo(tail + n, data.Length);
      tail := (tail + n) % data.Length;
    }

    /** The two memcpy of a write: the samples go into the cells behind the head. */
    method CopyIn(from: seq<int>)
      requires Valid() && CanRead() + |from| < data.Length
      modifies data
      ensures Window(data[..], tail, CanRead() + |from|) == old(Contents()) + from
    {
      ghost var cells := data[..];
      var right := if data.Length - head > |from| then |from| else data.Length - head;
      for i := 0 to right
        invariant forall j :: 0 <= j < i ==> data[head + j] == from[j]
        invariant forall j :: 0 <= j < data.Length && !(head <= j < head + i) ==> data[j] == cells[j]
      {
        data[head + i] := from[i];
      }
      for i := 0 to |from| - right
        invariant forall j :: 0 <= j < right ==> data[head + j] == from[j]
        invariant forall j :: 0 <= j < i ==> data[j] == from[right + j]
        invariant forall j :: i <= j < data.Length && !(head <= j < head + right) ==> data[j] == cells[j]
      {
        data[i] := from[right + i];
      }
      WindowFilled(cells, data[..], head, tail, CanRead(), from, right);
    }

    /** sc_audiobuf_write: as many of the samples as there is room for. */
    method Write(from: seq<int>) returns (n: nat)
      requires Valid()
      modifies this`head, data
      ensures Valid() && n == Least(|from|, old(Capacity() - |Contents()|))
      ensures Contents() == old(Contents()) + from[..n]
    {
      WrapIsModulo(data.Length + tail - head - 1, data.Length);
      n := (data.Length + tail - head - 1) % data.Length;
      if n == 0 {
        return;
      }
      if |from| < n {
        n := |from|;
      }
      CopyIn(from[..n]);
      WrapIsModulo(head + n, data.Length);
      head := (head + n) % data.Length;
    }
  }
}
