/** The loop of the receiver (scrcpy/app/src/receiver.c): an incremental parser over a fixed buffer. */
module Receiver {
  import opened Bytes
  import opened DeviceMessages

  /** Parsing a byte string at once: its messages behind those already there, what is left, and
      whether it ended at a type that is not known. */
  datatype Outcome = Outcome(msgs: seq<DeviceMsg>, rest: seq<Byte>, bad: bool)

  function Parse(d: seq<Byte>, done: seq<DeviceMsg>): (r: Outcome)
    ensures |r.rest| <= |d|
    ensures r.bad <==> Deserialize(r.rest).Unknown?
    ensures !r.bad <==> Deserialize(r.rest).Incomplete?
    decreases |d|
  {
    var r := Deserialize(d);
    if r.Msg? then Parse(d[r.size..], done + [r.msg]) else Outcome(done, d, r.Unknown?)
  }

  /** What is left is the end of what was parsed. */
  lemma {:induction false} RestIsSuffix(d: seq<Byte>, done: seq<DeviceMsg>)
    ensures Parse(d, done).rest == d[|d| - |Parse(d, done).rest|..]
    decreases |d|
  {
    var r := Deserialize(d);
    if r.Msg? {
      RestIsSuffix(d[r.size..], done + [r.msg]);
    }
  }

  // ---- the receiver

  datatype State = State(pending: seq<Byte>, processed: seq<DeviceMsg>, error: bool)

  const Start := State([], [], false)

  /** One result of net_recv. */
  function Feed(s: State, chunk: seq<Byte>): State {
    if s.error then s
    else
      var p := Parse(s.pending + chunk, s.processed);
      State(if p.bad then s.pending + chunk else p.rest, p.msgs, p.bad)
  }

  class MessageReceiver {
    const buf: array<Byte>
    var head: nat
    var processed: seq<DeviceMsg>
    var error: bool

    predicate Valid()
      reads this
    {
      buf.Length == DEVICE_MSG_MAX_SIZE && head <= DEVICE_MSG_MAX_SIZE
    }

    function View(): State
      requires Valid()
      reads this, buf
    {
      State(buf[..head], processed, error)
    }

    constructor ()
      ensures Valid() && fresh(buf) && View() == Start
    {
      buf := new Byte[DEVICE_MSG_MAX_SIZE](_ => 0);
      head, processed, error := 0, [], false;
    }

    /** process_msgs: the messages handed to process_msg behind those in `done`, and -1 at an unknown
        type or else the number of bytes consumed. */
    method ProcessMsgs(len: nat, done: seq<DeviceMsg>) returns (consumed: int, msgs: seq<DeviceMsg>)
      requires Valid() && len <= buf.Length
      ensures var p := Parse(buf[..len], done); msgs == p.msgs && consumed == if p.bad then -1 else len - |p.rest|
    {
      ghost var bytes := buf[..len];
      var h := 0;
      msgs := done;
      assert bytes == bytes[0..];
      while true
        invariant 0 <= h <= len
        invariant Parse(bytes[h..], msgs) == Parse(bytes, done)
        decreases len - h
      {
        assert buf[h..len] == bytes[h..];
        var r := Deserialize(buf[h..len]);
        if r.Unknown? {
          return -1, msgs;
        }
        if r.Incomplete? {
          return h, msgs;
        }
        assert bytes[h..][r.size..] == bytes[h + r.size..];
        msgs := msgs + [r.msg];
        h := h + r.size;
        if h == len {
          assert bytes[h..] == [];
          return h, msgs;
        }
      }
    }

    /** net_recv into the rest of the buffer. */
    method Append(chunk: seq<Byte>)
      requires Valid() && |chunk| <= DEVICE_MSG_MAX_SIZE - head
      modifies this`head, buf
      ensures Valid() && head == old(head) + |chunk| && buf[..head] == old(buf[..head]) + chunk
    {
      ghost var was := buf[..head];
      for i := 0 to |chunk|
        invariant head == old(head)
        invariant buf[..head] == was && buf[head..head + i] == chunk[..i]
      {
        buf[head + i] := chunk[i];
      }
      assert buf[..head + |chunk|] == buf[..head] + buf[head..head + |chunk|];
      head := head + |chunk|;
    }

    /** memmove(buf, &buf[consumed], head - consumed). */
    method Shift(consumed: nat)
      requires Valid() && consumed <= head
      modifies this`head, buf
      ensures Valid() && head == old(head) - consumed && buf[..head] == old(buf[consumed..head])
    {
      head := head - consumed;
      for i := 0 to head
        invariant head == old(head) - consumed
        invariant buf[..i] == old(buf[consumed..consumed + i])
        invariant buf[i..] == old(buf[i..])
      {
        buf[i] := buf[i + consumed];
      }
    }

    /** One turn of the loop of run_receiver. */
    method Receive(chunk: seq<Byte>)
      requires Valid() && !error && 0 < |chunk| <= DEVICE_MSG_MAX_SIZE - head
      modifies this, buf
      ensures Valid() && View() == Feed(old(View()), chunk)
    {
      Append(chunk);
      ghost var all := buf[..head];
      var consumed, msgs := ProcessMsgs(head, processed);
      RestIsSuffix(all, processed);
      processed := msgs;
      if consumed == -1 {
        error := true;
        return;
      }
      if consumed != 0 {
        assert buf[consumed..head] == all[consumed..];
        Shift(consumed);
      }
    }
  }

  // ---------------------------------------------------------------------------------------
  // Chunk independence

  /** Parsing can stop and go on where it stopped. */
  lemma {:induction false} ParseMore(d: seq<Byte>, done: seq<DeviceMsg>, more: seq<Byte>)
    ensures var p := Parse(d, done);
            Parse(d + more, done) == if p.bad then Outcome(p.msgs, p.rest + more, true) else Parse(p.rest + more, p.msgs)
    decreases |d|
  {
    var r := Deserialize(d);
    if !r.Incomplete? {
      DeserializeMore(d, more);
    }
    if r.Msg? {
      assert (d + more)[r.size..] == d[r.size..] + more;
      ParseMore(d[r.size..], done + [r.msg], more);
    }
  }

  function FeedAll(s: State, chunks: seq<seq<Byte>>): State
    decreases |chunks|
  {
    if chunks == [] then s else FeedAll(Feed(s, chunks[0]), chunks[1..])
  }

  function Flatten(chunks: seq<seq<Byte>>): seq<Byte> {
    if chunks == [] then [] else chunks[0] + Flatten(chunks[1..])
  }

  lemma StopsAtError(s: State, chunks: seq<seq<Byte>>)
    requires s.error
    ensures FeedAll(s, chunks) == s
    decreases |chunks|
  {
  }

  lemma {:induction false} FeedAllParses(s: State, chunks: seq<seq<Byte>>)
    requires !s.error && Deserialize(s.pending).Incomplete?
    ensures var t, p := FeedAll(s, chunks), Parse(s.pending + Flatten(chunks), s.processed);
            && t.processed == p.msgs && t.error == p.bad
            && (!t.error ==> t.pending == p.rest)
    decreases |chunks|
  {
    if chunks == [] {
      assert s.pending + Flatten(chunks) == s.pending;
    } else {
      var c, rest := chunks[0], Flatten(chunks[1..]);
      assert s.pending + Flatten(chunks) == (s.pending + c) + rest;
      ParseMore(s.pending + c, s.processed, rest);
      var s1 := Feed(s, c);
      if s1.error {
        StopsAtError(s1, chunks[1..]);
      } else {
        FeedAllParses(s1, chunks[1..]);
      }
    }
  }

  /** However the stream is cut into chunks, the messages processed are those of the whole stream,
      up to the first unknown type, and the bytes kept are exactly what is not parsed yet. */
  lemma ChunkIndependence(chunks: seq<seq<Byte>>)
    ensures var t, p := FeedAll(Start, chunks), Parse(Flatten(chunks), []);
            && t.processed == p.msgs && t.error == p.bad
            && (!t.error ==> t.pending == p.rest)
  {
    assert [] + Flatten(chunks) == Flatten(chunks);
    FeedAllParses(Start, chunks);
  }

  /** Messages that a device serialized are what a parse finds, whatever was parsed before. */
  lemma {:induction false} SerializedParses(ms: seq<DeviceMsg>, done: seq<DeviceMsg>)
    requires forall i :: 0 <= i < |ms| ==> Sendable(ms[i])
    ensures Parse(SerializeAll(ms), done) == Outcome(done + ms, [], false)
    decreases |ms|
  {
    if ms == [] {
      assert done + ms == done;
    } else {
      var m, e, rest := ms[0], Serialize(ms[0]), SerializeAll(ms[1..]);
      SerializeOne(m, rest);
      ParseFirst(e, m, rest, done);
      SerializedParses(ms[1..], done + [m]);
      Shifted(done, ms);
    }
  }

  lemma ParseFirst(e: seq<Byte>, m: DeviceMsg, rest: seq<Byte>, done: seq<DeviceMsg>)
    requires Deserialize(e + rest) == Msg(m, |e|)
    ensures Parse(e + rest, done) == Parse(rest, done + [m])
  {
    assert (e + rest)[|e|..] == rest;
  }

  lemma Shifted(done: seq<DeviceMsg>, ms: seq<DeviceMsg>)
    requires ms != []
    ensures (done + [ms[0]]) + ms[1..] == done + ms
  {
  }

  /** Messages sent in any chunks arrive as they were sent, in order. */
  lemma MessagesArrive(ms: seq<DeviceMsg>, chunks: seq<seq<Byte>>)
    requires forall i :: 0 <= i < |ms| ==> Sendable(ms[i])
    requires Flatten(chunks) == SerializeAll(ms)
    ensures FeedAll(Start, chunks) == State([], ms, false)
  {
    ChunkIndependence(chunks);
    SerializedParses(ms, []);
  }

  lemma {:induction false} ParsesThrough(ms: seq<DeviceMsg>, tail: seq<Byte>, done: seq<DeviceMsg>)
    requires forall i :: 0 <= i < |ms| ==> Sendable(ms[i])
    ensures Parse(SerializeAll(ms) + tail, done) == Parse(tail, done + ms)
    decreases |ms|
  {
    if ms == [] {
      assert SerializeAll(ms) + tail == tail && done + ms == done;
    } else {
      var m, e, rest := ms[0], Serialize(ms[0]), SerializeAll(ms[1..]);
      SerializeOne(m, rest + tail);
      assert SerializeAll(ms) + tail == e + (rest + tail);
      ParseFirst(e, m, rest + tail, done);
      ParsesThrough(ms[1..], tail, done + [m]);
      Shifted(done, ms);
    }
  }

  /** Messages followed by the beginning of another, in any chunks: the messages are processed and the
      beginning is kept. */
  lemma BeginningIsKept(ms: seq<DeviceMsg>, last: DeviceMsg, tail: seq<Byte>, chunks: seq<seq<Byte>>)
    requires forall i :: 0 <= i < |ms| ==> Sendable(ms[i])
    requires Sendable(last) && tail < Serialize(last) && Flatten(chunks) == SerializeAll(ms) + tail
    ensures FeedAll(Start, chunks) == State(tail, ms, false)
  {
    ChunkIndependence(chunks);
    ParsesThrough(ms, tail, []);
    BeginningIsIncomplete(last, tail);
    assert [] + ms == ms;
  }

  lemma UnknownParses(b: Byte, more: seq<Byte>, done: seq<DeviceMsg>)
    requires b > 2
    ensures Parse([b] + more, done) == Outcome(done, [b] + more, true)
  {
    UnknownExactly([b] + more);
  }

  /** A type above 2 behind some messages ends the stream in error, in any chunks: the messages before
      it are still processed, and none behind it. */
  lemma UnknownTypeEndsStream(ms: seq<DeviceMsg>, b: Byte, more: seq<Byte>, chunks: seq<seq<Byte>>)
    requires forall i :: 0 <= i < |ms| ==> Sendable(ms[i])
    requires b > 2 && Flatten(chunks) == SerializeAll(ms) + ([b] + more)
    ensures FeedAll(Start, chunks).error && FeedAll(Start, chunks).processed == ms
  {
    ChunkIndependence(chunks);
    ParsesThrough(ms, [b] + more, []);
    assert [] + ms == ms;
    UnknownParses(b, more, ms);
  }

  // ---- the buffer

  /** What net_recv can return: something, and no more than there is room for. */
  predicate Received(s: State, chunks: seq<seq<Byte>>)
    decreases |chunks|
  {
    chunks == [] || s.error
    || (0 < |chunks[0]| && |s.pending| + |chunks[0]| <= DEVICE_MSG_MAX_SIZE && Received(Feed(s, chunks[0]), chunks[1..]))
  }

  lemma {:induction false} PendingFits(s: State, chunks: seq<seq<Byte>>)
    requires Received(s, chunks) && |s.pending| <= DEVICE_MSG_MAX_SIZE && (!s.error ==> Deserialize(s.pending).Incomplete?)
    ensures var t := FeedAll(s, chunks); |t.pending| <= DEVICE_MSG_MAX_SIZE && (!t.error ==> Deserialize(t.pending).Incomplete?)
    decreases |chunks|
  {
    if chunks != [] {
      if s.error {
        StopsAtError(s, chunks);
      } else {
        PendingFits(Feed(s, chunks[0]), chunks[1..]);
      }
    }
  }

  /** At the start of every iteration there is room in the buffer, unless the device sent a message
      larger than the buffer. */
  lemma RoomUnlessOversized(chunks: seq<seq<Byte>>)
    requires Received(Start, chunks)
    ensures var t := FeedAll(Start, chunks);
            !t.error ==> |t.pending| <= 262144 && (|t.pending| == 262144 ==> Oversized(t.pending))
  {
    PendingFits(Start, chunks);
    var t := FeedAll(Start, chunks);
    if |t.pending| == DEVICE_MSG_MAX_SIZE && !t.error {
      FullExactlyIfOversized(t.pending);
    }
  }

  /** The beginning of a message is no message yet. */
  lemma BeginningIsIncomplete(m: DeviceMsg, d: seq<Byte>)
    requires Sendable(m) && d < Serialize(m)
    ensures Deserialize(d).Incomplete?
  {
    if !Deserialize(d).Incomplete? {
      var more := Serialize(m)[|d|..];
      assert d + more == Serialize(m) && Serialize(m) + [] == Serialize(m);
      DeserializeMore(d, more);
      SerializeOne(m, []);
      assert false;
    }
  }

  /** Whatever has arrived of messages that fit into the buffer, fewer bytes are left than it holds. */
  lemma {:induction false} BeginningParses(ms: seq<DeviceMsg>, d: seq<Byte>, done: seq<DeviceMsg>)
    requires forall i :: 0 <= i < |ms| ==> Sendable(ms[i]) && |Serialize(ms[i])| <= DEVICE_MSG_MAX_SIZE
    requires d <= SerializeAll(ms)
    ensures var o := Parse(d, done); !o.bad && |o.rest| < DEVICE_MSG_MAX_SIZE && o.msgs <= done + ms
    decreases |ms|
  {
    if d == [] {
      assert Parse(d, done) == Outcome(done, [], false);
    } else {
      var m, e, rest := ms[0], Serialize(ms[0]), SerializeAll(ms[1..]);
      if |d| < |e| {
        assert d == e[..|d|];
        BeginningIsIncomplete(m, d);
      } else {
        var d' := d[|e|..];
        assert d == e + d' && d' <= rest;
        SerializeOne(m, d');
        ParseFirst(e, m, d', done);
        BeginningParses(ms[1..], d', done + [m]);
        Shifted(done, ms);
      }
    }
  }

  /** As long as the device sends messages that fit into the buffer, it is never full at the start of
      an iteration, however far the last message has come and however the bytes were cut; nothing is
      refused, and the messages processed are the first of those sent. */
  lemma RoomForMessages(ms: seq<DeviceMsg>, chunks: seq<seq<Byte>>)
    requires forall i :: 0 <= i < |ms| ==> Sendable(ms[i]) && |Serialize(ms[i])| <= 262144
    requires Flatten(chunks) <= SerializeAll(ms)
    ensures var t := FeedAll(Start, chunks); !t.error && |t.pending| < 262144 && t.processed <= ms
  {
    ChunkIndependence(chunks);
    BeginningParses(ms, Flatten(chunks), []);
    assert [] + ms == ms;
  }
}
