/** The drop-oldest queue between the speaker's capture loop and its send goroutine
    (allrelay-server/internal/web/controller.go, runSpeakerCapture). Each select, receive and write
    is one step; the two goroutines interleave freely. */
module SpeakerQueue {
  import opened Wrappers

  const QUEUE_FRAMES := 5
  const FRAME_MICROS := 20000

  datatype Packet = Packet(pts: nat, data: seq<bv8>)

  /** Where the capture loop is in its enqueue. */
  datatype Producer =
    | Capturing
    | Offering(pkt: Packet)
    | MakingRoom(pkt: Packet)
    | Pushing(pkt: Packet)
    | RetryingOnce(pkt: Packet)
    | Closed

  datatype Sender = Waiting | Sending(pkt: Packet) | Draining | Finished

  datatype State = State(queue: seq<Packet>, frameCount: nat, droppedFrames: nat, sentFrames: nat, producer: Producer, sender: Sender)

  const Initial := State([], 0, 0, 0, Capturing, Waiting)

  datatype Action =
    | Captures(data: seq<bv8>)
    | Offers
    | MakesRoom
    | Pushes
    | Retries
    | Closes
    | Takes
    | Writes(ok: bool)
    | Drains
    | SenderExits

  /** A blocking send waits for room; a blocking receive waits for a frame or the close. */
  predicate Enabled(s: State, a: Action) {
    match a
    case Captures(_) => s.producer == Capturing
    case Offers => s.producer.Offering?
    case MakesRoom => s.producer.MakingRoom?
    case Pushes => s.producer.Pushing? && |s.queue| < QUEUE_FRAMES
    case Retries => s.producer.RetryingOnce?
    case Closes => s.producer == Capturing
    case Takes => s.sender == Waiting && s.queue != []
    case Writes(_) => s.sender.Sending?
    case Drains => s.sender == Draining && s.queue != []
    case SenderExits => (s.sender == Waiting || s.sender == Draining) && s.queue == [] && s.producer == Closed
  }

  function Next(s: State, a: Action): State
    requires Enabled(s, a)
  {
    match a
    case Captures(data) =>
      s.(frameCount := s.frameCount + 1, producer := Offering(Packet((s.frameCount + 1) * FRAME_MICROS, data)))
    case Offers =>
      if |s.queue| < QUEUE_FRAMES then s.(queue := s.queue + [s.producer.pkt], producer := Capturing)
      else s.(producer := MakingRoom(s.producer.pkt))
    case MakesRoom =>
      if s.queue != [] then s.(queue := s.queue[1..], droppedFrames := s.droppedFrames + 1, producer := Pushing(s.producer.pkt))
      else s.(producer := RetryingOnce(s.producer.pkt))
    case Pushes => s.(queue := s.queue + [s.producer.pkt], producer := Capturing)
    case Retries =>
      if |s.queue| < QUEUE_FRAMES then s.(queue := s.queue + [s.producer.pkt], producer := Capturing)
      else s.(droppedFrames := s.droppedFrames + 1, producer := Capturing)
    case Closes => s.(producer := Closed)
    case Takes => s.(queue := s.queue[1..], sender := Sending(s.queue[0]))
    case Writes(ok) => if ok then s.(sentFrames := s.sentFrames + 1, sender := Waiting) else s.(sender := Draining)
    case Drains => s.(queue := s.queue[1..])
    case SenderExits => s.(sender := Finished)
  }

  /** The goroutines' shared channel and counters. */
  class Pipeline {
    var queue: seq<Packet>
    var frameCount: nat
    var droppedFrames: nat
    var sentFrames: nat
    var producer: Producer
    var sender: Sender

    function View(): State
      reads this
    {
      State(queue, frameCount, droppedFrames, sentFrames, producer, sender)
    }

    constructor ()
      ensures View() == Initial
    {
      queue, frameCount, droppedFrames, sentFrames, producer, sender := [], 0, 0, 0, Capturing, Waiting;
    }

    /** select { case queue <- pkt: default: } */
    method TrySend(pkt: Packet) returns (ok: bool)
      modifies this`queue
      ensures ok == (|old(queue)| < QUEUE_FRAMES)
      ensures queue == if ok then old(queue) + [pkt] else old(queue)
    {
      ok := |queue| < QUEUE_FRAMES;
      if ok {
        queue := queue + [pkt];
      }
    }

    /** select { case pkt := <-queue: default: } */
    method TryReceive() returns (pkt: Option<Packet>)
      modifies this`queue
      ensures if old(queue) == [] then pkt == None && queue == [] else pkt == Some(old(queue)[0]) && queue == old(queue)[1..]
    {
      if queue == [] {
        return None;
      }
      pkt := Some(queue[0]);
      queue := queue[1..];
    }

    method Capture(data: seq<bv8>)
      requires Enabled(View(), Captures(data))
      modifies this`frameCount, this`producer
      ensures View() == Next(old(View()), Captures(data))
    {
      frameCount := frameCount + 1;
      producer := Offering(Packet(frameCount * FRAME_MICROS, data));
    }

    method Offer()
      requires Enabled(View(), Offers)
      modifies this
      ensures View() == Next(old(View()), Offers)
    {
      var sent := TrySend(producer.pkt);
      producer := if sent then Capturing else MakingRoom(producer.pkt);
    }

    method MakeRoom()
      requires Enabled(View(), MakesRoom)
      modifies this
      ensures View() == Next(old(View()), MakesRoom)
    {
      var oldest := TryReceive();
      if oldest.Some? {
        droppedFrames := droppedFrames + 1;
        producer := Pushing(producer.pkt);
      } else {
        producer := RetryingOnce(producer.pkt);
      }
    }

    method Push()
      requires Enabled(View(), Pushes)
      modifies this
      ensures View() == Next(old(View()), Pushes)
    {
      var _ := TrySend(producer.pkt);
      producer := Capturing;
    }

    method RetryOnce()
      requires Enabled(View(), Retries)
      modifies this
      ensures View() == Next(old(View()), Retries)
    {
      var sent := TrySend(producer.pkt);
      if !sent {
        droppedFrames := droppedFrames + 1;
      }
      producer := Capturing;
    }

    method Take()
      requires Enabled(View(), Takes)
      modifies this
      ensures View() == Next(old(View()), Takes)
    {
      var pkt := TryReceive();
      sender := Sending(pkt.value);
    }

    method Write(ok: bool)
      requires Enabled(View(), Writes(ok))
      modifies this`sentFrames, this`sender
      ensures View() == Next(old(View()), Writes(ok))
    {
      if ok {
        sentFrames := sentFrames + 1;
        sender := Waiting;
      } else {
        sender := Draining;
      }
    }

    method Drain()
      requires Enabled(View(), Drains)
      modifies this`queue
      ensures View() == Next(old(View()), Drains)
    {
      var _ := TryReceive();
    }
  }

  // ---------------------------------------------------------------------------------------
  // Runs and their history

  /** Every packet the capture loop produced, and the fate of those no longer queued, by number. */
  datatype History = History(s: State, produced: seq<Packet>, sent: seq<nat>, dropped: seq<nat>, discarded: seq<nat>)

  const Start := History(Initial, [], [], [], [])

  /** The number of a packet, from its timestamp. */
  function Number(p: Packet): nat {
    p.pts / FRAME_MICROS
  }

  function Step(h: History, a: Action): History
    requires Enabled(h.s, a)
  {
    var s' := Next(h.s, a);
    match a
    case Captures(data) => h.(s := s', produced := h.produced + [Packet((|h.produced| + 1) * 20000, data)])
    case MakesRoom => if h.s.queue != [] then h.(s := s', dropped := h.dropped + [Number(h.s.queue[0])]) else h.(s := s')
    case Retries => if |h.s.queue| < QUEUE_FRAMES then h.(s := s') else h.(s := s', dropped := h.dropped + [Number(h.s.producer.pkt)])
    case Writes(ok) => if ok then h.(s := s', sent := h.sent + [Number(h.s.sender.pkt)])
                       else h.(s := s', discarded := h.discarded + [Number(h.s.sender.pkt)])
    case Drains => h.(s := s', discarded := h.discarded + [Number(h.s.queue[0])])
    case _ => h.(s := s')
  }

  ghost predicate IsRun(h: History, acts: seq<Action>)
    decreases |acts|
  {
    acts == [] || (Enabled(h.s, acts[0]) && IsRun(Step(h, acts[0]), acts[1..]))
  }

  ghost function After(h: History, acts: seq<Action>): History
    requires IsRun(h, acts)
    decreases |acts|
  {
    if acts == [] then h else After(Step(h, acts[0]), acts[1..])
  }

  // ---- the invariant

  function Held(p: Producer): Option<Packet> {
    match p
    case Capturing => None
    case Closed => None
    case Offering(pkt) => Some(pkt)
    case MakingRoom(pkt) => Some(pkt)
    case Pushing(pkt) => Some(pkt)
    case RetryingOnce(pkt) => Some(pkt)
  }

  /** How many packets were enqueued. */
  function Enqueued(h: History): int {
    |h.produced| - if Held(h.s.producer).Some? then 1 else 0
  }

  /** How many packets have left the queue at its head. */
  function Gone(h: History): int {
    Enqueued(h) - |h.s.queue|
  }

  predicate Increasing(ks: seq<nat>) {
    forall i, j :: 0 <= i < j < |ks| ==> ks[i] < ks[j]
  }

  predicate Below(ks: seq<nat>, n: int) {
    forall i :: 0 <= i < |ks| ==> 1 <= ks[i] <= n
  }

  ghost predicate Inv(h: History) {
    QueueOk(h) && FatesOk(h)
  }

  ghost predicate QueueOk(h: History) {
    var s := h.s;
    && s.frameCount == |h.produced|
    && (forall i :: 0 <= i < |h.produced| ==> h.produced[i].pts == (i + 1) * FRAME_MICROS)
    && (Held(s.producer).Some? ==> h.produced != [] && Held(s.producer).value == h.produced[|h.produced| - 1])
    && |s.queue| <= QUEUE_FRAMES
    && (s.producer.Pushing? || s.producer.RetryingOnce? ==> |s.queue| < QUEUE_FRAMES)
    && 0 <= Gone(h)
    && s.queue == h.produced[Gone(h)..Enqueued(h)]
    && (s.sender == Finished ==> s.producer == Closed && s.queue == [])
  }

  /** The numbers 1 to `gone` are sent, dropped, discarded or in flight, each exactly once. */
  ghost predicate Fates(sent: seq<nat>, dropped: seq<nat>, discarded: seq<nat>, flight: Option<nat>, gone: int) {
    && Increasing(sent) && Increasing(dropped) && Increasing(discarded)
    && Below(sent, gone) && Below(dropped, gone) && Below(discarded, gone)
    && (forall i, j :: 0 <= i < |sent| && 0 <= j < |dropped| ==> sent[i] != dropped[j])
    && (forall i, j :: 0 <= i < |sent| && 0 <= j < |discarded| ==> sent[i] < discarded[j])
    && (forall i, j :: 0 <= i < |dropped| && 0 <= j < |discarded| ==> dropped[i] != discarded[j])
    && (flight.Some? ==> 1 <= flight.value <= gone && discarded == [] && flight.value !in dropped
                         && forall i :: 0 <= i < |sent| ==> sent[i] < flight.value)
    && |sent| + |dropped| + |discarded| + (if flight.Some? then 1 else 0) == gone
  }

  function Flight(s: Sender): Option<nat> {
    if s.Sending? then Some(Number(s.pkt)) else None
  }

  ghost predicate FatesOk(h: History) {
    var s := h.s;
    && |h.sent| == s.sentFrames && |h.dropped| == s.droppedFrames
    && Fates(h.sent, h.dropped, h.discarded, Flight(s.sender), Gone(h))
    && (s.sender.Sending? ==> 1 <= Number(s.sender.pkt) <= |h.produced| && s.sender.pkt == h.produced[Number(s.sender.pkt) - 1])
    && (h.discarded != [] ==> s.sender == Draining || s.sender == Finished)
  }

  // ---- how the fates move

  lemma DropOne(sent: seq<nat>, dropped: seq<nat>, discarded: seq<nat>, flight: Option<nat>, gone: nat)
    requires Fates(sent, dropped, discarded, flight, gone)
    ensures Fates(sent, dropped + [gone + 1], discarded, flight, gone + 1)
  {
  }

  lemma DiscardOne(sent: seq<nat>, dropped: seq<nat>, discarded: seq<nat>, gone: nat)
    requires Fates(sent, dropped, discarded, None, gone)
    ensures Fates(sent, dropped, discarded + [gone + 1], None, gone + 1)
  {
  }

  lemma TakeOne(sent: seq<nat>, dropped: seq<nat>, gone: nat)
    requires Fates(sent, dropped, [], None, gone)
    ensures Fates(sent, dropped, [], Some(gone + 1), gone + 1)
  {
  }

  lemma SendOne(sent: seq<nat>, dropped: seq<nat>, discarded: seq<nat>, k: nat, gone: nat)
    requires Fates(sent, dropped, discarded, Some(k), gone)
    ensures Fates(sent + [k], dropped, discarded, None, gone)
    ensures Fates(sent, dropped, discarded + [k], None, gone)
  {
  }

  lemma NumberOf(h: History, i: nat)
    requires i < |h.produced| && h.produced[i].pts == (i + 1) * FRAME_MICROS
    ensures Number(h.produced[i]) == i + 1
  {
  }

  lemma CaptureQueue(h: History, h': History, data: seq<bv8>)
    requires QueueOk(h) && Enabled(h.s, Captures(data)) && h' == Step(h, Captures(data))
    ensures QueueOk(h')
  {
  }

  /** The packet in the capture loop's hands is enqueued. */
  lemma EnqueueQueue(h: History, h': History)
    requires QueueOk(h) && Held(h.s.producer).Some? && |h.s.queue| < QUEUE_FRAMES && h'.produced == h.produced
    requires h'.s == h.s.(queue := h.s.queue + [Held(h.s.producer).value], producer := Capturing)
    ensures QueueOk(h')
  {
    assert Enqueued(h') == Enqueued(h) + 1 && Gone(h') == Gone(h);
    assert h.produced[Gone(h)..Enqueued(h) + 1] == h.produced[Gone(h)..Enqueued(h)] + [h.produced[Enqueued(h)]];
  }

  /** The head leaves the queue. */
  lemma DequeueQueue(h: History, h': History)
    requires QueueOk(h) && h.s.queue != [] && h'.produced == h.produced && h'.s.frameCount == h.s.frameCount
    requires h'.s.queue == h.s.queue[1..] && Held(h'.s.producer) == Held(h.s.producer) && h'.s.sender != Finished
    requires h'.s.producer.RetryingOnce? ==> h.s.producer.RetryingOnce?
    ensures QueueOk(h')
  {
    assert Enqueued(h') == Enqueued(h) && Gone(h') == Gone(h) + 1;
    assert h.produced[Gone(h)..Enqueued(h)][1..] == h.produced[Gone(h) + 1..Enqueued(h)];
  }

  lemma QueueStep(h: History, h': History, a: Action)
    requires QueueOk(h) && Enabled(h.s, a) && h' == Step(h, a)
    ensures QueueOk(h')
  {
    match a
    case Captures(data) => CaptureQueue(h, h', data);
    case Offers => if |h.s.queue| < QUEUE_FRAMES { EnqueueQueue(h, h'); }
    case Pushes => EnqueueQueue(h, h');
    case Retries => EnqueueQueue(h, h');
    case MakesRoom => if h.s.queue != [] { DequeueQueue(h, h'); }
    case Takes => DequeueQueue(h, h');
    case Drains => DequeueQueue(h, h');
    case _ =>
  }

  /** The packet at the head is the next one to leave. */
  lemma HeadNumber(h: History)
    requires QueueOk(h) && h.s.queue != []
    ensures Number(h.s.queue[0]) == Gone(h) + 1 && 0 <= Gone(h) < |h.produced| && h.s.queue[0] == h.produced[Gone(h)]
  {
    assert h.s.queue[0] == h.produced[Gone(h)];
    NumberOf(h, Gone(h));
  }

  /** It leaves the queue for `dropped`. */
  lemma DropFates(h: History, h': History)
    requires FatesOk(h) && h.s.queue != [] && 0 <= Gone(h) && Number(h.s.queue[0]) == Gone(h) + 1
    requires Enabled(h.s, MakesRoom) && h' == Step(h, MakesRoom)
    ensures FatesOk(h')
  {
    DropOne(h.sent, h.dropped, h.discarded, Flight(h.s.sender), Gone(h));
  }

  lemma DrainFates(h: History, h': History)
    requires FatesOk(h) && h.s.queue != [] && 0 <= Gone(h) && Number(h.s.queue[0]) == Gone(h) + 1
    requires Enabled(h.s, Drains) && h' == Step(h, Drains)
    ensures FatesOk(h')
  {
    DiscardOne(h.sent, h.dropped, h.discarded, Gone(h));
  }

  lemma TakeFates(h: History, h': History)
    requires FatesOk(h) && h.s.queue != [] && 0 <= Gone(h) < |h.produced|
    requires Number(h.s.queue[0]) == Gone(h) + 1 && h.s.queue[0] == h.produced[Gone(h)]
    requires Enabled(h.s, Takes) && h' == Step(h, Takes)
    ensures FatesOk(h')
  {
    TakeOne(h.sent, h.dropped, Gone(h));
  }

  lemma WriteFates(h: History, h': History)
    requires FatesOk(h) && 0 <= Gone(h) && h.s.sender.Sending? && h' == Step(h, Writes(true))
    ensures FatesOk(h')
  {
    assert h'.dropped == h.dropped && h'.discarded == h.discarded && Gone(h') == Gone(h);
    SendOne(h.sent, h.dropped, h.discarded, Number(h.s.sender.pkt), Gone(h));
  }

  lemma FailFates(h: History, h': History)
    requires FatesOk(h) && 0 <= Gone(h) && h.s.sender.Sending? && h' == Step(h, Writes(false))
    ensures FatesOk(h')
  {
    assert h'.dropped == h.dropped && h'.sent == h.sent && Gone(h') == Gone(h);
    SendOne(h.sent, h.dropped, h.discarded, Number(h.s.sender.pkt), Gone(h));
  }

  /** The other steps leave the head of the queue alone. */
  lemma OtherFates(h: History, h': History, a: Action)
    requires FatesOk(h) && Enabled(h.s, a) && h' == Step(h, a) && |h.s.queue| <= QUEUE_FRAMES
    requires h.s.producer.Pushing? || h.s.producer.RetryingOnce? ==> |h.s.queue| < QUEUE_FRAMES
    requires h.s.sender == Finished ==> h.s.queue == []
    requires !a.Drains? && !a.Takes? && !a.Writes? && (a.MakesRoom? ==> h.s.queue == [])
    ensures FatesOk(h')
  {
    assert Gone(h') == Gone(h) && Flight(h'.s.sender) == Flight(h.s.sender);
  }

  lemma StepKeeps(h: History, a: Action)
    requires Inv(h) && Enabled(h.s, a)
    ensures Inv(Step(h, a))
  {
    var h' := Step(h, a);
    QueueStep(h, h', a);
    if h.s.queue != [] { HeadNumber(h); }
    if a.MakesRoom? && h.s.queue != [] {
      DropFates(h, h');
    } else if a.Drains? {
      DrainFates(h, h');
    } else if a.Takes? {
      TakeFates(h, h');
    } else if a.Writes? {
      if a.ok { WriteFates(h, h'); } else { FailFates(h, h'); }
    } else {
      OtherFates(h, h', a);
    }
  }

  lemma {:induction false} RunKeeps(h: History, acts: seq<Action>)
    requires Inv(h) && IsRun(h, acts)
    ensures Inv(After(h, acts))
    decreases |acts|
  {
    if acts != [] {
      StepKeeps(h, acts[0]);
      RunKeeps(Step(h, acts[0]), acts[1..]);
    }
  }

  // ---- the theorems

  /** The queue is always the last few packets enqueued, at most five, in order; packet by packet the
      timestamps are 20 ms apart. */
  lemma QueueIsTheLatest(acts: seq<Action>)
    requires IsRun(Start, acts)
    ensures var h := After(Start, acts);
            && |h.s.queue| <= 5
            && 0 <= Gone(h)
            && h.s.queue == h.produced[Gone(h)..Enqueued(h)]
            && (forall i :: 0 <= i < |h.produced| ==> h.produced[i].pts == (i + 1) * 20000)
  {
    RunKeeps(Start, acts);
  }

  lemma HasRoom(h: History)
    requires QueueOk(h)
    ensures h.s.producer.Pushing? || h.s.producer.RetryingOnce? ==> |h.s.queue| < QUEUE_FRAMES
  {
  }

  lemma RoomSuffices(s: State)
    requires s.producer.Pushing? || s.producer.RetryingOnce? ==> |s.queue| < QUEUE_FRAMES
    ensures s.producer.Pushing? ==> Enabled(s, Pushes)
    ensures s.producer.RetryingOnce? ==> Next(s, Retries).droppedFrames == s.droppedFrames
                                         && Next(s, Retries).queue == s.queue + [s.producer.pkt]
  {
  }

  /** The blocking send never waits and the innermost drop is never taken. */
  lemma NeverBlocksNeverDropsNew(acts: seq<Action>)
    requires IsRun(Start, acts)
    ensures var s := After(Start, acts).s;
            (s.producer.Pushing? ==> Enabled(s, Pushes))
            && (s.producer.RetryingOnce? ==> Next(s, Retries).droppedFrames == s.droppedFrames
                                             && Next(s, Retries).queue == s.queue + [s.producer.pkt])
  {
    RunKeeps(Start, acts);
    HasRoom(After(Start, acts));
    RoomSuffices(After(Start, acts).s);
  }

  /** Only the oldest queued packet is ever dropped: it precedes all the packets that stay. */
  lemma OnlyTheOldestIsDropped(acts: seq<Action>, a: Action)
    requires IsRun(Start, acts) && Enabled(After(Start, acts).s, a)
    requires Step(After(Start, acts), a).dropped != After(Start, acts).dropped
    ensures var h, h' := After(Start, acts), Step(After(Start, acts), a);
            && 0 <= Gone(h) < |h.produced| && h.s.queue == [h.produced[Gone(h)]] + h'.s.queue
            && h'.dropped == h.dropped + [Gone(h) + 1]
  {
    RunKeeps(Start, acts);
    var h := After(Start, acts);
    if h.s.queue != [] { NumberOf(h, Gone(h)); }
  }

  /** Timestamps go out strictly increasing, and the packet in flight is newer still. */
  lemma SentIncreases(acts: seq<Action>)
    requires IsRun(Start, acts)
    ensures var h := After(Start, acts);
            && (forall i, j :: 0 <= i < j < |h.sent| ==> h.sent[i] * 20000 < h.sent[j] * 20000)
            && (h.s.sender.Sending? ==> forall i :: 0 <= i < |h.sent| ==> h.sent[i] * 20000 < h.s.sender.pkt.pts)
  {
    RunKeeps(Start, acts);
    var h := After(Start, acts);
    if h.s.sender.Sending? { NumberOf(h, Number(h.s.sender.pkt) - 1); }
  }

  /** Nothing is lost or counted twice: what was produced is sent, dropped, queued, in flight, in the
      capture loop's hands or discarded after a write error. */
  lemma ProducedIsAccountedFor(acts: seq<Action>)
    requires IsRun(Start, acts)
    ensures var h := After(Start, acts);
            && h.s.frameCount == h.s.sentFrames + h.s.droppedFrames + |h.s.queue| + |h.discarded|
                                 + (if h.s.sender.Sending? then 1 else 0) + (if Held(h.s.producer).Some? then 1 else 0)
            && (forall k :: k in h.sent ==> k !in h.dropped && k !in h.discarded)
            && (forall k :: k in h.dropped ==> k !in h.discarded)
            && (h.s.sender == Finished ==> h.s.frameCount == h.s.sentFrames + h.s.droppedFrames + |h.discarded|)
  {
    RunKeeps(Start, acts);
  }

  /** A frame offered to a queue that has room is enqueued and nothing is dropped; one offered to a
      full queue leads to the loss of the oldest, unless the sender has emptied it meanwhile. Every loss
      is counted. */
  lemma RoomDropsNothing(h: History, a: Action)
    requires Enabled(h.s, a) && (a.Offers? || a.MakesRoom? || a.Retries?)
    ensures var h' := Step(h, a);
            && (a.Offers? && |h.s.queue| < 5 ==> h'.s.queue == h.s.queue + [h.s.producer.pkt] && h'.s.producer == Capturing)
            && (a.Offers? && |h.s.queue| >= 5 ==> h'.s.queue == h.s.queue && h'.s.producer == MakingRoom(h.s.producer.pkt))
            && (a.Offers? ==> h'.dropped == h.dropped)
            && (a.MakesRoom? && h.s.queue != [] ==> h'.s.queue == h.s.queue[1..] && |h'.dropped| == |h.dropped| + 1
                                                    && h'.s.producer == Pushing(h.s.producer.pkt))
            && (a.MakesRoom? && h.s.queue == [] ==> h'.dropped == h.dropped && h'.s.producer == RetryingOnce(h.s.producer.pkt))
            && (a.Retries? && |h.s.queue| < 5 ==> h'.s.queue == h.s.queue + [h.s.producer.pkt] && h'.dropped == h.dropped)
            && (a.Retries? && |h.s.queue| >= 5 ==> h'.s.queue == h.s.queue && |h'.dropped| == |h.dropped| + 1)
            && h'.s.droppedFrames - h.s.droppedFrames == |h'.dropped| - |h.dropped|
  {
  }

  /** After a failed write nothing is sent any more, whatever the capture loop does: the sender only empties the queue until it is closed. */
  lemma {:induction false} NothingSentAfterError(h: History, acts: seq<Action>)
    requires IsRun(h, acts) && (h.s.sender == Draining || h.s.sender == Finished)
    ensures var h' := After(h, acts);
            && h'.sent == h.sent && h'.s.sentFrames == h.s.sentFrames
            && (h'.s.sender == Draining || h'.s.sender == Finished)
    decreases |acts|
  {
    if acts != [] {
      NothingSentAfterError(Step(h, acts[0]), acts[1..]);
    }
  }

  /** A packet counts as sent exactly when its write succeeds; a failed write turns to draining. */
  lemma WritesDecide(h: History, ok: bool)
    requires h.s.sender.Sending?
    ensures var h' := Step(h, Writes(ok));
            if ok then h'.sent == h.sent + [Number(h.s.sender.pkt)] && h'.s.sentFrames == h.s.sentFrames + 1 && h'.s.sender == Waiting
            else h'.sent == h.sent && h'.s.sentFrames == h.s.sentFrames && h'.s.sender == Draining
  {
  }

  // ---- the innermost branch can be reached

  lemma {:induction false} RunExtends(h: History, acts: seq<Action>, a: Action)
    requires IsRun(h, acts) && Enabled(After(h, acts).s, a)
    ensures IsRun(h, acts + [a]) && After(h, acts + [a]) == Step(After(h, acts), a)
    decreases |acts|
  {
    if acts == [] {
      assert acts + [a] == [a];
      assert IsRun(Step(h, a), []);
    } else {
      RunExtends(Step(h, acts[0]), acts[1..], a);
      assert (acts + [a])[1..] == acts[1..] + [a];
    }
  }

  lemma {:induction false} Fills(n: nat) returns (acts: seq<Action>)
    requires n <= QUEUE_FRAMES
    ensures IsRun(Start, acts)
    ensures var s := After(Start, acts).s; |s.queue| == n && s.producer == Capturing && s.sender == Waiting
  {
    if n == 0 {
      acts := [];
    } else {
      acts := Fills(n - 1);
      RunExtends(Start, acts, Captures([]));
      acts := acts + [Captures([])];
      RunExtends(Start, acts, Offers);
      acts := acts + [Offers];
    }
  }

  /** The sender takes and writes every frame while the capture loop is about to make room. */
  lemma {:induction false} Empties(before: seq<Action>, n: nat) returns (acts: seq<Action>)
    requires IsRun(Start, before)
    requires var s := After(Start, before).s; |s.queue| == n && s.producer.MakingRoom? && s.sender == Waiting
    ensures IsRun(Start, acts)
    ensures var s := After(Start, acts).s; s.queue == [] && s.producer.MakingRoom?
    decreases n
  {
    if n == 0 {
      acts := before;
    } else {
      RunExtends(Start, before, Takes);
      acts := before + [Takes];
      RunExtends(Start, acts, Writes(true));
      acts := Empties(acts + [Writes(true)], n - 1);
    }
  }

  /** A full queue that the sender empties between two selects of the capture loop leads it to try
      once more, and then it succeeds. */
  lemma RetryIsReachable() returns (acts: seq<Action>)
    ensures IsRun(Start, acts)
    ensures var s := After(Start, acts).s; s.producer.RetryingOnce? && Next(s, Retries).queue == [s.producer.pkt]
  {
    acts := Fills(QUEUE_FRAMES);
    RunExtends(Start, acts, Captures([]));
    acts := acts + [Captures([])];
    RunExtends(Start, acts, Offers);
    acts := Empties(acts + [Offers], QUEUE_FRAMES);
    RunExtends(Start, acts, MakesRoom);
    acts := acts + [MakesRoom];
  }
}
