/** The control-message queue (scrcpy/app/src/controller.c) and its condition variable: any number of
    producers, one consumer thread. */
module ControlQueue {
  import opened Wrappers

  const QUEUE_LIMIT := 60

  /** A message; the other types are told apart by `kind`. */
  datatype ControlMsg =
    | UhidCreate(id: nat, payload: seq<bv8>)
    | UhidDestroy(id: nat)
    | ResizeDisplay(width: nat, height: nat)
    | Other(kind: nat, payload: seq<bv8>)

  /** sc_control_msg_is_droppable. */
  predicate IsDroppable(m: ControlMsg) {
    !m.UhidCreate? && !m.UhidDestroy?
  }

  datatype Size = Size(width: nat, height: nat)

  /** The consumer thread: about to take the mutex, waiting on the condition (signalled or not),
      outside the mutex with a message, or gone. */
  datatype Consumer =
    | Looking
    | Asleep(signalled: bool)
    | Processing(msg: ControlMsg)
    | Ended(error: bool)

  datatype State = State(queue: seq<ControlMsg>, resize: Option<Size>, stopped: bool, consumer: Consumer)

  const Initial := State([], None, false, Looking)

  /** sc_cond_signal. */
  function Signal(c: Consumer): Consumer {
    if c.Asleep? then Asleep(true) else c
  }

  /** sc_controller_push_msg. */
  function Push(s: State, m: ControlMsg): (r: (State, bool))
    ensures r.1 <==> |s.queue| < 60 || m.UhidCreate? || m.UhidDestroy?
  {
    if |s.queue| < QUEUE_LIMIT then
      (s.(queue := s.queue + [m], consumer := if s.queue == [] then Signal(s.consumer) else s.consumer), true)
    else if !IsDroppable(m) then
      (s.(queue := s.queue + [m]), true)
    else
      (s, false)
  }

  /** sc_controller_resize_display. */
  function Resize(s: State, size: Size): State {
    s.(resize := Some(size), consumer := if s.resize.None? then Signal(s.consumer) else s.consumer)
  }

  /** sc_controller_stop. */
  function Stop(s: State): State {
    s.(stopped := true, consumer := Signal(s.consumer))
  }

  /** run_controller under the mutex: wait, stop, or take the next message. */
  function Look(s: State): State {
    if s.stopped then s.(consumer := Ended(false))
    else if s.resize.Some? then
      s.(resize := None, consumer := Processing(ResizeDisplay(s.resize.value.width, s.resize.value.height)))
    else if s.queue != [] then s.(queue := s.queue[1..], consumer := Processing(s.queue[0]))
    else s.(consumer := Asleep(false))
  }

  /** What process_msg made of a message: it could not be serialized, or the socket was closed. */
  datatype SendResult = SentAll | NotSerialized | EndOfStream

  function Process(s: State, r: SendResult): State {
    s.(consumer := match r case SentAll => Looking case NotSerialized => Ended(true) case EndOfStream => Ended(false))
  }

  // ---- the object

  class Controller {
    var queue: seq<ControlMsg>
    var width: nat
    var height: nat
    var stopped: bool
    var consumer: Consumer

    /** A resize is pending when its width is not zero. */
    function View(): State
      reads this
    {
      State(queue, if width != 0 then Some(Size(width, height)) else None, stopped, consumer)
    }

    constructor ()
      ensures View() == Initial && width == 0 && height == 0
    {
      queue, width, height, stopped, consumer := [], 0, 0, false, Looking;
    }

    method CondSignal()
      modifies this`consumer
      ensures consumer == Signal(old(consumer))
    {
      if consumer.Asleep? {
        consumer := Asleep(true);
      }
    }

    method PushMsg(m: ControlMsg) returns (pushed: bool)
      requires !m.ResizeDisplay?
      modifies this
      ensures (View(), pushed) == Push(old(View()), m)
    {
      var size := |queue|;
      if size < QUEUE_LIMIT {
        var wasEmpty := |queue| == 0;
        queue := queue + [m];
        if wasEmpty {
          CondSignal();
        }
        return true;
      }
      if !IsDroppable(m) {
        queue := queue + [m];
        return true;
      }
      pushed := false;
    }

    method RequestResize(w: nat, h: nat)
      requires w != 0 && h != 0
      modifies this
      ensures View() == Resize(old(View()), Size(w, h))
    {
      var wasSet := width != 0;
      width, height := w, h;
      if !wasSet {
        CondSignal();
      }
    }

    method RequestStop()
      modifies this
      ensures View() == Stop(old(View()))
    {
      stopped := true;
      CondSignal();
    }

    /** From the lock to the unlock, or to the wait. */
    method TakeNext()
      requires consumer == Looking
      modifies this
      ensures View() == Look(old(View()))
    {
      if !stopped && width == 0 && |queue| == 0 {
        consumer := Asleep(false);
        return;
      }
      if stopped {
        consumer := Ended(false);
        return;
      }
      if width != 0 {
        consumer := Processing(ResizeDisplay(width, height));
        width, height := 0, 0;
      } else {
        consumer := Processing(queue[0]);
        queue := queue[1..];
      }
    }

    /** What follows process_msg; `ended` when the loop is left. */
    method AfterMsg(r: SendResult) returns (ended: bool)
      requires consumer.Processing?
      modifies this`consumer
      ensures View() == Process(old(View()), r) && ended == consumer.Ended?
    {
      if r == SentAll {
        consumer := Looking;
        return false;
      }
      consumer := Ended(r != EndOfStream);
      ended := true;
    }
  }

  // ---------------------------------------------------------------------------------------
  // Runs

  datatype Action =
    | Pushes(m: ControlMsg)
    | Resizes(size: Size)
    | Stops
    | Looks
    | Wakes
    | Sends(r: SendResult)

  /** A wait may also end by itself. */
  predicate Enabled(s: State, a: Action) {
    match a
    case Pushes(m) => !m.ResizeDisplay?
    case Resizes(size) => size.width != 0 && size.height != 0
    case Stops => true
    case Looks => s.consumer == Looking
    case Wakes => s.consumer.Asleep?
    case Sends(_) => s.consumer.Processing?
  }

  /** History: messages accepted and refused, messages sent, resize requests and the numbers of
      those that were taken. */
  datatype History = History(
    s: State,
    accepted: seq<ControlMsg>,
    refused: seq<ControlMsg>,
    sent: seq<ControlMsg>,
    requests: seq<Size>,
    taken: seq<nat>)

  const Start := History(Initial, [], [], [], [], [])

  function Step(h: History, a: Action): History
    requires Enabled(h.s, a)
  {
    match a
    case Pushes(m) =>
      var (s', pushed) := Push(h.s, m);
      if pushed then h.(s := s', accepted := h.accepted + [m]) else h.(s := s', refused := h.refused + [m])
    case Resizes(size) => h.(s := Resize(h.s, size), requests := h.requests + [size])
    case Stops => h.(s := Stop(h.s))
    case Looks =>
      h.(s := Look(h.s), taken := if !h.s.stopped && h.s.resize.Some? && |h.requests| > 0 then h.taken + [|h.requests| - 1] else h.taken)
    case Wakes => h.(s := h.s.(consumer := Looking))
    case Sends(r) => h.(s := Process(h.s, r), sent := if r == SentAll then h.sent + [h.s.consumer.msg] else h.sent)
  }

  ghost predicate IsRun(h: History, acts: seq<Action>)
    decreases |acts|
  {
    acts == [] || (Enabled(h.s, acts[0]) && IsRun(Step(h, acts[0]), acts[1..]))
  }

  ghost function After(h: History, acts: seq<Action>): History
    requires IsRun(h, acts)
    decreases |acts|
  {
    if acts == [] then h else After(Step(h, acts[0]), acts[1..])
  }

  // ---- the invariant

  function Queued(ms: seq<ControlMsg>): seq<ControlMsg> {
    if ms == [] then []
    else Queued(ms[..|ms| - 1]) + if ms[|ms| - 1].ResizeDisplay? then [] else [ms[|ms| - 1]]
  }

  /** The resize requests among the messages sent. */
  function Resized(ms: seq<ControlMsg>): seq<Size> {
    if ms == [] then []
    else
      var m := ms[|ms| - 1];
      Resized(ms[..|ms| - 1]) + if m.ResizeDisplay? then [Size(m.width, m.height)] else []
  }

  /** The queued message in the consumer's hands. */
  function InHand(c: Consumer): seq<ControlMsg> {
    if c.Processing? && !c.msg.ResizeDisplay? then [c.msg] else []
  }

  function ResizeInHand(c: Consumer): seq<Size> {
    if c.Processing? && c.msg.ResizeDisplay? then [Size(c.msg.width, c.msg.height)] else []
  }

  /** The consumer does not sleep through anything. */
  predicate AwakeOk(s: State) {
    s.consumer == Asleep(false) ==> s.queue == [] && s.resize == None && !s.stopped
  }

  predicate OrderOk(h: History) {
    && (forall i :: 0 <= i < |h.s.queue| ==> !h.s.queue[i].ResizeDisplay?)
    && (!h.s.consumer.Ended? ==> h.accepted == Queued(h.sent) + InHand(h.s.consumer) + h.s.queue)
    && Queued(h.sent) <= h.accepted
    && (forall i :: 0 <= i < |h.refused| ==> !h.refused[i].UhidCreate? && !h.refused[i].UhidDestroy?)
  }

  /** The sizes of the requests with these numbers. */
  function Sizes(requests: seq<Size>, taken: seq<nat>): seq<Size>
    requires forall i :: 0 <= i < |taken| ==> taken[i] < |requests|
  {
    seq(|taken|, i requires 0 <= i < |taken| => requests[taken[i]])
  }

  predicate TakenOk(h: History) {
    && (forall i :: 0 <= i < |h.taken| ==> h.taken[i] < |h.requests|)
    && (forall i, j :: 0 <= i < j < |h.taken| ==> h.taken[i] < h.taken[j])
    && (h.s.resize.Some? ==> h.requests != [] && h.s.resize.value == h.requests[|h.requests| - 1]
                             && (h.taken != [] ==> h.taken[|h.taken| - 1] < |h.requests| - 1))
    && (h.s.resize.None? && h.requests != [] ==> h.taken != [] && h.taken[|h.taken| - 1] == |h.requests| - 1)
  }

  /** The requests taken are those sent and perhaps one in the consumer's hands. */
  predicate SizesOk(sizes: seq<Size>, sent: seq<ControlMsg>, c: Consumer) {
    && Resized(sent) <= sizes
    && (!c.Ended? ==> sizes == Resized(sent) + ResizeInHand(c))
  }

  predicate ResizeOk(h: History) {
    TakenOk(h) && SizesOk(Sizes(h.requests, h.taken), h.sent, h.s.consumer)
  }

  predicate Inv(h: History) {
    AwakeOk(h.s) && OrderOk(h) && ResizeOk(h)
  }

  lemma AwakeStep(h: History, a: Action)
    requires AwakeOk(h.s) && Enabled(h.s, a)
    ensures AwakeOk(Step(h, a).s)
  {
  }

  lemma SentOne(ms: seq<ControlMsg>, m: ControlMsg)
    ensures Queued(ms + [m]) == if m.ResizeDisplay? then Queued(ms) else Queued(ms) + [m]
    ensures Resized(ms + [m]) == if m.ResizeDisplay? then Resized(ms) + [Size(m.width, m.height)] else Resized(ms)
  {
    assert (ms + [m])[..|ms|] == ms;
    assert Queued(ms) + [] == Queued(ms) && Resized(ms) + [] == Resized(ms);
  }

  lemma OrderLook(h: History, h': History)
    requires OrderOk(h) && h.s.consumer == Looking && h' == Step(h, Looks)
    ensures OrderOk(h')
  {
    if h.s.queue != [] {
      assert h.s.queue == [h.s.queue[0]] + h.s.queue[1..];
      assert Queued(h.sent) + [] + h.s.queue == Queued(h.sent) + [h.s.queue[0]] + h.s.queue[1..];
    }
  }

  lemma Regrouped(accepted: seq<ControlMsg>, q: seq<ControlMsg>, c: seq<ControlMsg>, queue: seq<ControlMsg>)
    requires accepted == q + c + queue
    ensures accepted == (q + c) + [] + queue && q + c <= accepted
  {
  }

  lemma SentHand(ms: seq<ControlMsg>, m: ControlMsg)
    ensures Queued(ms + [m]) == Queued(ms) + InHand(Processing(m))
  {
    SentOne(ms, m);
    assert Queued(ms) + [] == Queued(ms);
  }

  lemma OrderSent(h: History, h': History)
    requires OrderOk(h) && h.s.consumer.Processing? && h' == h.(s := h.s.(consumer := Looking), sent := h.sent + [h.s.consumer.msg])
    ensures OrderOk(h')
  {
    SentHand(h.sent, h.s.consumer.msg);
    Regrouped(h.accepted, Queued(h.sent), InHand(h.s.consumer), h.s.queue);
  }

  lemma OrderSend(h: History, h': History, r: SendResult)
    requires OrderOk(h) && h.s.consumer.Processing? && h' == Step(h, Sends(r))
    ensures OrderOk(h')
  {
    if r == SentAll { OrderSent(h, h'); }
  }

  lemma OrderPush(h: History, h': History, m: ControlMsg)
    requires OrderOk(h) && !m.ResizeDisplay? && h' == Step(h, Pushes(m))
    ensures OrderOk(h')
  {
    var q, c := Queued(h.sent), InHand(h.s.consumer);
    assert q + c + (h.s.queue + [m]) == (q + c + h.s.queue) + [m];
    assert q <= h.accepted ==> q <= h.accepted + [m];
  }

  lemma OrderStep(h: History, a: Action)
    requires OrderOk(h) && Enabled(h.s, a)
    ensures OrderOk(Step(h, a))
  {
    match a
    case Pushes(m) => OrderPush(h, Step(h, a), m);
    case Sends(r) => OrderSend(h, Step(h, a), r);
    case Looks => OrderLook(h, Step(h, a));
    case _ =>
  }

  lemma SizesGrow(requests: seq<Size>, more: seq<Size>, taken: seq<nat>)
    requires forall i :: 0 <= i < |taken| ==> taken[i] < |requests|
    ensures Sizes(requests + more, taken) == Sizes(requests, taken)
  {
  }

  lemma TakeLast(requests: seq<Size>, taken: seq<nat>)
    requires requests != [] && forall i :: 0 <= i < |taken| ==> taken[i] < |requests|
    ensures Sizes(requests, taken + [|requests| - 1]) == Sizes(requests, taken) + [requests[|requests| - 1]]
  {
  }

  lemma RequestStep(h: History, h': History, size: Size)
    requires ResizeOk(h) && size.width != 0 && size.height != 0 && h' == Step(h, Resizes(size))
    ensures ResizeOk(h')
  {
    SizesGrow(h.requests, [size], h.taken);
  }

  lemma LookSizes(sizes: seq<Size>, sent: seq<ControlMsg>, c: Consumer)
    requires SizesOk(sizes, sent, Looking) && (c.Processing? || c.Ended? || c.Asleep?)
    ensures SizesOk(sizes + ResizeInHand(c), sent, c)
  {
    assert sizes == Resized(sent);
  }

  lemma TakenByLook(h: History, h': History)
    requires TakenOk(h) && h.s.consumer == Looking && !h.s.stopped && h.s.resize.Some? && h' == Step(h, Looks)
    ensures TakenOk(h') && h'.taken == h.taken + [|h.requests| - 1] && h'.requests == h.requests && h'.sent == h.sent
    ensures ResizeInHand(h'.s.consumer) == [h.s.resize.value] && h'.s.consumer.Processing?
  {
    TakenGrows(|h.requests|, h.taken, h'.taken);
  }

  /** The consumer takes the pending resize. */
  lemma TakeResize(h: History, h': History)
    requires ResizeOk(h) && h.s.consumer == Looking && !h.s.stopped && h.s.resize.Some? && h' == Step(h, Looks)
    ensures ResizeOk(h')
  {
    TakenByLook(h, h');
    TakeLast(h.requests, h.taken);
    LookSizes(Sizes(h.requests, h.taken), h.sent, h'.s.consumer);
  }

  lemma TakenGrows(n: nat, taken: seq<nat>, taken': seq<nat>)
    requires n > 0 && taken' == taken + [n - 1] && (forall i :: 0 <= i < |taken| ==> taken[i] < n)
    requires forall i, j :: 0 <= i < j < |taken| ==> taken[i] < taken[j]
    requires taken != [] ==> taken[|taken| - 1] < n - 1
    ensures forall i :: 0 <= i < |taken'| ==> taken'[i] < n
    ensures forall i, j :: 0 <= i < j < |taken'| ==> taken'[i] < taken'[j]
  {
  }

  lemma SameTaken(h: History, h': History)
    requires TakenOk(h) && h'.requests == h.requests && h'.taken == h.taken && h'.s.resize == h.s.resize
    ensures TakenOk(h')
  {
  }

  lemma TakeOther(h: History, h': History)
    requires ResizeOk(h) && h.s.consumer == Looking && (h.s.stopped || h.s.resize.None?) && h' == Step(h, Looks)
    requires forall i :: 0 <= i < |h.s.queue| ==> !h.s.queue[i].ResizeDisplay?
    ensures ResizeOk(h')
  {
    var sizes := Sizes(h.requests, h.taken);
    SameTaken(h, h');
    assert ResizeInHand(h'.s.consumer) == [] && h'.sent == h.sent;
    LookSizes(sizes, h.sent, h'.s.consumer);
    assert sizes + [] == sizes;
  }

  lemma LookStep(h: History, h': History)
    requires ResizeOk(h) && h.s.consumer == Looking && h' == Step(h, Looks) && (forall i :: 0 <= i < |h.s.queue| ==> !h.s.queue[i].ResizeDisplay?)
    ensures ResizeOk(h')
  {
    if !h.s.stopped && h.s.resize.Some? {
      TakeResize(h, h');
    } else {
      TakeOther(h, h');
    }
  }

  lemma SendSizes(sizes: seq<Size>, sent: seq<ControlMsg>, m: ControlMsg)
    requires SizesOk(sizes, sent, Processing(m))
    ensures SizesOk(sizes, sent + [m], Looking) && SizesOk(sizes, sent, Ended(true)) && SizesOk(sizes, sent, Ended(false))
  {
    SentOne(sent, m);
    assert Resized(sent) + [] == Resized(sent);
    assert sizes + [] == sizes;
  }

  lemma SendStep(h: History, h': History, r: SendResult)
    requires ResizeOk(h) && h.s.consumer.Processing? && h' == Step(h, Sends(r))
    ensures ResizeOk(h')
  {
    SendSizes(Sizes(h.requests, h.taken), h.sent, h.s.consumer.msg);
  }

  lemma ResizeStep(h: History, a: Action)
    requires ResizeOk(h) && Enabled(h.s, a) && (forall i :: 0 <= i < |h.s.queue| ==> !h.s.queue[i].ResizeDisplay?)
    ensures ResizeOk(Step(h, a))
  {
    match a
    case Resizes(size) => RequestStep(h, Step(h, a), size);
    case Looks => LookStep(h, Step(h, a));
    case Sends(r) => SendStep(h, Step(h, a), r);
    case _ => QuietResize(h, Step(h, a));
  }

  /** No resize is requested, taken or sent. */
  lemma QuietResize(h: History, h': History)
    requires ResizeOk(h) && h'.requests == h.requests && h'.taken == h.taken && h'.sent == h.sent && h'.s.resize == h.s.resize
    requires ResizeInHand(h'.s.consumer) == ResizeInHand(h.s.consumer) && h'.s.consumer.Ended? == h.s.consumer.Ended?
    ensures ResizeOk(h')
  {
  }

  lemma {:induction false} RunKeeps(h: History, acts: seq<Action>)
    requires Inv(h) && IsRun(h, acts)
    ensures Inv(After(h, acts))
    decreases |acts|
  {
    if acts != [] {
      AwakeStep(h, acts[0]);
      OrderStep(h, acts[0]);
      ResizeStep(h, acts[0]);
      RunKeeps(Step(h, acts[0]), acts[1..]);
    }
  }

  lemma StartInv()
    ensures Inv(Start)
  {
  }

  // ---- the theorems

  /** No lost wakeup: with a message, a resize or the stop pending, a sleeping consumer has been
      signalled - although pushing on a full queue signals nobody. */
  lemma NoLostWakeup(acts: seq<Action>)
    requires IsRun(Start, acts)
    ensures var s := After(Start, acts).s;
            s.consumer.Asleep? && (s.queue != [] || s.resize.Some? || s.stopped) ==> s.consumer.signalled
  {
    StartInv();
    RunKeeps(Start, acts);
  }

  /** The queued messages sent are those accepted, in order, none missing and none twice; while the
      consumer lives, the rest is in its hands or in the queue. */
  lemma SentInOrder(acts: seq<Action>)
    requires IsRun(Start, acts)
    ensures var h := After(Start, acts);
            && Queued(h.sent) <= h.accepted
            && (!h.s.consumer.Ended? ==> h.accepted == Queued(h.sent) + InHand(h.s.consumer) + h.s.queue)
  {
    StartInv();
    RunKeeps(Start, acts);
  }

  /** UHID_CREATE and UHID_DESTROY are never refused, by any queue; any other message is refused
      exactly while at least 60 are queued. */
  lemma OnlyDroppablesRefused(acts: seq<Action>, m: ControlMsg)
    requires IsRun(Start, acts) && !m.ResizeDisplay?
    ensures var h, h' := After(Start, acts), Step(After(Start, acts), Pushes(m));
            && (forall i :: 0 <= i < |h.refused| ==> !h.refused[i].UhidCreate? && !h.refused[i].UhidDestroy?)
            && (m.UhidCreate? || m.UhidDestroy? ==> h'.accepted == h.accepted + [m] && h'.refused == h.refused)
            && (!m.UhidCreate? && !m.UhidDestroy? ==>
                  if |h.s.queue| >= 60 then h'.accepted == h.accepted && h'.refused == h.refused + [m]
                  else h'.accepted == h.accepted + [m] && h'.refused == h.refused)
  {
    StartInv();
    RunKeeps(Start, acts);
  }

  lemma ResizesOf(acts: seq<Action>)
    requires IsRun(Start, acts)
    ensures ResizeOk(After(Start, acts))
  {
    StartInv();
    RunKeeps(Start, acts);
  }

  /** A pending resize is the latest request; once none is pending, the latest request was taken;
      and the resizes sent are requests in the order they were made. */
  lemma LatestResizeWins(acts: seq<Action>)
    requires IsRun(Start, acts)
    ensures var h := After(Start, acts);
            && (h.s.resize.Some? ==> h.requests != [] && h.s.resize.value == h.requests[|h.requests| - 1])
            && (h.s.resize.None? && h.requests != [] ==> h.taken != [] && h.taken[|h.taken| - 1] == |h.requests| - 1)
            && (forall i :: 0 <= i < |h.taken| ==> h.taken[i] < |h.requests|)
            && (forall i, j :: 0 <= i < j < |h.taken| ==> h.taken[i] < h.taken[j])
            && Resized(h.sent) <= Sizes(h.requests, h.taken)
  {
    ResizesOf(acts);
  }

  /** A pending resize goes before all queued messages. */
  lemma ResizeGoesFirst(h: History)
    requires OrderOk(h) && Enabled(h.s, Looks) && !h.s.stopped
    ensures var c := Step(h, Looks).s.consumer;
            && (h.s.resize.Some? <==> c.Processing? && c.msg.ResizeDisplay?)
            && (h.s.resize.None? && h.s.queue != [] ==> c == Processing(h.s.queue[0]))
  {
  }

  /** The thread ends in an error exactly when a message could not be serialized, and quietly exactly
      on a stop or a closed socket. */
  lemma EndsExactly(h: History, a: Action)
    requires Enabled(h.s, a) && !h.s.consumer.Ended?
    ensures Step(h, a).s.consumer == Ended(true) <==> a == Sends(NotSerialized)
    ensures Step(h, a).s.consumer == Ended(false) <==> a == Sends(EndOfStream) || (a == Looks && h.s.stopped)
  {
  }

  /** After a stop, whatever is pushed, at most the message in the consumer's hands is still sent. */
  lemma {:induction false} StopsAfterThisMessage(h: History, acts: seq<Action>)
    requires IsRun(Step(h, Stops), acts)
    ensures var h' := After(Step(h, Stops), acts);
            && h'.s.stopped
            && (h'.sent == h.sent || (h.s.consumer.Processing? && h'.sent == h.sent + [h.s.consumer.msg]))
  {
    var h1 := Step(h, Stops);
    StoppedRun(h1, acts, h.sent, if h1.s.consumer.Processing? then Some(h1.s.consumer.msg) else None);
  }

  lemma {:induction false} StoppedRun(h: History, acts: seq<Action>, sent: seq<ControlMsg>, hand: Option<ControlMsg>)
    requires IsRun(h, acts) && h.s.stopped
    requires (h.sent == sent && (h.s.consumer.Processing? ==> hand == Some(h.s.consumer.msg)))
             || (hand.Some? && h.sent == sent + [hand.value] && !h.s.consumer.Processing?)
    ensures After(h, acts).s.stopped
    ensures After(h, acts).sent == sent || (hand.Some? && After(h, acts).sent == sent + [hand.value])
    decreases |acts|
  {
    if acts != [] {
      StoppedRun(Step(h, acts[0]), acts[1..], sent, hand);
    }
  }
}
