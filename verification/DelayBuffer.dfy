/** The delay buffer (scrcpy/app/src/delay_buffer.c): a pushing thread, a buffering thread, and the
    clock they share under the mutex. */
module DelayBuffer {
  import opened Wrappers
  import opened Clock

  /** What is pushed: a frame with its timestamp, or a session. */
  datatype Item = Frame(pts: int, image: nat) | Session(id: nat)

  /** The buffering thread: at the queue, waiting for a deadline, outside the mutex with an item, or
      gone. */
  datatype Consumer =
    | AtQueue
    | Waiting(item: Item, popped: int, deadline: int)
    | Pushing(item: Item)
    | Ended

  datatype State = State(clock: ClockState, queue: seq<Item>, stopped: bool, consumer: Consumer, bypass: Option<Item>)

  const Initial := State(Fresh, [], false, AtQueue, None)

  function Min(a: int, b: int): int {
    if a < b then a else b
  }

  /** The deadline of a frame popped at `popped`, as the clock stands. */
  function Deadline(clock: ClockState, pts: int, popped: int, delay: int): int {
    Min(pts + clock.offset + delay, popped + delay)
  }

  /** sc_delay_buffer_frame_sink_push up to the unlock. */
  function PushFrame(s: State, pts: int, image: nat, now: int, asap: bool): (State, bool) {
    if s.stopped then (s, false)
    else
      var clock := Update(s.clock, now, pts);
      if asap && clock.range == 1 then (s.(clock := clock, bypass := Some(Frame(pts, image))), true)
      else (s.(clock := clock, queue := s.queue + [Frame(pts, image)]), true)
  }

  function PushSession(s: State, id: nat): (State, bool) {
    if s.stopped then (s, false) else (s.(queue := s.queue + [Session(id)]), true)
  }

  /** The buffering thread takes the next item, or finds that it must stop. */
  function Pop(s: State, now: int, delay: int): State {
    if s.stopped then s.(consumer := Ended, queue := [])
    else if s.queue == [] then s
    else
      match s.queue[0]
      case Frame(pts, _) => s.(queue := s.queue[1..], consumer := Waiting(s.queue[0], now, Deadline(s.clock, pts, now, delay)))
      case Session(_) => s.(queue := s.queue[1..], consumer := Pushing(s.queue[0]))
  }

  /** The timed wait returned. */
  function Wake(s: State, timedOut: bool, delay: int): State
    requires s.consumer.Waiting? && s.consumer.item.Frame?
  {
    var c := s.consumer;
    if s.stopped then s.(consumer := Ended, queue := [])
    else if timedOut then s.(consumer := Pushing(c.item))
    else s.(consumer := Waiting(c.item, c.popped, Deadline(s.clock, c.item.pts, c.popped, delay)))
  }

  /** The sinks took the item, or refused it. */
  function Pushed(s: State, ok: bool): State {
    if ok then s.(consumer := AtQueue) else s.(consumer := Ended, stopped := true, queue := [])
  }

  // ---- the object

  class Buffer {
    const delay: int
    const firstFrameAsap: bool
    var clock: ClockState
    var queue: seq<Item>
    var stopped: bool
    var consumer: Consumer
    var bypass: Option<Item>

    function View(): State
      reads this
    {
      State(clock, queue, stopped, consumer, bypass)
    }

    constructor (delay: int, asap: bool)
      requires delay > 0
      ensures this.delay == delay && firstFrameAsap == asap && View() == Initial
    {
      this.delay, firstFrameAsap := delay, asap;
      clock, queue, stopped, consumer, bypass := Fresh, [], false, AtQueue, None;
    }

    method SinkPush(pts: int, image: nat, now: int) returns (ok: bool)
      modifies this`clock, this`queue, this`bypass
      ensures (View(), ok) == PushFrame(old(View()), pts, image, now, firstFrameAsap)
    {
      if stopped {
        return false;
      }
      clock := Update(clock, now, pts);
      if firstFrameAsap && clock.range == 1 {
        bypass := Some(Frame(pts, image));
        return true;
      }
      queue := queue + [Frame(pts, image)];
      ok := true;
    }

    method SinkPushSession(id: nat) returns (ok: bool)
      modifies this`queue
      ensures (View(), ok) == PushSession(old(View()), id)
    {
      if stopped {
        return false;
      }
      queue := queue + [Session(id)];
      ok := true;
    }

    method SinkClose()
      modifies this`stopped
      ensures View() == old(View()).(stopped := true)
    {
      stopped := true;
    }

    method Flush()
      modifies this`queue
      ensures queue == []
    {
      while queue != [] {
        queue := queue[1..];
      }
    }

    method TakeNext(now: int)
      requires consumer == AtQueue && (stopped || queue != [])
      modifies this
      ensures View() == Pop(old(View()), now, delay)
    {
      if stopped {
        Flush();
        consumer := Ended;
        return;
      }
      var item := queue[0];
      queue := queue[1..];
      if item.Frame? {
        var deadline := item.pts + clock.offset + delay;
        if deadline > now + delay {
          deadline := now + delay;
        }
        consumer := Waiting(item, now, deadline);
      } else {
        consumer := Pushing(item);
      }
    }

    method WaitReturned(timedOut: bool)
      requires consumer.Waiting? && consumer.item.Frame?
      modifies this
      ensures View() == Wake(old(View()), timedOut, delay)
    {
      if stopped {
        Flush();
        consumer := Ended;
      } else if timedOut {
        consumer := Pushing(consumer.item);
      } else {
        var deadline := consumer.item.pts + clock.offset + delay;
        if deadline > consumer.popped + delay {
          deadline := consumer.popped + delay;
        }
        consumer := consumer.(deadline := deadline);
      }
    }

    method PushedToSinks(ok: bool)
      requires consumer.Pushing?
      modifies this
      ensures View() == Pushed(old(View()), ok)
    {
      if ok {
        consumer := AtQueue;
      } else {
        stopped := true;
        Flush();
        consumer := Ended;
      }
    }
  }

  // ---------------------------------------------------------------------------------------
  // Runs

  /** How the buffer was set up. */
  datatype Setup = Setup(delay: int, asap: bool)

  datatype Action =
    | PushesFrame(pts: int, image: nat, now: int)
    | PushesSession(id: nat)
    | BypassDone
    | Pops(now: int)
    | Wakes(timedOut: bool)
    | SinksTook(ok: bool)
    | Closes

  predicate Enabled(s: State, a: Action) {
    match a
    case PushesFrame(_, _, _) => s.bypass == None
    case PushesSession(_) => s.bypass == None
    case BypassDone => s.bypass.Some?
    case Pops(_) => s.consumer == AtQueue && (s.stopped || s.queue != [])
    case Wakes(_) => s.consumer.Waiting? && s.consumer.item.Frame?
    case SinksTook(_) => s.consumer.Pushing?
    case Closes => true
  }

  /** History: the items accepted, those the sinks took from the queue, whether a frame went past
      the queue, and the offsets the clock saw. */
  datatype History = History(s: State, accepted: seq<Item>, out: seq<Item>, bypassed: seq<Item>, points: seq<Point>)

  const Start := History(Initial, [], [], [], [])

  function Step(h: History, a: Action, cfg: Setup): History
    requires Enabled(h.s, a)
  {
    match a
    case PushesFrame(pts, image, now) =>
      var (s', ok) := PushFrame(h.s, pts, image, now, cfg.asap);
      if !ok then h.(s := s')
      else History(s', h.accepted + [Frame(pts, image)], h.out, if s'.bypass.Some? then h.bypassed + [s'.bypass.value] else h.bypassed,
                   h.points + [Point(now, pts)])
    case PushesSession(id) =>
      var (s', ok) := PushSession(h.s, id);
      if ok then h.(s := s', accepted := h.accepted + [Session(id)]) else h.(s := s')
    case BypassDone => h.(s := h.s.(bypass := None))
    case Pops(now) => h.(s := Pop(h.s, now, cfg.delay))
    case Wakes(timedOut) => h.(s := Wake(h.s, timedOut, cfg.delay))
    case SinksTook(ok) => h.(s := Pushed(h.s, ok), out := if ok then h.out + [h.s.consumer.item] else h.out)
    case Closes => h.(s := h.s.(stopped := true))
  }

  ghost predicate IsRun(h: History, acts: seq<Action>, cfg: Setup)
    decreases |acts|
  {
    acts == [] || (Enabled(h.s, acts[0]) && IsRun(Step(h, acts[0], cfg), acts[1..], cfg))
  }

  ghost function After(h: History, acts: seq<Action>, cfg: Setup): History
    requires IsRun(h, acts, cfg)
    decreases |acts|
  {
    if acts == [] then h else After(Step(h, acts[0], cfg), acts[1..], cfg)
  }

  // ---- the invariant

  function Frames(items: seq<Item>): nat {
    if items == [] then 0 else Frames(items[..|items| - 1]) + if items[|items| - 1].Frame? then 1 else 0
  }

  /** The items without the first frame. */
  function WithoutFirstFrame(items: seq<Item>): seq<Item> {
    if items == [] then []
    else
      var last := items[|items| - 1];
      WithoutFirstFrame(items[..|items| - 1]) + if last.Frame? && Frames(items) == 1 then [] else [last]
  }

  /** What goes through the queue. */
  function Queued(items: seq<Item>, asap: bool): seq<Item> {
    if asap then WithoutFirstFrame(items) else items
  }

  function InHand(c: Consumer): seq<Item> {
    match c
    case Waiting(item, _, _) => [item]
    case Pushing(item) => [item]
    case _ => []
  }

  predicate ClockOk(h: History) {
    && h.s.clock == UpdateAll(Fresh, h.points) && |h.points| == Frames(h.accepted)
    && h.s.clock.range == (if Frames(h.accepted) < CLOCK_RANGE then Frames(h.accepted) else CLOCK_RANGE)
  }

  predicate DeadlineOk(s: State, cfg: Setup) {
    && (s.consumer.Waiting? ==> s.consumer.item.Frame? && s.consumer.deadline <= s.consumer.popped + cfg.delay && s.clock.range > 0)
    && ((exists i :: 0 <= i < |s.queue| && s.queue[i].Frame?) ==> s.clock.range > 0)
  }

  predicate OrderOk(h: History, cfg: Setup) {
    && h.out <= Queued(h.accepted, cfg.asap)
    && (h.s.consumer != Ended ==> Queued(h.accepted, cfg.asap) == h.out + InHand(h.s.consumer) + h.s.queue)
    && (h.s.consumer == Ended ==> h.s.stopped && h.s.queue == [])
  }

  /** The first frame among the items, if there is one. */
  function FirstFrame(items: seq<Item>): (f: seq<Item>)
    ensures Frames(items) == 0 ==> f == []
    ensures Frames(items) > 0 ==> |f| == 1 && f[0].Frame? && f[0] in items
  {
    if items == [] then []
    else if Frames(items[..|items| - 1]) == 0 && items[|items| - 1].Frame? then [items[|items| - 1]]
    else FirstFrame(items[..|items| - 1])
  }

  predicate BypassOk(h: History, cfg: Setup) {
    h.bypassed == if cfg.asap then FirstFrame(h.accepted) else []
  }

  predicate Inv(h: History, cfg: Setup) {
    ClockOk(h) && DeadlineOk(h.s, cfg) && OrderOk(h, cfg) && BypassOk(h, cfg)
  }

  lemma {:induction false} UpdateLast(c: ClockState, ps: seq<Point>, p: Point)
    ensures UpdateAll(c, ps + [p]) == Update(UpdateAll(c, ps), p.system, p.stream)
    decreases |ps|
  {
    if ps == [] {
      assert ps + [p] == [p];
      assert UpdateAll(Update(c, p.system, p.stream), []) == Update(c, p.system, p.stream);
    } else {
      assert (ps + [p])[1..] == ps[1..] + [p];
      UpdateLast(Update(c, ps[0].system, ps[0].stream), ps[1..], p);
    }
  }

  lemma OneMore(items: seq<Item>, x: Item)
    ensures Frames(items + [x]) == Frames(items) + if x.Frame? then 1 else 0
    ensures WithoutFirstFrame(items + [x])
            == if x.Frame? && Frames(items) == 0 then WithoutFirstFrame(items) else WithoutFirstFrame(items) + [x]
    ensures FirstFrame(items + [x]) == if x.Frame? && Frames(items) == 0 then [x] else FirstFrame(items)
  {
    assert (items + [x])[..|items|] == items;
    assert WithoutFirstFrame(items) + [] == WithoutFirstFrame(items);
  }

  lemma FrameStep(h: History, h': History, pts: int, image: nat, now: int, cfg: Setup)
    requires Inv(h, cfg) && h.s.bypass == None && !h.s.stopped && h' == Step(h, PushesFrame(pts, image, now), cfg)
    ensures Inv(h', cfg)
  {
    UpdateLast(Fresh, h.points, Point(now, pts));
    OneMore(h.accepted, Frame(pts, image));
    FrameOrder(h, h', pts, image, now, cfg);
    FrameBypass(h, h', pts, image, now, cfg);
  }

  lemma FrameBypass(h: History, h': History, pts: int, image: nat, now: int, cfg: Setup)
    requires BypassOk(h, cfg) && ClockOk(h) && h.s.bypass == None && !h.s.stopped && h' == Step(h, PushesFrame(pts, image, now), cfg)
    ensures BypassOk(h', cfg)
  {
    OneMore(h.accepted, Frame(pts, image));
  }

  lemma FrameOrder(h: History, h': History, pts: int, image: nat, now: int, cfg: Setup)
    requires OrderOk(h, cfg) && ClockOk(h) && h.s.bypass == None && !h.s.stopped && h' == Step(h, PushesFrame(pts, image, now), cfg)
    ensures OrderOk(h', cfg)
  {
    var x := Frame(pts, image);
    OneMore(h.accepted, x);
    var q, c := h.out, InHand(h.s.consumer);
    assert q + c + (h.s.queue + [x]) == (q + c + h.s.queue) + [x];
  }

  lemma SessionStep(h: History, h': History, id: nat, cfg: Setup)
    requires Inv(h, cfg) && h.s.bypass == None && !h.s.stopped && h' == Step(h, PushesSession(id), cfg)
    ensures Inv(h', cfg)
  {
    var x := Session(id);
    OneMore(h.accepted, x);
    var q, c := h.out, InHand(h.s.consumer);
    assert q + c + (h.s.queue + [x]) == (q + c + h.s.queue) + [x];
  }

  lemma HeadTaken(out: seq<Item>, q: seq<Item>)
    requires q != []
    ensures out + [] + q == out + [q[0]] + q[1..]
  {
    assert q == [q[0]] + q[1..];
  }

  lemma PopOrder(h: History, h': History, now: int, cfg: Setup)
    requires OrderOk(h, cfg) && Enabled(h.s, Pops(now)) && h' == Step(h, Pops(now), cfg)
    ensures OrderOk(h', cfg)
  {
    if !h.s.stopped {
      HeadTaken(h.out, h.s.queue);
    }
  }

  lemma PopDeadline(s: State, s': State, now: int, cfg: Setup)
    requires DeadlineOk(s, cfg) && s.consumer == AtQueue && s' == Pop(s, now, cfg.delay)
    ensures DeadlineOk(s', cfg)
  {
    if !s.stopped && s.queue != [] {
      assert s.queue[0].Frame? ==> s.clock.range > 0;
      assert forall i :: 0 <= i < |s'.queue| ==> s'.queue[i] == s.queue[i + 1];
    }
  }

  lemma PopStep(h: History, h': History, now: int, cfg: Setup)
    requires Inv(h, cfg) && Enabled(h.s, Pops(now)) && h' == Step(h, Pops(now), cfg)
    ensures Inv(h', cfg)
  {
    PopOrder(h, h', now, cfg);
    PopDeadline(h.s, h'.s, now, cfg);
  }

  lemma TookStep(h: History, h': History, ok: bool, cfg: Setup)
    requires Inv(h, cfg) && h.s.consumer.Pushing? && h' == Step(h, SinksTook(ok), cfg)
    ensures Inv(h', cfg)
  {
    var q, x := h.s.queue, h.s.consumer.item;
    assert h.out + [x] + q == (h.out + [x]) + [] + q;
    assert ok ==> h'.out <= Queued(h.accepted, cfg.asap);
  }

  lemma StepKeeps(h: History, a: Action, cfg: Setup)
    requires Inv(h, cfg) && Enabled(h.s, a)
    ensures Inv(Step(h, a, cfg), cfg)
  {
    var h' := Step(h, a, cfg);
    match a
    case PushesFrame(pts, image, now) => if !h.s.stopped { FrameStep(h, h', pts, image, now, cfg); }
    case PushesSession(id) => if !h.s.stopped { SessionStep(h, h', id, cfg); }
    case Pops(now) => PopStep(h, h', now, cfg);
    case SinksTook(ok) => TookStep(h, h', ok, cfg);
    case _ =>
  }

  lemma {:induction false} RunKeeps(h: History, acts: seq<Action>, cfg: Setup)
    requires Inv(h, cfg) && IsRun(h, acts, cfg)
    ensures Inv(After(h, acts, cfg), cfg)
    decreases |acts|
  {
    if acts != [] {
      StepKeeps(h, acts[0], cfg);
      RunKeeps(Step(h, acts[0], cfg), acts[1..], cfg);
    }
  }

  // ---- the theorems

  /** What the sinks get from the queue is a prefix of what was accepted, in order; only the first
      frame may have gone past the queue, and only if it was asked to. While the thread lives, the
      rest is in its hands or in the queue. */
  lemma OutputsAreFifo(acts: seq<Action>, cfg: Setup)
    requires IsRun(Start, acts, cfg)
    ensures var h := After(Start, acts, cfg);
            && h.out <= Queued(h.accepted, cfg.asap)
            && (h.s.consumer != Ended ==> Queued(h.accepted, cfg.asap) == h.out + InHand(h.s.consumer) + h.s.queue)
            && h.bypassed == (if cfg.asap then FirstFrame(h.accepted) else [])
            && (h.s.consumer == Ended ==> h.s.stopped && h.s.queue == [])
  {
    RunKeeps(Start, acts, cfg);
  }

  /** Every frame that waits found an initialised clock, and is due at most `delay` after its pop. */
  lemma WaitsAreBounded(acts: seq<Action>, cfg: Setup)
    requires IsRun(Start, acts, cfg)
    ensures var s := After(Start, acts, cfg).s;
            s.consumer.Waiting? ==> s.clock.range > 0 && s.consumer.deadline <= s.consumer.popped + cfg.delay
  {
    RunKeeps(Start, acts, cfg);
  }

  /** The deadline with which a frame starts or goes on waiting is exact: `delay` after its timestamp
      as the clock reads it then, or `delay` after its pop, whichever comes first. */
  lemma DeadlineIsExact(h: History, a: Action, cfg: Setup)
    requires Enabled(h.s, a) && (a.Pops? || a.Wakes?)
    ensures var c := Step(h, a, cfg).s.consumer;
            c.Waiting? && c.item.Frame? ==>
              && c.deadline <= c.item.pts + h.s.clock.offset + cfg.delay
              && c.deadline <= c.popped + cfg.delay
              && (c.deadline == c.item.pts + h.s.clock.offset + cfg.delay || c.deadline == c.popped + cfg.delay)
              && c.popped == (if a.Pops? then a.now else h.s.consumer.popped)
              && (if a.Pops? then h.s.queue != [] && c.item == h.s.queue[0] else c.item == h.s.consumer.item)
  {
  }

  /** A popped item waits if it is a frame, and goes to the sinks at once if it is a session; a frame
      goes to the sinks exactly when its wait ends by the deadline in a buffer that is not stopped. */
  lemma FramesLeaveAtDeadline(h: History, a: Action, cfg: Setup)
    requires Enabled(h.s, a) && !a.SinksTook?
    ensures var c, c' := h.s.consumer, Step(h, a, cfg).s.consumer;
            && (c'.Pushing? && c'.item.Frame? && c != c' <==> a == Wakes(true) && !h.s.stopped)
            && (a == Wakes(true) && !h.s.stopped ==> c'.item == c.item)
            && (a.Pops? && !h.s.stopped ==> if h.s.queue[0].Frame? then c'.Waiting? else c' == Pushing(h.s.queue[0]))
            && (h.s.stopped && (a.Pops? || a.Wakes?) ==> c' == Ended)
  {
  }

  /** A sink's push is accepted exactly in a buffer that is not stopped. */
  lemma AcceptsUntilStopped(h: History, a: Action, cfg: Setup)
    requires Enabled(h.s, a) && (a.PushesFrame? || a.PushesSession?)
    ensures var h' := Step(h, a, cfg);
            if h.s.stopped then h' == h
            else h'.accepted == h.accepted + [if a.PushesFrame? then Frame(a.pts, a.image) else Session(a.id)]
  {
  }

  /** Once stopped, a buffer takes nothing more in, and gives out no more than the item that the
      sinks are taking. */
  lemma {:induction false} StoppedGivesOutOneMore(h: History, acts: seq<Action>, cfg: Setup)
    requires h.s.stopped && IsRun(h, acts, cfg)
    ensures var h' := After(h, acts, cfg);
            && h'.s.stopped && h'.accepted == h.accepted && h'.points == h.points && h'.bypassed == h.bypassed
            && (h'.out == h.out || (h.s.consumer.Pushing? && h'.out == h.out + [h.s.consumer.item]))
            && (!h.s.consumer.Pushing? ==> !h'.s.consumer.Pushing?)
            && (h.s.consumer.Pushing? && h'.s.consumer.Pushing? ==> h'.s.consumer == h.s.consumer && h'.out == h.out)
    decreases |acts|
  {
    if acts != [] {
      StoppedGivesOutOneMore(Step(h, acts[0], cfg), acts[1..], cfg);
    }
  }

  /** The clock is fed by every accepted frame and by nothing else, and its range is their number up
      to thirty-two. */
  lemma ClockSeesEveryFrame(acts: seq<Action>, cfg: Setup)
    requires IsRun(Start, acts, cfg)
    ensures var h := After(Start, acts, cfg);
            && h.s.clock == UpdateAll(Fresh, h.points)
            && |h.points| == Frames(h.accepted)
            && h.s.clock.range == (if |h.points| < 32 then |h.points| else 32)
  {
    RunKeeps(Start, acts, cfg);
  }

  /** In every state of the buffer the clock's offset lies between the least and the greatest offset
      of the frames pushed. */
  lemma ClockStaysInRange(acts: seq<Action>, cfg: Setup, lo: int, hi: int)
    requires IsRun(Start, acts, cfg)
    requires var h := After(Start, acts, cfg); h.points != [] && Between(lo, h.points, hi)
    ensures lo <= After(Start, acts, cfg).s.clock.offset <= hi
  {
    RunKeeps(Start, acts, cfg);
    OffsetBetween(Fresh, After(Start, acts, cfg).points, lo, hi);
  }
}
