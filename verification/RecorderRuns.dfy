/** What a recording promises, over every interleaving of the sinks and the recorder thread. */
module RecorderRuns {
  import opened Wrappers
  import opened Recorder
  import opened PacketMerger

  datatype Action =
    | OpensVideo
    | OpensAudio(expectsConfig: bool)
    | DisablesAudio
    | PushesVideo(p: Packet)
    | PushesAudio(p: Packet)
    | Stops
    | TakesHeader
    | WritesHeader(ok: bool)
    | Takes
    | Handles(videoOk: bool, audioOk: bool)
    | Finishes(videoOk: bool, trailerOk: bool)

  predicate Enabled(s: State, cfg: Setup, a: Action) {
    match a
    case OpensVideo => cfg.video && !s.videoInit && !s.stopped
    case OpensAudio(_) => s.audio && !s.audioInit
    case DisablesAudio => s.audio && !s.audioInit
    case PushesVideo(_) => cfg.video && s.videoInit
    case PushesAudio(_) => s.audio && s.audioInit
    case Stops => true
    case TakesHeader => s.thread == AwaitingHeader && !MustWait(s, cfg)
    case WritesHeader(_) => s.thread.HasHeader?
    case Takes => s.thread == AtQueues && MayTake(s, cfg)
    case Handles(_, _) => s.thread == Handling
    case Finishes(_, _) => s.thread == AtEnd
  }

  /** The state, the packets each sink accepted, and whether the header took the first of them. */
  datatype History = History(s: State, videoIn: seq<Packet>, audioIn: seq<Packet>, videoHead: bool, audioHead: bool)

  function Start(audio: bool): History {
    History(Initial(audio), [], [], false, false)
  }

  function Step(h: History, cfg: Setup, a: Action): History
    requires Enabled(h.s, cfg, a)
  {
    match a
    case OpensVideo => h.(s := h.s.(videoInit := true))
    case OpensAudio(expects) => h.(s := h.s.(audioInit := true, expectsConfig := expects))
    case DisablesAudio => h.(s := h.s.(audioInit := true, audio := false))
    case PushesVideo(p) =>
      var (s', ok) := PushVideo(h.s, p);
      if ok then h.(s := s', videoIn := h.videoIn + [p]) else h
    case PushesAudio(p) =>
      var (s', ok) := PushAudio(h.s, p);
      if ok then h.(s := s', audioIn := h.audioIn + [p]) else h
    case Stops => h.(s := h.s.(stopped := true))
    case TakesHeader =>
      var s' := TakeHeader(h.s, cfg);
      h.(s := s', videoHead := s'.thread.HasHeader? && s'.thread.video.Some?, audioHead := s'.thread.HasHeader? && s'.thread.audio.Some?)
    case WritesHeader(ok) => h.(s := WriteHeader(h.s, ok))
    case Takes => h.(s := Take(h.s))
    case Handles(videoOk, audioOk) => h.(s := Handle(h.s, cfg, videoOk, audioOk))
    case Finishes(videoOk, trailerOk) => h.(s := Finish(h.s, cfg, videoOk, trailerOk))
  }

  ghost predicate IsRun(h: History, cfg: Setup, acts: seq<Action>)
    decreases |acts|
  {
    acts == [] || (Enabled(h.s, cfg, acts[0]) && IsRun(Step(h, cfg, acts[0]), cfg, acts[1..]))
  }

  ghost function After(h: History, cfg: Setup, acts: seq<Action>): History
    requires IsRun(h, cfg, acts)
    decreases |acts|
  {
    if acts == [] then h else After(Step(h, cfg, acts[0]), cfg, acts[1..])
  }

  // ---- what was accepted, and where it is

  function OptMedia(p: Packet): seq<Packet> {
    if IsConfig(p) then [] else [p]
  }

  /** The media packets of a sequence, behind `done`. */
  function Media(ps: seq<Packet>, done: seq<Packet>): seq<Packet>
    decreases |ps|
  {
    if ps == [] then done else Media(ps[1..], done + OptMedia(ps[0]))
  }

  /** What was accepted after the header's packet. */
  function Rest(ps: seq<Packet>, head: bool): seq<Packet> {
    if head && ps != [] then ps[1..] else ps
  }

  function Sources(ws: seq<Written>): (ps: seq<Packet>)
    ensures |ps| == |ws|
  {
    seq(|ws|, i requires 0 <= i < |ws| => ws[i].src)
  }

  function Opt(p: Option<Packet>): seq<Packet> {
    if p.Some? then OptMedia(p.value) else []
  }

  function OptHeld(h: Option<Held>): seq<Packet> {
    if h.Some? then [h.value.src] else []
  }

  /** The media packets that have left the queue: written, held, and in the thread's hands. */
  function Taken(out: seq<Written>, held: Option<Held>, pkt: Option<Packet>): seq<Packet> {
    Sources(out) + OptHeld(held) + Opt(pkt)
  }

  /** These and the queue are the accepted media packets, in order. */
  predicate Flow(rest: seq<Packet>, out: seq<Written>, held: Option<Held>, pkt: Option<Packet>, queue: seq<Packet>) {
    Media(rest, []) == Media(queue, Taken(out, held, pkt))
  }

  /** The timestamp of a media packet. */
  function Time(p: Packet): int {
    if p.pts.Some? then p.pts.value else 0
  }

  predicate VideoFlow(h: History) {
    && (h.videoHead ==> h.videoIn != [])
    && (h.s.thread == AwaitingHeader ==> !h.videoHead && h.s.videoQueue == h.videoIn && h.s.videoOut == []
                                         && h.s.previous == None && h.s.videoPkt == None)
    && (h.s.thread != Done(false) ==>
          Flow(Rest(h.videoIn, h.videoHead), h.s.videoOut, h.s.previous, h.s.videoPkt, h.s.videoQueue))
  }

  predicate AudioFlow(h: History) {
    && (h.audioHead ==> h.audioIn != [])
    && (h.s.thread == AwaitingHeader ==> !h.audioHead && h.s.audioQueue == h.audioIn && h.s.audioOut == [] && h.s.audioPkt == None)
    && (h.s.thread != Done(false) ==>
          Flow(Rest(h.audioIn, h.audioHead), h.s.audioOut, None, h.s.audioPkt, h.s.audioQueue))
  }

  predicate EndOk(s: State) {
    s.thread == AtEnd || s.thread == Done(true) ==>
      && s.stopped && s.videoQueue == [] && s.audioQueue == [] && s.videoPkt == None && s.audioPkt == None
      && (s.thread == Done(true) ==> s.previous == None)
  }

  predicate Increasing(ws: seq<Written>) {
    forall i, j :: 0 <= i < j < |ws| ==> ws[i].pts < ws[j].pts
  }

  predicate TimesOk(ws: seq<Written>, last: Option<int>) {
    && Increasing(ws)
    && (if ws == [] then last == None else last == Some(ws[|ws| - 1].pts))
  }

  /** Each packet lasts until the next. */
  ghost predicate Chained(ws: seq<Written>) {
    forall i, j :: 0 <= i < j < |ws| && j == i + 1 ==> ws[i].duration == Time(ws[j].src) - Time(ws[i].src)
  }

  ghost predicate DurationsOk(s: State) {
    && (forall i :: 0 <= i < |s.videoOut| ==> !IsConfig(s.videoOut[i].src))
    && (s.previous.Some? ==> !IsConfig(s.previous.value.src) && s.origin.Some?
                             && s.previous.value.pts == Time(s.previous.value.src) - s.origin.value)
    && Chained(s.videoOut)
    && (s.previous.Some? && s.videoOut != [] ==>
          s.videoOut[|s.videoOut| - 1].duration == Time(s.previous.value.src) - Time(s.videoOut[|s.videoOut| - 1].src))
    && (s.thread == Done(true) && s.videoOut != [] ==> s.videoOut[|s.videoOut| - 1].duration == LAST_DURATION)
    && (s.videoOut != [] && !s.thread.Done? ==> s.previous.Some?)
  }

  predicate OutcomesOk(s: State) {
    s.thread != Done(false) ==>
      && (forall i :: 0 <= i < |s.audioOut| ==> s.audioOut[i].ok)
      && (forall i :: 0 <= i < |s.videoOut| ==> s.videoOut[i].ok || (s.thread == Done(true) && i == |s.videoOut| - 1))
  }

  /** What the thread did so far. */
  ghost predicate OutOk(s: State) {
    EndOk(s) && TimesOk(s.videoOut, s.videoLast) && TimesOk(s.audioOut, s.audioLast) && DurationsOk(s) && OutcomesOk(s)
  }

  ghost predicate Inv(h: History) {
    VideoFlow(h) && AudioFlow(h) && OutOk(h.s)
  }

  // ---- how the flow moves

  lemma {:induction false} MediaOne(ps: seq<Packet>, done: seq<Packet>, p: Packet)
    ensures Media(ps + [p], done) == Media(ps, done) + OptMedia(p)
    decreases |ps|
  {
    if ps == [] {
      assert ps + [p] == [p];
      assert Media([], done + OptMedia(p)) == done + OptMedia(p);
    } else {
      assert (ps + [p])[1..] == ps[1..] + [p];
      MediaOne(ps[1..], done + OptMedia(ps[0]), p);
    }
  }

  lemma SourcesOne(ws: seq<Written>, w: Written)
    ensures Sources(ws + [w]) == Sources(ws) + [w.src]
  {
  }

  lemma FlowPush(rest: seq<Packet>, out: seq<Written>, held: Option<Held>, pkt: Option<Packet>, queue: seq<Packet>, p: Packet)
    requires Flow(rest, out, held, pkt, queue)
    ensures Flow(rest + [p], out, held, pkt, queue + [p])
  {
    MediaOne(rest, [], p);
    MediaOne(queue, Taken(out, held, pkt), p);
  }

  lemma FlowTake(rest: seq<Packet>, out: seq<Written>, held: Option<Held>, queue: seq<Packet>)
    requires Flow(rest, out, held, None, queue) && queue != []
    ensures Flow(rest, out, held, Some(queue[0]), queue[1..])
  {
    assert Taken(out, held, None) + OptMedia(queue[0]) == Taken(out, held, Some(queue[0]));
  }

  /** The held packet is written and the next one held. */
  lemma HoldNext(out: seq<Written>, held: Option<Held>, out': seq<Written>, next: Held)
    requires !IsConfig(next.src)
    requires if held.Some? then |out'| == |out| + 1 && out'[..|out|] == out && out'[|out|].src == held.value.src else out' == out
    ensures Taken(out', Some(next), None) == Taken(out, held, Some(next.src))
  {
    if held.Some? {
      assert out' == out + [out'[|out|]];
      SourcesOne(out, out'[|out|]);
    }
  }

  lemma WriteNext(out: seq<Written>, p: Packet, w: Written)
    requires !IsConfig(p) && w.src == p
    ensures Taken(out + [w], None, None) == Taken(out, None, Some(p))
  {
    SourcesOne(out, w);
  }

  lemma WriteLast(out: seq<Written>, held: Held, w: Written)
    requires w.src == held.src
    ensures Taken(out + [w], None, None) == Taken(out, Some(held), None)
  {
    SourcesOne(out, w);
  }

  // ---- the flow of each stream

  predicate ThreadStep(a: Action) {
    a.Handles? || a.Finishes?
  }

  // Pushes, the header and the taking, stream by stream.

  lemma VideoPushed(h: History, h': History, p: Packet)
    requires VideoFlow(h) && !h.s.stopped && h'.videoIn == h.videoIn + [p] && h'.videoHead == h.videoHead
    requires h'.s == h.s.(videoQueue := h.s.videoQueue + [p])
    ensures VideoFlow(h')
  {
    if h.s.thread != Done(false) {
      FlowPush(Rest(h.videoIn, h.videoHead), h.s.videoOut, h.s.previous, h.s.videoPkt, h.s.videoQueue, p);
      assert h.videoHead ==> (h.videoIn + [p])[1..] == h.videoIn[1..] + [p];
    }
  }

  lemma VideoHeaderTaken(h: History, h': History, cfg: Setup)
    requires VideoFlow(h) && Enabled(h.s, cfg, TakesHeader) && h' == Step(h, cfg, TakesHeader)
    ensures VideoFlow(h')
  {
    assert Taken([], None, None) == [];
  }

  lemma VideoTakes(h: History, h': History)
    requires VideoFlow(h) && h.s.thread == AtQueues && h' == h.(s := Take(h.s))
    ensures VideoFlow(h')
  {
    if h.s.videoPkt.None? && h.s.videoQueue != [] {
      FlowTake(Rest(h.videoIn, h.videoHead), h.s.videoOut, h.s.previous, h.s.videoQueue);
    }
  }

  /** The stream's packets stay where they are. */
  lemma VideoQuiet(h: History, h': History)
    requires VideoFlow(h) && h'.videoIn == h.videoIn && h'.videoHead == h.videoHead
    requires h'.s.videoOut == h.s.videoOut && h'.s.videoPkt == h.s.videoPkt && h'.s.videoQueue == h.s.videoQueue && h'.s.previous == h.s.previous
    requires h'.s.thread == h.s.thread || (h'.s.thread != AwaitingHeader && h.s.thread != Done(false))
    ensures VideoFlow(h')
  {
  }

  lemma AudioPushed(h: History, h': History, p: Packet)
    requires AudioFlow(h) && !h.s.stopped && h'.audioIn == h.audioIn + [p] && h'.audioHead == h.audioHead
    requires h'.s == h.s.(audioQueue := h.s.audioQueue + [p])
    ensures AudioFlow(h')
  {
    if h.s.thread != Done(false) {
      FlowPush(Rest(h.audioIn, h.audioHead), h.s.audioOut, None, h.s.audioPkt, h.s.audioQueue, p);
      assert h.audioHead ==> (h.audioIn + [p])[1..] == h.audioIn[1..] + [p];
    }
  }

  lemma AudioHeaderTaken(h: History, h': History, cfg: Setup)
    requires AudioFlow(h) && Enabled(h.s, cfg, TakesHeader) && h' == Step(h, cfg, TakesHeader)
    ensures AudioFlow(h')
  {
    assert Taken([], None, None) == [];
  }

  lemma AudioTakes(h: History, h': History)
    requires AudioFlow(h) && h.s.thread == AtQueues && h' == h.(s := Take(h.s))
    ensures AudioFlow(h')
  {
    if h.s.audioPkt.None? && h.s.audioQueue != [] {
      FlowTake(Rest(h.audioIn, h.audioHead), h.s.audioOut, None, h.s.audioQueue);
    }
  }

  /** The stream's packets stay where they are. */
  lemma AudioQuiet(h: History, h': History)
    requires AudioFlow(h) && h'.audioIn == h.audioIn && h'.audioHead == h.audioHead
    requires h'.s.audioOut == h.s.audioOut && h'.s.audioPkt == h.s.audioPkt && h'.s.audioQueue == h.s.audioQueue
    requires h'.s.thread == h.s.thread || (h'.s.thread != AwaitingHeader && h.s.thread != Done(false))
    ensures AudioFlow(h')
  {
  }

  lemma VideoQueueStep(h: History, h': History, cfg: Setup, a: Action)
    requires VideoFlow(h) && Enabled(h.s, cfg, a) && !ThreadStep(a) && h' == Step(h, cfg, a)
    ensures VideoFlow(h')
  {
    match a
    case PushesVideo(p) => if !h.s.stopped { VideoPushed(h, h', p); }
    case TakesHeader => VideoHeaderTaken(h, h', cfg);
    case Takes => VideoTakes(h, h');
    case _ => VideoQuiet(h, h');
  }

  lemma AudioQueueStep(h: History, h': History, cfg: Setup, a: Action)
    requires AudioFlow(h) && Enabled(h.s, cfg, a) && !ThreadStep(a) && h' == Step(h, cfg, a)
    ensures AudioFlow(h')
  {
    match a
    case PushesAudio(p) => if !h.s.stopped { AudioPushed(h, h', p); }
    case TakesHeader => AudioHeaderTaken(h, h', cfg);
    case Takes => AudioTakes(h, h');
    case _ => AudioQuiet(h, h');
  }

  /** Nothing of the two streams changed hands. */
  predicate SameTaken(s: State, s': State) {
    && Taken(s'.videoOut, s'.previous, s'.videoPkt) == Taken(s.videoOut, s.previous, s.videoPkt) && s'.videoQueue == s.videoQueue
    && Taken(s'.audioOut, None, s'.audioPkt) == Taken(s.audioOut, None, s.audioPkt) && s'.audioQueue == s.audioQueue
  }

  lemma DropTaken(s: State, s': State)
    requires s' == DropConfigs(s)
    ensures SameTaken(s, s')
  {
    assert Opt(s'.videoPkt) == Opt(s.videoPkt) && Opt(s'.audioPkt) == Opt(s.audioPkt);
  }

  lemma VideoTaken(s: State, s': State, cfg: Setup, v: Packet, ok: bool)
    requires s.videoPkt == Some(v) && !IsConfig(v) && s.origin.Some? && s' == HandleVideo(s, cfg, v, s.origin.value, ok)
    requires s'.thread != Done(false) && s.thread != Done(false)
    ensures SameTaken(s, s')
  {
    HoldNext(s.videoOut, s.previous, s'.videoOut, s'.previous.value);
  }

  lemma AudioTaken(s: State, s': State, cfg: Setup, a: Packet, ok: bool)
    requires s.audioPkt == Some(a) && !IsConfig(a) && s.origin.Some? && s' == HandleAudio(s, cfg, a, s.origin.value, ok)
    requires s'.thread != Done(false) && s.thread != Done(false)
    ensures SameTaken(s, s')
  {
    WriteNext(s.audioOut, a, s'.audioOut[|s.audioOut|]);
  }

  lemma SameTakenTwice(s: State, s1: State, s': State)
    requires SameTaken(s, s1) && SameTaken(s1, s')
    ensures SameTaken(s, s')
  {
  }

  lemma FirstTaken(s: State, s1: State, cfg: Setup, ok: bool)
    requires OnlyMedia(s) && s.origin.Some? && s.thread == AtQueues && s1 == RecordFirst(s, cfg, ok) && s1.thread != Done(false)
    ensures SameTaken(s, s1)
  {
    if s.videoPkt.Some? { VideoTaken(s, s1, cfg, s.videoPkt.value, ok); }
  }

  lemma SecondTaken(s: State, s': State, cfg: Setup, ok: bool)
    requires OnlyMedia(s) && s.origin.Some? && s.thread != Done(false) && s' == RecordSecond(s, cfg, ok) && s'.thread != Done(false)
    ensures SameTaken(s, s')
  {
    if s.audioPkt.Some? && !s.thread.Done? { AudioTaken(s, s', cfg, s.audioPkt.value, ok); }
  }

  lemma RecordTaken(s: State, s': State, cfg: Setup, videoOk: bool, audioOk: bool)
    requires OnlyMedia(s) && s.origin.Some? && s.thread == AtQueues && s' == Record(s, cfg, videoOk, audioOk) && s'.thread != Done(false)
    ensures SameTaken(s, s')
  {
    var s1 := RecordFirst(s, cfg, videoOk);
    FirstTaken(s, s1, cfg, videoOk);
    SecondTaken(s1, s', cfg, audioOk);
    SameTakenTwice(s, s1, s');
  }

  lemma HandleTaken(s: State, s': State, cfg: Setup, videoOk: bool, audioOk: bool)
    requires s' == Handle(s, cfg, videoOk, audioOk) && s'.thread != Done(false)
    ensures SameTaken(s, s')
  {
    var s1 := DropConfigs(s);
    DropTaken(s, s1);
    var o := FindOrigin(s1, cfg, s1.videoPkt, s1.audioPkt);
    if o.Known? {
      RecordTaken(s1.(origin := Some(o.pts)), s', cfg, videoOk, audioOk);
    }
  }

  lemma RecordEnds(s: State, s': State, cfg: Setup, videoOk: bool, audioOk: bool)
    requires OnlyMedia(s) && s.origin.Some? && s.thread == AtQueues && s' == Record(s, cfg, videoOk, audioOk)
    ensures s'.thread == AtQueues || s'.thread == Done(false)
  {
    var s1 := RecordFirst(s, cfg, videoOk);
    assert s1.thread == AtQueues || s1.thread == Done(false);
  }

  lemma HandleEnds(s: State, s': State, cfg: Setup, videoOk: bool, audioOk: bool)
    requires s' == Handle(s, cfg, videoOk, audioOk)
    ensures s'.thread == AtQueues || s'.thread == Done(false)
  {
    var s1 := DropConfigs(s);
    var o := FindOrigin(s1, cfg, s1.videoPkt, s1.audioPkt);
    if o.Known? {
      RecordEnds(s1.(origin := Some(o.pts)), s', cfg, videoOk, audioOk);
    }
  }

  lemma SameFlow(h: History, h': History)
    requires VideoFlow(h) && AudioFlow(h) && h.s.thread == Handling && h' == h.(s := h'.s)
    requires h'.s.thread == AtQueues || h'.s.thread == Done(false)
    requires h'.s.thread != Done(false) ==> SameTaken(h.s, h'.s)
    ensures VideoFlow(h') && AudioFlow(h')
  {
  }

  lemma FinishFlow(h: History, h': History, cfg: Setup, videoOk: bool, trailerOk: bool)
    requires VideoFlow(h) && AudioFlow(h) && EndOk(h.s) && h.s.thread == AtEnd && h' == h.(s := Finish(h.s, cfg, videoOk, trailerOk))
    ensures VideoFlow(h') && AudioFlow(h')
  {
    if h.s.previous.Some? {
      WriteLast(h.s.videoOut, h.s.previous.value, h'.s.videoOut[|h.s.videoOut|]);
    }
  }

  lemma HandleFlow(h: History, h': History, cfg: Setup, videoOk: bool, audioOk: bool)
    requires VideoFlow(h) && AudioFlow(h) && h.s.thread == Handling && h' == h.(s := Handle(h.s, cfg, videoOk, audioOk))
    ensures VideoFlow(h') && AudioFlow(h')
  {
    HandleEnds(h.s, h'.s, cfg, videoOk, audioOk);
    if h'.s.thread != Done(false) { HandleTaken(h.s, h'.s, cfg, videoOk, audioOk); }
    SameFlow(h, h');
  }

  lemma FlowStep(h: History, h': History, cfg: Setup, a: Action)
    requires VideoFlow(h) && AudioFlow(h) && EndOk(h.s) && Enabled(h.s, cfg, a) && h' == Step(h, cfg, a)
    ensures VideoFlow(h') && AudioFlow(h')
  {
    match a
    case Handles(videoOk, audioOk) => HandleFlow(h, h', cfg, videoOk, audioOk);
    case Finishes(videoOk, trailerOk) => FinishFlow(h, h', cfg, videoOk, trailerOk);
    case _ =>
      VideoQueueStep(h, h', cfg, a);
      AudioQueueStep(h, h', cfg, a);
  }

  // ---- what is written

  lemma TimesOne(ws: seq<Written>, last: Option<int>, w: Written, scaled: int)
    requires TimesOk(ws, last) && w.pts == Repaired(last, scaled)
    ensures TimesOk(ws + [w], Some(w.pts))
  {
  }

  lemma VideoTimes(s: State, s': State, cfg: Setup, v: Packet, ok: bool)
    requires TimesOk(s.videoOut, s.videoLast) && !IsConfig(v) && s.origin.Some? && s' == HandleVideo(s, cfg, v, s.origin.value, ok)
    ensures TimesOk(s'.videoOut, s'.videoLast)
  {
    if s.previous.Some? {
      var held := s.previous.value;
      var w := Written(held.src, Repaired(s.videoLast, cfg.videoScale(held.pts)), Time(v) - s.origin.value - held.pts, ok);
      TimesOne(s.videoOut, s.videoLast, w, cfg.videoScale(held.pts));
    }
  }

  lemma VideoDurations(s: State, s': State, cfg: Setup, v: Packet, ok: bool)
    requires DurationsOk(s) && s.thread == AtQueues && !IsConfig(v) && s.origin.Some?
    requires s' == HandleVideo(s, cfg, v, s.origin.value, ok)
    ensures DurationsOk(s')
  {
    if s.previous.Some? { ChainOne(s.videoOut, s'.videoOut[|s.videoOut|]); }
  }

  lemma ChainOne(ws: seq<Written>, w: Written)
    requires Chained(ws) && (ws != [] ==> ws[|ws| - 1].duration == Time(w.src) - Time(ws[|ws| - 1].src))
    ensures Chained(ws + [w])
  {
  }

  lemma VideoOutcomes(s: State, s': State, cfg: Setup, v: Packet, ok: bool)
    requires OutcomesOk(s) && s.thread == AtQueues && !IsConfig(v) && s.origin.Some?
    requires s' == HandleVideo(s, cfg, v, s.origin.value, ok)
    ensures OutcomesOk(s')
    ensures (s'.thread == AtQueues || s'.thread == Done(false)) && s'.origin == s.origin
    ensures s'.audioOut == s.audioOut && s'.audioLast == s.audioLast
  {
  }

  lemma VideoOut(s: State, s': State, cfg: Setup, v: Packet, ok: bool)
    requires OutOk(s) && s.thread == AtQueues && !IsConfig(v) && s.origin.Some? && s' == HandleVideo(s, cfg, v, s.origin.value, ok)
    ensures OutOk(s') && (s'.thread == AtQueues || s'.thread == Done(false)) && s'.origin == s.origin
  {
    VideoTimes(s, s', cfg, v, ok);
    VideoDurations(s, s', cfg, v, ok);
    VideoOutcomes(s, s', cfg, v, ok);
  }

  lemma AudioTimes(s: State, s': State, cfg: Setup, a: Packet, ok: bool)
    requires TimesOk(s.audioOut, s.audioLast) && !IsConfig(a) && s.origin.Some? && s' == HandleAudio(s, cfg, a, s.origin.value, ok)
    ensures TimesOk(s'.audioOut, s'.audioLast)
  {
    var pts := a.pts.value - s.origin.value;
    TimesOne(s.audioOut, s.audioLast, Written(a, Repaired(s.audioLast, cfg.audioScale(pts)), 0, ok), cfg.audioScale(pts));
  }

  lemma AudioOut(s: State, s': State, cfg: Setup, a: Packet, ok: bool)
    requires OutOk(s) && s.thread == AtQueues && !IsConfig(a) && s.origin.Some? && s' == HandleAudio(s, cfg, a, s.origin.value, ok)
    ensures OutOk(s')
  {
    AudioTimes(s, s', cfg, a, ok);
    assert s'.videoOut == s.videoOut && s'.videoLast == s.videoLast && s'.previous == s.previous && s'.origin == s.origin;
  }

  lemma FirstOut(s: State, s1: State, cfg: Setup, ok: bool)
    requires OutOk(s) && s.thread == AtQueues && OnlyMedia(s) && s.origin.Some? && s1 == RecordFirst(s, cfg, ok)
    ensures OutOk(s1) && (s1.thread == AtQueues || s1.thread == Done(false))
  {
    if s.videoPkt.Some? { VideoOut(s, s1, cfg, s.videoPkt.value, ok); }
  }

  lemma SecondOut(s: State, s': State, cfg: Setup, ok: bool)
    requires OutOk(s) && (s.thread == AtQueues || s.thread == Done(false)) && OnlyMedia(s) && s.origin.Some? && s' == RecordSecond(s, cfg, ok)
    ensures OutOk(s')
  {
    if s.audioPkt.Some? && !s.thread.Done? { AudioOut(s, s', cfg, s.audioPkt.value, ok); }
  }

  lemma RecordOut(s: State, s': State, cfg: Setup, videoOk: bool, audioOk: bool)
    requires OutOk(s) && s.thread == AtQueues && OnlyMedia(s) && s.origin.Some? && s' == Record(s, cfg, videoOk, audioOk)
    ensures OutOk(s')
  {
    var s1 := RecordFirst(s, cfg, videoOk);
    FirstOut(s, s1, cfg, videoOk);
    SecondOut(s1, s', cfg, audioOk);
  }

  lemma DropOut(s: State, s': State, origin: Option<int>)
    requires OutOk(s) && s.thread == Handling && s' == DropConfigs(s).(origin := origin) && (s.origin.Some? ==> origin == s.origin)
    ensures OutOk(s')
  {
  }

  /** How a turn of the loop ends: it goes round again, gives up, or records. */
  lemma HandleCases(s: State, s': State, cfg: Setup, videoOk: bool, audioOk: bool) returns (known: bool, origin: int)
    requires s' == Handle(s, cfg, videoOk, audioOk)
    ensures !known ==> s' == DropConfigs(s) || s' == DropConfigs(s).(thread := Done(false))
    ensures known ==> (s.origin.Some? ==> s.origin == Some(origin))
                      && s' == Record(DropConfigs(s).(origin := Some(origin)), cfg, videoOk, audioOk)
  {
    var s1 := DropConfigs(s);
    var o := FindOrigin(s1, cfg, s1.videoPkt, s1.audioPkt);
    known, origin := o.Known?, if o.Known? then o.pts else 0;
  }

  lemma GiveUpOut(s: State, s': State)
    requires OutOk(s) && s.thread == Handling && (s' == DropConfigs(s) || s' == DropConfigs(s).(thread := Done(false)))
    ensures OutOk(s')
  {
    QuietOut(s, s');
  }

  lemma HandleOut(s: State, s': State, cfg: Setup, videoOk: bool, audioOk: bool)
    requires OutOk(s) && s.thread == Handling && s' == Handle(s, cfg, videoOk, audioOk)
    ensures OutOk(s')
  {
    var known, origin := HandleCases(s, s', cfg, videoOk, audioOk);
    if known {
      var s1 := DropConfigs(s).(origin := Some(origin));
      DropOut(s, s1, s1.origin);
      RecordOut(s1, s', cfg, videoOk, audioOk);
    } else {
      GiveUpOut(s, s');
    }
  }

  lemma FinishOut(s: State, s': State, cfg: Setup, videoOk: bool, trailerOk: bool)
    requires OutOk(s) && s.thread == AtEnd && s' == Finish(s, cfg, videoOk, trailerOk)
    ensures OutOk(s')
  {
    if s.previous.Some? {
      var w := s'.videoOut[|s.videoOut|];
      TimesOne(s.videoOut, s.videoLast, w, cfg.videoScale(s.previous.value.pts));
      ChainOne(s.videoOut, w);
    }
  }

  /** The other steps leave the files alone. */
  lemma QuietOut(s: State, s': State)
    requires OutOk(s) && !s.thread.Done? && s'.thread != Done(true)
    requires s'.videoOut == s.videoOut && s'.audioOut == s.audioOut && s'.videoLast == s.videoLast && s'.audioLast == s.audioLast
    requires s'.previous == s.previous && s'.origin == s.origin
    requires s'.thread == AtEnd ==> s'.stopped && s'.videoQueue == [] && s'.audioQueue == [] && s'.videoPkt == None && s'.audioPkt == None
    ensures OutOk(s')
  {
  }

  lemma TakeOut(s: State, s': State)
    requires OutOk(s) && s.thread == AtQueues && s' == Take(s)
    ensures OutOk(s')
  {
    QuietOut(s, s');
  }

  lemma HeaderKeeps(s: State, s': State, cfg: Setup)
    requires s' == TakeHeader(s, cfg)
    ensures s'.videoOut == s.videoOut && s'.audioOut == s.audioOut && s'.videoLast == s.videoLast && s'.audioLast == s.audioLast
    ensures s'.previous == s.previous && s'.origin == s.origin
    ensures s'.thread.HasHeader? || s'.thread == Done(false)
  {
  }

  lemma HeaderOut(s: State, s': State, cfg: Setup)
    requires OutOk(s) && s.thread == AwaitingHeader && s' == TakeHeader(s, cfg)
    ensures OutOk(s')
  {
    HeaderKeeps(s, s', cfg);
    QuietOut(s, s');
  }

  lemma WriteHeaderOut(s: State, s': State, ok: bool)
    requires OutOk(s) && s.thread.HasHeader? && s' == WriteHeader(s, ok)
    ensures OutOk(s')
  {
    if !s'.thread.Done? { QuietOut(s, s'); }
  }

  lemma SinkOut(s: State, s': State, cfg: Setup, h: History, a: Action)
    requires OutOk(s) && h.s == s && Enabled(s, cfg, a) && s' == Step(h, cfg, a).s
    requires a.OpensVideo? || a.OpensAudio? || a.DisablesAudio? || a.PushesVideo? || a.PushesAudio? || a.Stops?
    ensures OutOk(s')
  {
  }

  lemma OutStep(h: History, h': History, cfg: Setup, a: Action)
    requires OutOk(h.s) && Enabled(h.s, cfg, a) && h' == Step(h, cfg, a)
    ensures OutOk(h'.s)
  {
    match a
    case Handles(videoOk, audioOk) => HandleOut(h.s, h'.s, cfg, videoOk, audioOk);
    case Finishes(videoOk, trailerOk) => FinishOut(h.s, h'.s, cfg, videoOk, trailerOk);
    case TakesHeader => HeaderOut(h.s, h'.s, cfg);
    case WritesHeader(ok) => WriteHeaderOut(h.s, h'.s, ok);
    case Takes => TakeOut(h.s, h'.s);
    case _ => SinkOut(h.s, h'.s, cfg, h, a);
  }

  lemma {:induction false} RunKeeps(h: History, cfg: Setup, acts: seq<Action>)
    requires Inv(h) && IsRun(h, cfg, acts)
    ensures Inv(After(h, cfg, acts))
    decreases |acts|
  {
    if acts != [] {
      var h' := Step(h, cfg, acts[0]);
      FlowStep(h, h', cfg, acts[0]);
      OutStep(h, h', cfg, acts[0]);
      RunKeeps(h', cfg, acts[1..]);
    }
  }

  lemma StartInv(audio: bool)
    ensures Inv(Start(audio))
  {
  }

  // ---- the theorems

  /** With nothing held and nothing at hand, what was taken is what was written. */
  lemma AllWritten(out: seq<Written>)
    ensures Taken(out, None, None) == Sources(out)
  {
  }

  /** A recording that completes without error gave the muxer exactly the media packets accepted after
      the header, per stream, once and in order, and every write but perhaps the very last one of the
      video succeeded. */
  lemma CompleteRecording(cfg: Setup, audio: bool, acts: seq<Action>)
    requires IsRun(Start(audio), cfg, acts) && After(Start(audio), cfg, acts).s.thread == Done(true)
    ensures var h := After(Start(audio), cfg, acts);
            && Sources(h.s.videoOut) == Media(Rest(h.videoIn, h.videoHead), [])
            && Sources(h.s.audioOut) == Media(Rest(h.audioIn, h.audioHead), [])
            && (forall i :: 0 <= i < |h.s.audioOut| ==> h.s.audioOut[i].ok)
            && (forall i :: 0 <= i < |h.s.videoOut| - 1 ==> h.s.videoOut[i].ok)
  {
    StartInv(audio);
    RunKeeps(Start(audio), cfg, acts);
    var h := After(Start(audio), cfg, acts);
    AllWritten(h.s.videoOut);
    AllWritten(h.s.audioOut);
  }

  /** Whatever the timestamps of the input and their rescaling, the written ones strictly increase in
      each stream. */
  lemma TimestampsIncrease(cfg: Setup, audio: bool, acts: seq<Action>)
    requires IsRun(Start(audio), cfg, acts)
    ensures var s := After(Start(audio), cfg, acts).s; Increasing(s.videoOut) && Increasing(s.audioOut)
  {
    StartInv(audio);
    RunKeeps(Start(audio), cfg, acts);
  }

  /** The sum of the durations of the first `n` packets. */
  function Durations(ws: seq<Written>, n: nat): int
    requires n <= |ws|
  {
    if n == 0 then 0 else Durations(ws, n - 1) + ws[n - 1].duration
  }

  lemma {:induction false} DurationsUpTo(ws: seq<Written>, n: nat)
    requires n < |ws| && Chained(ws)
    ensures Durations(ws, n) == Time(ws[n].src) - Time(ws[0].src)
  {
    if n > 0 { DurationsUpTo(ws, n - 1); }
  }

  /** The video durations, before rescaling, telescope to the last timestamp minus the first; the last
      packet of a complete recording lasts a fixed time. */
  lemma DurationsTelescope(cfg: Setup, audio: bool, acts: seq<Action>)
    requires IsRun(Start(audio), cfg, acts) && After(Start(audio), cfg, acts).s.videoOut != []
    ensures var s := After(Start(audio), cfg, acts).s; var n := |s.videoOut| - 1;
            && !IsConfig(s.videoOut[n].src) && !IsConfig(s.videoOut[0].src)
            && Durations(s.videoOut, n) == Time(s.videoOut[n].src) - Time(s.videoOut[0].src)
            && (s.thread == Done(true) ==> s.videoOut[n].duration == 100000)
  {
    StartInv(audio);
    RunKeeps(Start(audio), cfg, acts);
    var s := After(Start(audio), cfg, acts).s;
    DurationsUpTo(s.videoOut, |s.videoOut| - 1);
  }

  // ---- behind the packet merger

  /** The media packets of the input, each headed by the config right before it. */
  function HeadedMedia(ps: seq<Packet>, n: nat): seq<Packet>
    requires n <= |ps|
  {
    if n == 0 then [] else HeadedMedia(ps, n - 1) + if IsConfig(ps[n - 1]) then [] else [Headed(ps, n - 1)]
  }

  lemma {:induction false} MergedMedia(ps: seq<Packet>, merged: seq<Packet>, n: nat)
    requires n <= |ps| == |merged| && forall i :: 0 <= i < |ps| ==> merged[i] == Headed(ps, i)
    ensures Media(merged[..n], []) == HeadedMedia(ps, n)
    decreases n
  {
    if n > 0 {
      MergedMedia(ps, merged, n - 1);
      assert merged[..n] == merged[..n - 1] + [merged[n - 1]];
      MediaOne(merged[..n - 1], [], merged[n - 1]);
    }
  }

  /** When what the video sink accepted came through the merger and began with a config packet, a
      complete recording holds every media packet, in order, each with the bytes of the config right
      before it in front. */
  lemma ConfigsHeadRecordedVideo(cfg: Setup, audio: bool, acts: seq<Action>, ps: seq<Packet>)
    requires IsRun(Start(audio), cfg, acts) && After(Start(audio), cfg, acts).s.thread == Done(true)
    requires After(Start(audio), cfg, acts).videoIn == MergeAll(ps, None)
    requires ps != [] && IsConfig(ps[0])
    ensures Sources(After(Start(audio), cfg, acts).s.videoOut) == HeadedMedia(ps, |ps|)
  {
    var h := After(Start(audio), cfg, acts);
    var merged := MergeAll(ps, None);
    CompleteRecording(cfg, audio, acts);
    MergeHeadsMedia(ps);
    assert merged[..|ps|] == merged;
    MergedMedia(ps, merged, |ps|);
    assert merged[0] == Headed(ps, 0);
    assert [] + OptMedia(merged[0]) == [];
  }
}
