/** When a recording that was stopped gives up, and what it loses by that. */
module RecorderEndings {
  import opened Wrappers
  import opened Recorder
  import opened RecorderRuns

  /** The guard with which a turn of the loop gives up: stopped before the origin is known, and the
      packets at hand give none. A config packet at hand gives none. */
  predicate GivesUp(s: State, cfg: Setup) {
    s.stopped && s.origin.None? && MediaOnly(s.videoPkt).None? && (cfg.video || MediaOnly(s.audioPkt).None?)
  }

  /** Every outcome the action brings from outside is a success. */
  predicate Succeeds(a: Action) {
    match a
    case WritesHeader(ok) => ok
    case Handles(videoOk, audioOk) => videoOk && audioOk
    case Finishes(_, trailerOk) => trailerOk
    case _ => true
  }

  // ---- one turn

  lemma VideoMoves(s: State, s': State, cfg: Setup, v: Packet, origin: int, ok: bool)
    requires !IsConfig(v) && s' == HandleVideo(s, cfg, v, origin, ok)
    ensures s'.origin == s.origin && s'.audioPkt == s.audioPkt && s'.stopped == s.stopped
    ensures ok ==> s'.thread == s.thread
  {
  }

  lemma AudioMoves(s: State, s': State, cfg: Setup, a: Packet, origin: int, ok: bool)
    requires !IsConfig(a) && s' == HandleAudio(s, cfg, a, origin, ok)
    ensures s'.origin == s.origin && s'.stopped == s.stopped
    ensures ok ==> s'.thread == s.thread
  {
  }

  lemma RecordMoves(s: State, s': State, cfg: Setup, videoOk: bool, audioOk: bool)
    requires OnlyMedia(s) && s.origin.Some? && s' == Record(s, cfg, videoOk, audioOk)
    ensures s'.origin == s.origin && s'.stopped == s.stopped
    ensures videoOk && audioOk ==> s'.thread == s.thread
  {
    var s1 := RecordFirst(s, cfg, videoOk);
    if s.videoPkt.Some? { VideoMoves(s, s1, cfg, s.videoPkt.value, s.origin.value, videoOk); }
    if s1.audioPkt.Some? && !s1.thread.Done? { AudioMoves(s1, s', cfg, s1.audioPkt.value, s1.origin.value, audioOk); }
  }

  /** What a turn does with the origin. */
  lemma TurnCases(s: State, s': State, cfg: Setup, videoOk: bool, audioOk: bool) returns (o: Origin)
    requires s' == Handle(s, cfg, videoOk, audioOk)
    ensures o.Hopeless? <==> GivesUp(s, cfg)
    ensures match o
            case Hopeless => s' == DropConfigs(s).(thread := Done(false))
            case NotYet => s' == DropConfigs(s) && !s.stopped && s.origin.None?
            case Known(pts) => s' == Record(DropConfigs(s).(origin := Some(pts)), cfg, videoOk, audioOk)
  {
    var s1 := DropConfigs(s);
    o := FindOrigin(s1, cfg, s1.videoPkt, s1.audioPkt);
  }

  lemma TurnGivesUp(s: State, s': State, cfg: Setup)
    requires s' == Handle(s, cfg, true, true)
    ensures s'.stopped == s.stopped && s'.thread == if GivesUp(s, cfg) then Done(false) else AtQueues
    ensures s.stopped && !GivesUp(s, cfg) ==> s'.origin.Some?
  {
    var o := TurnCases(s, s', cfg, true, true);
    if o.Known? {
      RecordMoves(DropConfigs(s).(origin := Some(o.pts)), s', cfg, true, true);
    }
  }

  /** Once the header is written, a recording whose writes succeed fails at one point only: a turn of
      the loop that is stopped, knows no origin and has none at hand. */
  lemma FailsOnlyByGivingUp(h: History, h': History, cfg: Setup, a: Action)
    requires Enabled(h.s, cfg, a) && Succeeds(a) && h' == Step(h, cfg, a)
    requires h.s.thread == AtQueues || h.s.thread == Handling || h.s.thread == AtEnd
    ensures h'.s.thread == Done(false) <==> a.Handles? && GivesUp(h.s, cfg)
  {
    if a.Handles? { TurnGivesUp(h.s, h'.s, cfg); }
  }

  // ---- what is lost

  /** Before the origin is known nothing is written or held. */
  predicate Unwritten(s: State) {
    s.origin.None? ==> s.videoOut == [] && s.audioOut == [] && s.previous.None?
  }

  lemma TurnUnwritten(s: State, s': State, cfg: Setup, videoOk: bool, audioOk: bool)
    requires Unwritten(s) && s' == Handle(s, cfg, videoOk, audioOk)
    ensures Unwritten(s')
  {
    var o := TurnCases(s, s', cfg, videoOk, audioOk);
    if o.Known? {
      RecordMoves(DropConfigs(s).(origin := Some(o.pts)), s', cfg, videoOk, audioOk);
    }
  }

  lemma FinishUnwritten(s: State, s': State, cfg: Setup, videoOk: bool, trailerOk: bool)
    requires Unwritten(s) && s' == Finish(s, cfg, videoOk, trailerOk)
    ensures Unwritten(s')
  {
  }

  lemma UnwrittenStep(h: History, h': History, cfg: Setup, a: Action)
    requires Unwritten(h.s) && Enabled(h.s, cfg, a) && h' == Step(h, cfg, a)
    ensures Unwritten(h'.s)
  {
    match a
    case Handles(videoOk, audioOk) => TurnUnwritten(h.s, h'.s, cfg, videoOk, audioOk);
    case Finishes(videoOk, trailerOk) => FinishUnwritten(h.s, h'.s, cfg, videoOk, trailerOk);
    case TakesHeader => HeaderKeeps(h.s, h'.s, cfg);
    case _ =>
  }

  lemma {:induction false} RunUnwritten(h: History, cfg: Setup, acts: seq<Action>)
    requires Unwritten(h.s) && IsRun(h, cfg, acts)
    ensures Unwritten(After(h, cfg, acts).s)
    decreases |acts|
  {
    if acts != [] {
      UnwrittenStep(h, Step(h, cfg, acts[0]), cfg, acts[0]);
      RunUnwritten(Step(h, cfg, acts[0]), cfg, acts[1..]);
    }
  }

  /** With nothing written and no media at hand, the media accepted after the header is in the queue. */
  lemma AllQueued(rest: seq<Packet>, pkt: Option<Packet>, queue: seq<Packet>)
    requires Flow(rest, [], None, pkt, queue) && MediaOnly(pkt).None?
    ensures Media(queue, []) == Media(rest, [])
  {
    assert Taken([], None, pkt) == [];
  }

  /** In any run, a turn that gives up leaves a file without a packet: all the media accepted after the
      header, of the video and, where there is no video, of the audio, is still queued. */
  lemma GivingUpLosesAll(cfg: Setup, audio: bool, acts: seq<Action>, h: History, s': State, videoOk: bool, audioOk: bool)
    requires IsRun(Start(audio), cfg, acts) && h == After(Start(audio), cfg, acts) && h.s.thread == Handling
    requires GivesUp(h.s, cfg) && s' == Handle(h.s, cfg, videoOk, audioOk)
    ensures s'.thread == Done(false) && s'.videoOut == [] && s'.audioOut == []
    ensures Media(s'.videoQueue, []) == Media(Rest(h.videoIn, h.videoHead), [])
    ensures !cfg.video ==> Media(s'.audioQueue, []) == Media(Rest(h.audioIn, h.audioHead), [])
  {
    StartInv(audio);
    RunKeeps(Start(audio), cfg, acts);
    RunUnwritten(Start(audio), cfg, acts);
    GivingUpKeepsQueues(h, s', cfg, videoOk, audioOk);
  }

  lemma GivingUpKeepsQueues(h: History, s': State, cfg: Setup, videoOk: bool, audioOk: bool)
    requires VideoFlow(h) && AudioFlow(h) && Unwritten(h.s) && h.s.thread == Handling
    requires GivesUp(h.s, cfg) && s' == Handle(h.s, cfg, videoOk, audioOk)
    ensures s'.thread == Done(false) && s'.videoOut == [] && s'.audioOut == []
    ensures Media(s'.videoQueue, []) == Media(Rest(h.videoIn, h.videoHead), [])
    ensures !cfg.video ==> Media(s'.audioQueue, []) == Media(Rest(h.audioIn, h.audioHead), [])
  {
    var o := TurnCases(h.s, s', cfg, videoOk, audioOk);
    AllQueued(Rest(h.videoIn, h.videoHead), h.s.videoPkt, h.s.videoQueue);
    if !cfg.video { AllQueued(Rest(h.audioIn, h.audioHead), h.s.audioPkt, h.s.audioQueue); }
  }

  // ---- the fate of a stopped recording

  function Hand(pkt: Option<Packet>, queue: seq<Packet>): Option<Packet> {
    if pkt.None? && queue != [] then Some(queue[0]) else pkt
  }

  /** The packets that the next turn will have at hand give no origin, and there are some. */
  predicate NoneAhead(s: State, cfg: Setup) {
    var v, a := Hand(s.videoPkt, s.videoQueue), Hand(s.audioPkt, s.audioQueue);
    (v.Some? || a.Some?) && MediaOnly(v).None? && (cfg.video || MediaOnly(a).None?)
  }

  /** Whether a stopped recording is going to fail, read off what is at hand and at the head of the
      queues: without an origin yet, something is left, but the next video packet is not media, nor,
      where there is no video, the next audio packet. */
  predicate Doomed(s: State, cfg: Setup) {
    match s.thread
    case AtQueues => s.origin.None? && NoneAhead(s, cfg)
    case Handling => GivesUp(s, cfg)
    case Done(ok) => !ok
    case _ => false
  }

  predicate PastHeader(t: Thread) {
    t == AtQueues || t == Handling || t == AtEnd || t.Done?
  }

  lemma TakeFate(s: State, s': State, cfg: Setup)
    requires s.stopped && s.thread == AtQueues && s' == Take(s)
    ensures s'.stopped && PastHeader(s'.thread) && (Doomed(s', cfg) <==> Doomed(s, cfg))
  {
    assert s'.videoPkt == Hand(s.videoPkt, s.videoQueue) && s'.audioPkt == Hand(s.audioPkt, s.audioQueue);
  }

  lemma TurnFate(s: State, s': State, cfg: Setup)
    requires s.stopped && s.thread == Handling && s' == Handle(s, cfg, true, true)
    ensures s'.stopped && PastHeader(s'.thread) && (Doomed(s', cfg) <==> Doomed(s, cfg))
  {
    TurnGivesUp(s, s', cfg);
  }

  lemma FinishFate(s: State, s': State, cfg: Setup, videoOk: bool)
    requires s.stopped && s.thread == AtEnd && s' == Finish(s, cfg, videoOk, true)
    ensures s'.stopped && s'.thread == Done(true)
  {
  }

  /** The sinks cannot change it any more. */
  lemma SinkFate(h: History, h': History, cfg: Setup, a: Action)
    requires Enabled(h.s, cfg, a) && h' == Step(h, cfg, a) && h.s.stopped && PastHeader(h.s.thread)
    requires !a.Takes? && !a.Handles? && !a.Finishes?
    ensures h'.s.stopped && h'.s.thread == h.s.thread && (Doomed(h'.s, cfg) <==> Doomed(h.s, cfg))
  {
  }

  lemma FateStep(h: History, h': History, cfg: Setup, a: Action)
    requires Enabled(h.s, cfg, a) && Succeeds(a) && h' == Step(h, cfg, a) && h.s.stopped && PastHeader(h.s.thread)
    ensures h'.s.stopped && PastHeader(h'.s.thread) && (Doomed(h'.s, cfg) <==> Doomed(h.s, cfg))
  {
    match a
    case Takes => TakeFate(h.s, h'.s, cfg);
    case Handles(_, _) => TurnFate(h.s, h'.s, cfg);
    case Finishes(videoOk, _) => FinishFate(h.s, h'.s, cfg, videoOk);
    case _ => SinkFate(h, h', cfg, a);
  }

  /** The end of a stopped recording whose writes succeed is settled by then, whatever the sinks still
      try: when the thread has ended, it has failed if and only if it was doomed. */
  lemma {:induction false} StoppedRecordingFails(h: History, cfg: Setup, acts: seq<Action>)
    requires h.s.stopped && PastHeader(h.s.thread)
    requires IsRun(h, cfg, acts) && forall i :: 0 <= i < |acts| ==> Succeeds(acts[i])
    requires After(h, cfg, acts).s.thread.Done?
    ensures After(h, cfg, acts).s.thread == Done(false) <==> Doomed(h.s, cfg)
    decreases |acts|
  {
    if acts != [] {
      FateStep(h, Step(h, cfg, acts[0]), cfg, acts[0]);
      StoppedRecordingFails(Step(h, cfg, acts[0]), cfg, acts[1..]);
    }
  }

  // ---- such a recording

  lemma RunBefore(h: History, h': History, cfg: Setup, a: Action, acts: seq<Action>)
    requires Enabled(h.s, cfg, a) && h' == Step(h, cfg, a) && IsRun(h', cfg, acts)
    ensures IsRun(h, cfg, [a] + acts) && After(h, cfg, [a] + acts) == After(h', cfg, acts)
  {
    assert ([a] + acts)[1..] == acts;
  }

  /** Waiting with a config packet and a media packet in the queue, nothing written. */
  predicate ConfigFirst(h: History, config: Packet, media: Packet) {
    && IsConfig(config) && h.s.thread == AtQueues && h.s.videoQueue == [config, media] && h.s.audioQueue == []
    && h.s.videoPkt.None? && h.s.audioPkt.None? && Unwritten(h.s) && h.s.origin.None?
  }

  lemma StopLoses(h: History, cfg: Setup, config: Packet, media: Packet) returns (acts: seq<Action>)
    requires cfg.video && ConfigFirst(h, config, media)
    ensures IsRun(h, cfg, acts) && forall i :: 0 <= i < |acts| ==> Succeeds(acts[i])
    ensures var s := After(h, cfg, acts).s; s.thread == Done(false) && s.videoQueue == [media] && s.videoOut == []
  {
    var h1 := Step(h, cfg, Stops);
    var h2 := Step(h1, cfg, Takes);
    var h3 := Step(h2, cfg, Handles(true, true));
    var o := TurnCases(h2.s, h3.s, cfg, true, true);
    RunBefore(h2, h3, cfg, Handles(true, true), []);
    RunBefore(h1, h2, cfg, Takes, [Handles(true, true)]);
    RunBefore(h, h1, cfg, Stops, [Takes] + [Handles(true, true)]);
    acts := [Stops] + ([Takes] + [Handles(true, true)]);
  }

  /** The sink is open and three packets have come in. */
  predicate Filled(h: History, config: Packet, media: Packet) {
    && IsConfig(config) && h.s == Initial(false).(videoInit := true, videoQueue := [config, config, media])
    && h.videoIn == [config, config, media]
  }

  lemma HeaderTakesOne(h: History, cfg: Setup, config: Packet, media: Packet) returns (acts: seq<Action>)
    requires cfg.video && Filled(h, config, media)
    ensures IsRun(h, cfg, acts) && forall i :: 0 <= i < |acts| ==> Succeeds(acts[i])
    ensures var s := After(h, cfg, acts).s; s.thread == Done(false) && s.videoQueue == [media] && s.videoOut == []
  {
    var h1 := Step(h, cfg, TakesHeader);
    var h2 := Step(h1, cfg, WritesHeader(true));
    var rest := StopLoses(h2, cfg, config, media);
    RunBefore(h1, h2, cfg, WritesHeader(true), rest);
    RunBefore(h, h1, cfg, TakesHeader, [WritesHeader(true)] + rest);
    acts := [TakesHeader] + ([WritesHeader(true)] + rest);
  }

  /** A second config packet, and behind it in the queue a media packet that is never written. */
  lemma MediaBehindConfigIsLost(cfg: Setup, config: Packet, media: Packet) returns (acts: seq<Action>)
    requires cfg.video && IsConfig(config) && !IsConfig(media)
    ensures IsRun(Start(false), cfg, acts) && forall i :: 0 <= i < |acts| ==> Succeeds(acts[i])
    ensures var s := After(Start(false), cfg, acts).s; s.thread == Done(false) && s.videoQueue == [media] && s.videoOut == []
  {
    var h0 := Step(Start(false), cfg, OpensVideo);
    var h1 := Step(h0, cfg, PushesVideo(config));
    var h2 := Step(h1, cfg, PushesVideo(config));
    var h3 := Step(h2, cfg, PushesVideo(media));
    assert h3.s.videoQueue == [config, config, media];
    var rest := HeaderTakesOne(h3, cfg, config, media);
    RunBefore(h2, h3, cfg, PushesVideo(media), rest);
    RunBefore(h1, h2, cfg, PushesVideo(config), [PushesVideo(media)] + rest);
    RunBefore(h0, h1, cfg, PushesVideo(config), [PushesVideo(config)] + ([PushesVideo(media)] + rest));
    acts := [PushesVideo(config)] + ([PushesVideo(config)] + ([PushesVideo(media)] + rest));
    RunBefore(Start(false), h0, cfg, OpensVideo, acts);
    acts := [OpensVideo] + acts;
  }
}
