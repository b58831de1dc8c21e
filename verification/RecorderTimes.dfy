/** What is written of each packet: which timestamp, counted from which origin, and that the header,
    the queues and the end of the file each had to be as they were. */
module RecorderTimes {
  import opened Wrappers
  import opened Recorder
  import opened RecorderRuns
  import opened RecorderEndings

  // ---- timestamps

  /** Each written timestamp is the scaled time since the origin, unless that does not exceed the one
      before it; then it is one more than that. */
  ghost predicate Stamped(ws: seq<Written>, scale: int -> int, origin: int) {
    && (ws != [] ==> ws[0].pts == scale(Time(ws[0].src) - origin))
    && (forall i, j :: 0 <= i < j < |ws| && j == i + 1 ==>
          ws[j].pts == if scale(Time(ws[j].src) - origin) > ws[i].pts then scale(Time(ws[j].src) - origin) else ws[i].pts + 1)
  }

  ghost predicate StampsOk(s: State, cfg: Setup) {
    if s.origin.None? then s.videoOut == [] && s.audioOut == [] && s.previous.None?
    else
      && Stamped(s.videoOut, cfg.videoScale, s.origin.value)
      && Stamped(s.audioOut, cfg.audioScale, s.origin.value)
  }

  lemma StampOne(ws: seq<Written>, last: Option<int>, scale: int -> int, origin: int, w: Written)
    requires Stamped(ws, scale, origin) && TimesOk(ws, last) && w.pts == Repaired(last, scale(Time(w.src) - origin))
    ensures Stamped(ws + [w], scale, origin)
  {
  }

  lemma VideoStamps(s: State, s': State, cfg: Setup, v: Packet, ok: bool)
    requires StampsOk(s, cfg) && TimesOk(s.videoOut, s.videoLast) && DurationsOk(s)
    requires !IsConfig(v) && s.origin.Some? && s' == HandleVideo(s, cfg, v, s.origin.value, ok)
    ensures StampsOk(s', cfg)
  {
    if s.previous.Some? {
      StampOne(s.videoOut, s.videoLast, cfg.videoScale, s.origin.value, s'.videoOut[|s.videoOut|]);
    }
  }

  lemma AudioStamps(s: State, s': State, cfg: Setup, a: Packet, ok: bool)
    requires StampsOk(s, cfg) && TimesOk(s.audioOut, s.audioLast)
    requires !IsConfig(a) && s.origin.Some? && s' == HandleAudio(s, cfg, a, s.origin.value, ok)
    ensures StampsOk(s', cfg)
  {
    StampOne(s.audioOut, s.audioLast, cfg.audioScale, s.origin.value, s'.audioOut[|s.audioOut|]);
  }

  lemma FirstStamps(s: State, s1: State, cfg: Setup, ok: bool)
    requires StampsOk(s, cfg) && OutOk(s) && OnlyMedia(s) && s.origin.Some? && s1 == RecordFirst(s, cfg, ok)
    ensures StampsOk(s1, cfg)
  {
    if s.videoPkt.Some? { VideoStamps(s, s1, cfg, s.videoPkt.value, ok); }
  }

  lemma SecondStamps(s: State, s': State, cfg: Setup, ok: bool)
    requires StampsOk(s, cfg) && TimesOk(s.audioOut, s.audioLast) && OnlyMedia(s) && s.origin.Some? && s' == RecordSecond(s, cfg, ok)
    ensures StampsOk(s', cfg)
  {
    if s.audioPkt.Some? && !s.thread.Done? { AudioStamps(s, s', cfg, s.audioPkt.value, ok); }
  }

  lemma RecordStamps(s: State, s': State, cfg: Setup, videoOk: bool, audioOk: bool)
    requires StampsOk(s, cfg) && OutOk(s) && s.thread == AtQueues && OnlyMedia(s) && s.origin.Some? && s' == Record(s, cfg, videoOk, audioOk)
    ensures StampsOk(s', cfg)
  {
    var s1 := RecordFirst(s, cfg, videoOk);
    FirstStamps(s, s1, cfg, videoOk);
    FirstOut(s, s1, cfg, videoOk);
    SecondStamps(s1, s', cfg, audioOk);
  }

  lemma DropStamps(s: State, s1: State, cfg: Setup, origin: int)
    requires StampsOk(s, cfg) && (s.origin.Some? ==> s.origin == Some(origin))
    requires s1 == DropConfigs(s).(origin := Some(origin))
    ensures StampsOk(s1, cfg) && OnlyMedia(s1) && s1.thread == AtQueues
  {
  }

  lemma QuietTurnStamps(s: State, s': State, cfg: Setup)
    requires StampsOk(s, cfg) && (s' == DropConfigs(s) || s' == DropConfigs(s).(thread := Done(false)))
    ensures StampsOk(s', cfg)
  {
  }

  lemma TurnStamps(s: State, s': State, cfg: Setup, videoOk: bool, audioOk: bool)
    requires StampsOk(s, cfg) && OutOk(s) && s.thread == Handling && s' == Handle(s, cfg, videoOk, audioOk)
    ensures StampsOk(s', cfg)
  {
    var known, origin := HandleCases(s, s', cfg, videoOk, audioOk);
    if known {
      var s1 := DropConfigs(s).(origin := Some(origin));
      DropStamps(s, s1, cfg, origin);
      DropOut(s, s1, s1.origin);
      RecordStamps(s1, s', cfg, videoOk, audioOk);
    } else {
      QuietTurnStamps(s, s', cfg);
    }
  }

  lemma FinishStamps(s: State, s': State, cfg: Setup, videoOk: bool, trailerOk: bool)
    requires StampsOk(s, cfg) && OutOk(s) && s.thread == AtEnd && s' == Finish(s, cfg, videoOk, trailerOk)
    ensures StampsOk(s', cfg)
  {
    if s.previous.Some? {
      StampOne(s.videoOut, s.videoLast, cfg.videoScale, s.origin.value, s'.videoOut[|s.videoOut|]);
    }
  }

  lemma QuietStamps(h: History, h': History, cfg: Setup, a: Action)
    requires Enabled(h.s, cfg, a) && h' == Step(h, cfg, a) && !a.Handles? && !a.Finishes?
    ensures h'.s.videoOut == h.s.videoOut && h'.s.audioOut == h.s.audioOut && h'.s.previous == h.s.previous && h'.s.origin == h.s.origin
  {
    match a
    case TakesHeader => HeaderKeeps(h.s, h'.s, cfg);
    case WritesHeader(ok) =>
    case Takes =>
    case PushesVideo(p) =>
    case PushesAudio(p) =>
    case OpensVideo =>
    case OpensAudio(e) =>
    case DisablesAudio =>
    case Stops =>
  }

  lemma StepStamps(h: History, h': History, cfg: Setup, a: Action)
    requires StampsOk(h.s, cfg) && OutOk(h.s) && Enabled(h.s, cfg, a) && h' == Step(h, cfg, a)
    ensures StampsOk(h'.s, cfg)
  {
    match a
    case Handles(videoOk, audioOk) => TurnStamps(h.s, h'.s, cfg, videoOk, audioOk);
    case Finishes(videoOk, trailerOk) => FinishStamps(h.s, h'.s, cfg, videoOk, trailerOk);
    case _ => QuietStamps(h, h', cfg, a);
  }

  // ---- the header

  predicate BeforeHeader(t: Thread) {
    t == AwaitingHeader || t.HasHeader?
  }

  /** What the header took was the first packet of its stream, and a config; the file goes on only
      with the header of every stream that needs one. */
  ghost predicate HeaderOk(h: History, cfg: Setup) {
    && (BeforeHeader(h.s.thread) ==> h.s.origin.None? && h.s.videoPkt.None? && h.s.audioPkt.None?)
    && (h.s.thread == AwaitingHeader ==> !h.videoHead && !h.audioHead)
    && (h.videoHead ==> h.videoIn != []) && (h.audioHead ==> h.audioIn != [] && h.s.expectsConfig)
    && (h.s.expectsConfig ==> h.s.audioInit)
    && (h.s.thread.HasHeader? ==>
          && h.s.thread.video == (if h.videoHead then Some(h.videoIn[0]) else None)
          && h.s.thread.audio == (if h.audioHead then Some(h.audioIn[0]) else None))
    && (h.s.thread != AwaitingHeader && h.s.thread != Done(false) ==>
          && (cfg.video ==> h.videoHead)
          && (!h.s.stopped ==> (cfg.video ==> h.s.videoInit) && (h.s.audio ==> h.s.audioInit)
                               && (h.s.audio && h.s.expectsConfig ==> h.audioHead)))
    && (!BeforeHeader(h.s.thread) && h.s.thread != Done(false) ==>
          (h.videoHead ==> IsConfig(h.videoIn[0])) && (h.audioHead ==> IsConfig(h.audioIn[0])))
    && (h.s.thread == Handling ==> h.s.videoPkt.Some? || h.s.audioPkt.Some?)
  }

  lemma TakesHeaderOk(h: History, h': History, cfg: Setup)
    requires HeaderOk(h, cfg) && VideoFlow(h) && AudioFlow(h) && Enabled(h.s, cfg, TakesHeader) && h' == Step(h, cfg, TakesHeader)
    ensures HeaderOk(h', cfg)
  {
  }

  lemma WritesHeaderOk(h: History, h': History, cfg: Setup, ok: bool)
    requires HeaderOk(h, cfg) && h.s.thread.HasHeader? && h' == Step(h, cfg, WritesHeader(ok))
    ensures HeaderOk(h', cfg)
  {
  }

  lemma TakesOk(h: History, h': History, cfg: Setup)
    requires HeaderOk(h, cfg) && Enabled(h.s, cfg, Takes) && h' == Step(h, cfg, Takes)
    ensures HeaderOk(h', cfg)
  {
  }

  /** The recorder past its header, with sinks, stop flag and history as they were. */
  lemma TurnHeader(h: History, h': History, cfg: Setup)
    requires HeaderOk(h, cfg) && !BeforeHeader(h.s.thread) && h.s.thread != Done(false)
    requires h' == h.(s := h'.s) && !BeforeHeader(h'.s.thread) && h'.s.thread != Handling
    requires h'.s.stopped == h.s.stopped && h'.s.videoInit == h.s.videoInit && h'.s.audioInit == h.s.audioInit
    requires h'.s.audio == h.s.audio && h'.s.expectsConfig == h.s.expectsConfig
    ensures HeaderOk(h', cfg)
  {
  }

  lemma VideoSinks(s: State, s': State, cfg: Setup, v: Packet, origin: int, ok: bool)
    requires !IsConfig(v) && s' == HandleVideo(s, cfg, v, origin, ok)
    ensures s'.stopped == s.stopped && s'.videoInit == s.videoInit && s'.audioInit == s.audioInit
    ensures s'.audio == s.audio && s'.expectsConfig == s.expectsConfig && s'.origin == s.origin
    ensures s'.videoQueue == s.videoQueue && s'.audioQueue == s.audioQueue && s'.audioPkt == s.audioPkt
    ensures s'.videoPkt.Some? ==> s'.videoPkt == s.videoPkt
  {
  }

  lemma AudioSinks(s: State, s': State, cfg: Setup, a: Packet, origin: int, ok: bool)
    requires !IsConfig(a) && s' == HandleAudio(s, cfg, a, origin, ok)
    ensures s'.stopped == s.stopped && s'.videoInit == s.videoInit && s'.audioInit == s.audioInit
    ensures s'.audio == s.audio && s'.expectsConfig == s.expectsConfig && s'.origin == s.origin
    ensures s'.videoQueue == s.videoQueue && s'.audioQueue == s.audioQueue && s'.videoPkt == s.videoPkt
    ensures s'.audioPkt.Some? ==> s'.audioPkt == s.audioPkt
  {
  }

  lemma RecordSinks(s: State, s': State, cfg: Setup, videoOk: bool, audioOk: bool)
    requires OnlyMedia(s) && s.origin.Some? && s' == Record(s, cfg, videoOk, audioOk)
    ensures s'.stopped == s.stopped && s'.videoInit == s.videoInit && s'.audioInit == s.audioInit
    ensures s'.audio == s.audio && s'.expectsConfig == s.expectsConfig && s'.origin == s.origin
    ensures s'.videoQueue == s.videoQueue && s'.audioQueue == s.audioQueue
    ensures (s'.videoPkt.Some? ==> s.videoPkt.Some?) && (s'.audioPkt.Some? ==> s.audioPkt.Some?)
  {
    var s1 := RecordFirst(s, cfg, videoOk);
    if s.videoPkt.Some? { VideoSinks(s, s1, cfg, s.videoPkt.value, s.origin.value, videoOk); }
    if s1.audioPkt.Some? && !s1.thread.Done? { AudioSinks(s1, s', cfg, s1.audioPkt.value, s1.origin.value, audioOk); }
  }

  /** A turn, with the origin that it finds from the media at hand. */
  lemma TurnShape(s: State, s': State, cfg: Setup, videoOk: bool, audioOk: bool) returns (o: Origin)
    requires s' == Handle(s, cfg, videoOk, audioOk)
    ensures o == FindOrigin(s, cfg, MediaOnly(s.videoPkt), MediaOnly(s.audioPkt))
    ensures o.Known? ==> s' == Record(DropConfigs(s).(origin := Some(o.pts)), cfg, videoOk, audioOk)
    ensures !o.Known? ==> s' == DropConfigs(s).(thread := s'.thread) && s.origin.None?
    ensures s.origin.Some? ==> o == Known(s.origin.value)
  {
    o := FindOrigin(s, cfg, MediaOnly(s.videoPkt), MediaOnly(s.audioPkt));
  }

  /** Dropping configs leaves the sinks and their queues alone. */
  lemma DropSinks(s: State, s': State)
    requires s' == DropConfigs(s).(thread := s'.thread, origin := s'.origin)
    ensures SameSinks(s, s')
  {
  }

  ghost predicate SameSinks(s: State, s': State) {
    && s'.stopped == s.stopped && s'.videoInit == s.videoInit && s'.audioInit == s.audioInit
    && s'.audio == s.audio && s'.expectsConfig == s.expectsConfig
    && s'.videoQueue == s.videoQueue && s'.audioQueue == s.audioQueue
    && (s'.videoPkt.Some? ==> s.videoPkt.Some?) && (s'.audioPkt.Some? ==> s.audioPkt.Some?)
  }

  /** A turn of the loop leaves the sinks and their queues alone. */
  lemma TurnSinks(s: State, s': State, cfg: Setup, videoOk: bool, audioOk: bool)
    requires s' == Handle(s, cfg, videoOk, audioOk)
    ensures SameSinks(s, s')
    ensures var o := FindOrigin(s, cfg, MediaOnly(s.videoPkt), MediaOnly(s.audioPkt));
            s'.origin == if o.Known? then Some(o.pts) else None
    ensures s.origin.Some? ==> s'.origin == s.origin
  {
    var o := TurnShape(s, s', cfg, videoOk, audioOk);
    if o.Known? {
      var s1 := DropConfigs(s).(origin := Some(o.pts));
      DropSinks(s, s1);
      RecordSinks(s1, s', cfg, videoOk, audioOk);
    } else {
      DropSinks(s, s');
    }
  }

  lemma SinkHeader(h: History, h': History, cfg: Setup, a: Action)
    requires HeaderOk(h, cfg) && Enabled(h.s, cfg, a) && h' == Step(h, cfg, a)
    requires a.OpensVideo? || a.OpensAudio? || a.DisablesAudio? || a.PushesVideo? || a.PushesAudio? || a.Stops?
    ensures HeaderOk(h', cfg)
  {
  }

  lemma HandlesHeader(h: History, h': History, cfg: Setup, videoOk: bool, audioOk: bool)
    requires HeaderOk(h, cfg) && h.s.thread == Handling && h' == h.(s := Handle(h.s, cfg, videoOk, audioOk))
    ensures HeaderOk(h', cfg)
  {
    HandleEnds(h.s, h'.s, cfg, videoOk, audioOk);
    TurnSinks(h.s, h'.s, cfg, videoOk, audioOk);
    TurnHeader(h, h', cfg);
  }

  lemma FinishHeader(h: History, h': History, cfg: Setup, videoOk: bool, trailerOk: bool)
    requires HeaderOk(h, cfg) && h.s.thread == AtEnd && h' == h.(s := Finish(h.s, cfg, videoOk, trailerOk))
    ensures HeaderOk(h', cfg)
  {
    FinishSinks(h.s, h'.s, cfg, videoOk, trailerOk);
    TurnHeader(h, h', cfg);
  }

  lemma StepHeader(h: History, h': History, cfg: Setup, a: Action)
    requires HeaderOk(h, cfg) && VideoFlow(h) && AudioFlow(h) && Enabled(h.s, cfg, a) && h' == Step(h, cfg, a)
    ensures HeaderOk(h', cfg)
  {
    match a
    case TakesHeader => TakesHeaderOk(h, h', cfg);
    case WritesHeader(ok) => WritesHeaderOk(h, h', cfg, ok);
    case Takes => TakesOk(h, h', cfg);
    case Handles(videoOk, audioOk) => HandlesHeader(h, h', cfg, videoOk, audioOk);
    case Finishes(videoOk, trailerOk) => FinishHeader(h, h', cfg, videoOk, trailerOk);
    case _ => SinkHeader(h, h', cfg, a);
  }

  // ---- the origin

  /** The first media packet accepted, if there is one. */
  function FirstTime(ps: seq<Packet>): Option<int> {
    if Media(ps, []) == [] then None else Some(Time(Media(ps, [])[0]))
  }

  lemma FirstStays(ps: seq<Packet>, p: Packet)
    ensures FirstTime(ps).Some? ==> FirstTime(ps + [p]) == FirstTime(ps)
  {
    MediaOne(ps, [], p);
  }

  lemma {:induction false} MediaBehind(ps: seq<Packet>, done: seq<Packet>)
    ensures done <= Media(ps, done)
    decreases |ps|
  {
    if ps != [] { MediaBehind(ps[1..], done + OptMedia(ps[0])); }
  }

  /** With nothing written yet, a media packet at hand is the first one accepted. */
  lemma AtHandIsFirst(rest: seq<Packet>, pkt: Packet, queue: seq<Packet>)
    requires Flow(rest, [], None, Some(pkt), queue) && !IsConfig(pkt)
    ensures FirstTime(rest) == Some(pkt.pts.value)
  {
    assert Taken([], None, Some(pkt)) == [pkt];
    MediaBehind(queue, [pkt]);
  }

  /** The config that the header took is not media. */
  lemma RestMedia(ps: seq<Packet>, head: bool)
    requires head ==> ps != [] && IsConfig(ps[0])
    ensures Media(Rest(ps, head), []) == Media(ps, [])
  {
    if head { assert [] + OptMedia(ps[0]) == []; }
  }

  /** The origin is the time of the first media packet of one of the streams: of the earlier one of
      the two while both are recorded and the recorder is not stopped, and never after the first of
      the video. `audio` says whether the recording was set up with audio. */
  ghost predicate OriginOk(h: History, cfg: Setup, audio: bool) {
    && (h.s.audio ==> audio)
    && (!cfg.video ==> h.s.videoQueue == [] && h.s.videoPkt.None?)
    && (!audio ==> h.s.audioQueue == [] && h.s.audioPkt.None?)
    && (h.s.origin.Some? && h.s.thread != Done(false) ==>
          var v, a, x := FirstTime(h.videoIn), FirstTime(h.audioIn), h.s.origin.value;
          && (!cfg.video ==> a == Some(x))
          && (cfg.video && !audio ==> v == Some(x))
          && (cfg.video ==> v.Some? && x <= v.value && (v == Some(x) || a == Some(x)))
          && (cfg.video && h.s.audio && !h.s.stopped ==> v.Some? && a.Some? && x <= v.value && x <= a.value))
  }

  lemma FindsOrigin(s: State, cfg: Setup, v: Option<int>, a: Option<int>, audio: bool)
    requires s.origin.None? && (s.audio ==> audio)
    requires MediaOnly(s.videoPkt).Some? ==> v == Some(s.videoPkt.value.pts.value)
    requires MediaOnly(s.audioPkt).Some? ==> a == Some(s.audioPkt.value.pts.value)
    requires !cfg.video ==> s.videoPkt.None?
    requires !audio ==> s.audioPkt.None?
    ensures var o := FindOrigin(s, cfg, MediaOnly(s.videoPkt), MediaOnly(s.audioPkt));
            o.Known? ==>
              && (!cfg.video ==> a == Some(o.pts))
              && (cfg.video && !audio ==> v == Some(o.pts))
              && (cfg.video ==> v.Some? && o.pts <= v.value && (v == Some(o.pts) || a == Some(o.pts)))
              && (cfg.video && s.audio && !s.stopped ==> v.Some? && a.Some? && o.pts <= v.value && o.pts <= a.value)
  {
  }

  /** What a turn that fixes the origin has at hand. */
  lemma TurnOrigin(h: History, h': History, cfg: Setup, audio: bool, videoOk: bool, audioOk: bool)
    requires OriginOk(h, cfg, audio) && HeaderOk(h, cfg) && VideoFlow(h) && AudioFlow(h) && StampsOk(h.s, cfg)
    requires h.s.thread == Handling && h' == h.(s := Handle(h.s, cfg, videoOk, audioOk))
    ensures OriginOk(h', cfg, audio)
  {
    TurnSinks(h.s, h'.s, cfg, videoOk, audioOk);
    if h.s.origin.None? {
      RestMedia(h.videoIn, h.videoHead);
      RestMedia(h.audioIn, h.audioHead);
      if MediaOnly(h.s.videoPkt).Some? { AtHandIsFirst(Rest(h.videoIn, h.videoHead), h.s.videoPkt.value, h.s.videoQueue); }
      if MediaOnly(h.s.audioPkt).Some? { AtHandIsFirst(Rest(h.audioIn, h.audioHead), h.s.audioPkt.value, h.s.audioQueue); }
      FindsOrigin(h.s, cfg, FirstTime(h.videoIn), FirstTime(h.audioIn), audio);
    }
  }

  lemma PushOrigin(h: History, h': History, cfg: Setup, audio: bool, a: Action)
    requires OriginOk(h, cfg, audio) && (a.PushesVideo? || a.PushesAudio?) && Enabled(h.s, cfg, a) && h' == Step(h, cfg, a)
    ensures OriginOk(h', cfg, audio)
  {
    FirstStays(h.videoIn, a.p);
    FirstStays(h.audioIn, a.p);
  }

  lemma QuietOrigin(h: History, h': History, cfg: Setup, audio: bool)
    requires OriginOk(h, cfg, audio) && h'.videoIn == h.videoIn && h'.audioIn == h.audioIn && h'.s.origin == h.s.origin
    requires (h'.s.audio ==> h.s.audio) && (h.s.stopped ==> h'.s.stopped)
    requires h.s.thread == Done(false) ==> h'.s.thread == Done(false)
    requires (h.s.videoQueue == [] && h.s.videoPkt.None? ==> h'.s.videoQueue == [] && h'.s.videoPkt.None?)
    requires (h.s.audioQueue == [] && h.s.audioPkt.None? ==> h'.s.audioQueue == [] && h'.s.audioPkt.None?)
    ensures OriginOk(h', cfg, audio)
  {
  }

  lemma FinishSinks(s: State, s': State, cfg: Setup, videoOk: bool, trailerOk: bool)
    requires s' == Finish(s, cfg, videoOk, trailerOk)
    ensures s'.stopped == s.stopped && s'.audio == s.audio && s'.origin == s.origin && s'.thread.Done?
    ensures s'.videoInit == s.videoInit && s'.audioInit == s.audioInit && s'.expectsConfig == s.expectsConfig
    ensures s'.videoQueue == s.videoQueue && s'.audioQueue == s.audioQueue && s'.videoPkt == s.videoPkt && s'.audioPkt == s.audioPkt
  {
  }

  lemma FinishOrigin(h: History, h': History, cfg: Setup, audio: bool, videoOk: bool, trailerOk: bool)
    requires OriginOk(h, cfg, audio) && h.s.thread == AtEnd && h' == h.(s := Finish(h.s, cfg, videoOk, trailerOk))
    ensures OriginOk(h', cfg, audio)
  {
    FinishSinks(h.s, h'.s, cfg, videoOk, trailerOk);
    QuietOrigin(h, h', cfg, audio);
  }

  lemma HeaderOrigin(h: History, h': History, cfg: Setup, audio: bool)
    requires OriginOk(h, cfg, audio) && Enabled(h.s, cfg, TakesHeader) && h' == Step(h, cfg, TakesHeader)
    ensures OriginOk(h', cfg, audio)
  {
    HeaderKeeps(h.s, h'.s, cfg);
    HeaderSinks(h.s, h'.s, cfg);
    QuietOrigin(h, h', cfg, audio);
  }

  lemma HeaderSinks(s: State, s': State, cfg: Setup)
    requires s' == TakeHeader(s, cfg)
    ensures s'.stopped == s.stopped && s'.audio == s.audio && s'.videoPkt == s.videoPkt && s'.audioPkt == s.audioPkt
    ensures (s.videoQueue == [] ==> s'.videoQueue == []) && (s.audioQueue == [] ==> s'.audioQueue == [])
  {
  }

  lemma WrittenOrigin(h: History, h': History, cfg: Setup, audio: bool, ok: bool)
    requires OriginOk(h, cfg, audio) && h.s.thread.HasHeader? && h' == h.(s := WriteHeader(h.s, ok))
    ensures OriginOk(h', cfg, audio)
  {
    QuietOrigin(h, h', cfg, audio);
  }

  lemma TakesOrigin(h: History, h': History, cfg: Setup, audio: bool)
    requires OriginOk(h, cfg, audio) && h.s.thread == AtQueues && h' == h.(s := Take(h.s))
    ensures OriginOk(h', cfg, audio)
  {
    QuietOrigin(h, h', cfg, audio);
  }

  lemma OtherOrigin(h: History, h': History, cfg: Setup, audio: bool, a: Action)
    requires OriginOk(h, cfg, audio) && Enabled(h.s, cfg, a) && h' == Step(h, cfg, a)
    requires !a.Handles? && !a.Finishes? && !a.PushesVideo? && !a.PushesAudio? && !a.TakesHeader?
    ensures OriginOk(h', cfg, audio)
  {
    match a
    case WritesHeader(ok) => WrittenOrigin(h, h', cfg, audio, ok);
    case Takes => TakesOrigin(h, h', cfg, audio);
    case OpensVideo => QuietOrigin(h, h', cfg, audio);
    case OpensAudio(e) => QuietOrigin(h, h', cfg, audio);
    case DisablesAudio => QuietOrigin(h, h', cfg, audio);
    case Stops => QuietOrigin(h, h', cfg, audio);
  }

  lemma StepOrigin(h: History, h': History, cfg: Setup, audio: bool, a: Action)
    requires OriginOk(h, cfg, audio) && HeaderOk(h, cfg) && VideoFlow(h) && AudioFlow(h) && StampsOk(h.s, cfg)
    requires Enabled(h.s, cfg, a) && h' == Step(h, cfg, a)
    ensures OriginOk(h', cfg, audio)
  {
    if a.Handles? {
      TurnOrigin(h, h', cfg, audio, a.videoOk, a.audioOk);
    } else if a.Finishes? {
      FinishOrigin(h, h', cfg, audio, a.videoOk, a.trailerOk);
    } else if a.PushesVideo? || a.PushesAudio? {
      PushOrigin(h, h', cfg, audio, a);
    } else if a.TakesHeader? {
      HeaderOrigin(h, h', cfg, audio);
    } else {
      OtherOrigin(h, h', cfg, audio, a);
    }
  }

  predicate HasMedia(p: Option<Packet>) {
    p.Some? && p.value.pts.Some?
  }

  /** A turn without an origin yet finds one exactly if it has media at hand of both recorded streams,
      of the only one, or of the video of a stopped recorder; and that is the earlier time of the two,
      or the time there is. */
  lemma TurnFindsOrigin(s: State, s': State, cfg: Setup, videoOk: bool, audioOk: bool)
    requires s.origin.None? && s' == Handle(s, cfg, videoOk, audioOk)
    ensures var v, a := HasMedia(s.videoPkt), HasMedia(s.audioPkt);
            && (v && a && cfg.video && s.audio ==>
                  s'.origin == if s.videoPkt.value.pts.value < s.audioPkt.value.pts.value then s.videoPkt.value.pts else s.audioPkt.value.pts)
            && (v && !s.audio ==> s'.origin == s.videoPkt.value.pts)
            && (a && !cfg.video && (s.audio || !v) ==> s'.origin == s.audioPkt.value.pts)
            && (v && !a && s.audio && cfg.video ==> s'.origin == if s.stopped then s.videoPkt.value.pts else None)
            && (!v && (!a || cfg.video) ==> s'.origin == None)
  {
    TurnSinks(s, s', cfg, videoOk, audioOk);
  }

  /** A failed write is the last one of its turn, and ends the recording. */
  lemma FailedWriteIsLast(s: State, s': State, cfg: Setup, videoOk: bool, audioOk: bool)
    requires s' == Handle(s, cfg, videoOk, audioOk)
    ensures s.videoOut <= s'.videoOut && s.audioOut <= s'.audioOut
    ensures |s'.videoOut| > |s.videoOut| && !s'.videoOut[|s.videoOut|].ok ==> s'.thread == Done(false) && s'.audioOut == s.audioOut
    ensures |s'.audioOut| > |s.audioOut| && !s'.audioOut[|s.audioOut|].ok ==> s'.thread == Done(false)
  {
    var o := TurnShape(s, s', cfg, videoOk, audioOk);
    if o.Known? { FailedRecordIsLast(DropConfigs(s).(origin := Some(o.pts)), s', cfg, videoOk, audioOk); }
  }

  lemma FailedRecordIsLast(s: State, s': State, cfg: Setup, videoOk: bool, audioOk: bool)
    requires OnlyMedia(s) && s.origin.Some? && s' == Record(s, cfg, videoOk, audioOk)
    ensures s.videoOut <= s'.videoOut && s.audioOut <= s'.audioOut
    ensures |s'.videoOut| > |s.videoOut| && !s'.videoOut[|s.videoOut|].ok ==> s'.thread == Done(false) && s'.audioOut == s.audioOut
    ensures |s'.audioOut| > |s.audioOut| && !s'.audioOut[|s.audioOut|].ok ==> s'.thread == Done(false)
  {
    var s1 := RecordFirst(s, cfg, videoOk);
    if s.videoPkt.Some? { VideoWrites(s, s1, cfg, s.videoPkt.value, s.origin.value, videoOk); }
    if s1.audioPkt.Some? && !s1.thread.Done? { AudioWrites(s1, s', cfg, s1.audioPkt.value, s1.origin.value, audioOk); }
  }

  lemma VideoWrites(s: State, s': State, cfg: Setup, v: Packet, origin: int, ok: bool)
    requires !IsConfig(v) && s' == HandleVideo(s, cfg, v, origin, ok)
    ensures s.videoOut <= s'.videoOut && s'.audioOut == s.audioOut
    ensures |s'.videoOut| > |s.videoOut| && !s'.videoOut[|s.videoOut|].ok ==> s'.thread == Done(false)
  {
  }

  lemma AudioWrites(s: State, s': State, cfg: Setup, a: Packet, origin: int, ok: bool)
    requires !IsConfig(a) && s' == HandleAudio(s, cfg, a, origin, ok)
    ensures s.audioOut <= s'.audioOut && s'.videoOut == s.videoOut
    ensures |s'.audioOut| > |s.audioOut| && !s'.audioOut[|s.audioOut|].ok ==> s'.thread == Done(false)
    ensures s'.thread == s.thread || s'.thread == Done(false)
  {
  }

  // ---- over runs

  ghost predicate FileOk(h: History, cfg: Setup, audio: bool) {
    Inv(h) && StampsOk(h.s, cfg) && HeaderOk(h, cfg) && OriginOk(h, cfg, audio)
  }

  lemma StepFile(h: History, h': History, cfg: Setup, audio: bool, a: Action)
    requires FileOk(h, cfg, audio) && Enabled(h.s, cfg, a) && h' == Step(h, cfg, a)
    ensures FileOk(h', cfg, audio)
  {
    FlowStep(h, h', cfg, a);
    OutStep(h, h', cfg, a);
    StepStamps(h, h', cfg, a);
    StepHeader(h, h', cfg, a);
    StepOrigin(h, h', cfg, audio, a);
  }

  lemma {:induction false} RunFile(h: History, cfg: Setup, audio: bool, acts: seq<Action>)
    requires FileOk(h, cfg, audio) && IsRun(h, cfg, acts)
    ensures FileOk(After(h, cfg, acts), cfg, audio)
    decreases |acts|
  {
    if acts != [] {
      StepFile(h, Step(h, cfg, acts[0]), cfg, audio, acts[0]);
      RunFile(Step(h, cfg, acts[0]), cfg, audio, acts[1..]);
    }
  }

  /** In any run, every packet written, of either stream, is stamped with its scaled time since the
      one origin, or one past its predecessor where that would not increase. */
  lemma StampsAreScaledTimes(cfg: Setup, audio: bool, acts: seq<Action>, s: State)
    requires IsRun(Start(audio), cfg, acts) && s == After(Start(audio), cfg, acts).s
    ensures if s.origin.Some?
            then Stamped(s.videoOut, cfg.videoScale, s.origin.value) && Stamped(s.audioOut, cfg.audioScale, s.origin.value)
            else s.videoOut == [] && s.audioOut == []
  {
    FileOf(cfg, audio, acts);
  }

  lemma StartFile(cfg: Setup, audio: bool)
    ensures FileOk(Start(audio), cfg, audio)
  {
    StartInv(audio);
  }

  lemma FileOf(cfg: Setup, audio: bool, acts: seq<Action>)
    requires IsRun(Start(audio), cfg, acts)
    ensures var h := After(Start(audio), cfg, acts); StampsOk(h.s, cfg) && HeaderOk(h, cfg) && OriginOk(h, cfg, audio)
  {
    StartFile(cfg, audio);
    RunFile(Start(audio), cfg, audio, acts);
  }

  /** The scaled times of these packets increase. */
  ghost predicate Rising(ws: seq<Written>, scale: int -> int, origin: int) {
    forall i, j :: 0 <= i < j < |ws| && j == i + 1 ==> scale(Time(ws[i].src) - origin) < scale(Time(ws[j].src) - origin)
  }

  lemma {:induction false} RisingStays(ws: seq<Written>, scale: int -> int, origin: int, n: nat)
    requires Stamped(ws, scale, origin) && n < |ws| && Rising(ws, scale, origin)
    ensures ws[n].pts == scale(Time(ws[n].src) - origin)
  {
    if n > 0 { RisingStays(ws, scale, origin, n - 1); }
  }

  /** Timestamps that increase after scaling are written unchanged. */
  lemma RisingTimesAreKept(cfg: Setup, audio: bool, acts: seq<Action>, s: State, n: nat)
    requires IsRun(Start(audio), cfg, acts) && s == After(Start(audio), cfg, acts).s && s.origin.Some?
    ensures n < |s.videoOut| && Rising(s.videoOut, cfg.videoScale, s.origin.value)
            ==> s.videoOut[n].pts == cfg.videoScale(Time(s.videoOut[n].src) - s.origin.value)
    ensures n < |s.audioOut| && Rising(s.audioOut, cfg.audioScale, s.origin.value)
            ==> s.audioOut[n].pts == cfg.audioScale(Time(s.audioOut[n].src) - s.origin.value)
  {
    StampsAreScaledTimes(cfg, audio, acts, s);
    if n < |s.videoOut| && Rising(s.videoOut, cfg.videoScale, s.origin.value) {
      RisingStays(s.videoOut, cfg.videoScale, s.origin.value, n);
    }
    if n < |s.audioOut| && Rising(s.audioOut, cfg.audioScale, s.origin.value) {
      RisingStays(s.audioOut, cfg.audioScale, s.origin.value, n);
    }
  }

  /** The origin is the time of a first media packet: with both streams, and until the recorder is
      stopped, of the earlier of the two first ones; with one stream, of its first. */
  lemma OriginIsEarliest(cfg: Setup, audio: bool, acts: seq<Action>, h: History)
    requires IsRun(Start(audio), cfg, acts) && h == After(Start(audio), cfg, acts)
    requires h.s.origin.Some? && h.s.thread != Done(false)
    ensures var v, a, x := FirstTime(h.videoIn), FirstTime(h.audioIn), h.s.origin.value;
            && (!cfg.video ==> a == Some(x))
            && (cfg.video && !audio ==> v == Some(x))
            && (cfg.video ==> v.Some? && x <= v.value && (v == Some(x) || a == Some(x)))
            && (cfg.video && h.s.audio && !h.s.stopped ==> v.Some? && a.Some? && x <= v.value && x <= a.value)
  {
    FileOf(cfg, audio, acts);
  }

  /** Once known, the origin stays. */
  lemma {:induction false} OriginStays(h: History, cfg: Setup, acts: seq<Action>)
    requires IsRun(h, cfg, acts) && h.s.origin.Some?
    ensures After(h, cfg, acts).s.origin == h.s.origin
    decreases |acts|
  {
    if acts != [] {
      KeepsOrigin(h, Step(h, cfg, acts[0]), cfg, acts[0]);
      OriginStays(Step(h, cfg, acts[0]), cfg, acts[1..]);
    }
  }

  lemma KeepsOrigin(h: History, h': History, cfg: Setup, a: Action)
    requires Enabled(h.s, cfg, a) && h' == Step(h, cfg, a) && h.s.origin.Some?
    ensures h'.s.origin == h.s.origin
  {
    match a
    case Handles(videoOk, audioOk) => TurnSinks(h.s, h'.s, cfg, videoOk, audioOk);
    case Finishes(videoOk, trailerOk) => FinishSinks(h.s, h'.s, cfg, videoOk, trailerOk);
    case _ => QuietStamps(h, h', cfg, a);
  }

  /** A complete recording holds every media packet that its sinks accepted, per stream, once and in
      order: the header took no more than one config of each. A recorded video had its config. */
  lemma EveryMediaIsWritten(cfg: Setup, audio: bool, acts: seq<Action>)
    requires IsRun(Start(audio), cfg, acts) && After(Start(audio), cfg, acts).s.thread == Done(true)
    ensures var h := After(Start(audio), cfg, acts);
            && Sources(h.s.videoOut) == Media(h.videoIn, [])
            && Sources(h.s.audioOut) == Media(h.audioIn, [])
            && (cfg.video ==> h.videoIn != [] && IsConfig(h.videoIn[0]))
  {
    var h := After(Start(audio), cfg, acts);
    FileOf(cfg, audio, acts);
    CompleteRecording(cfg, audio, acts);
    RestMedia(h.videoIn, h.videoHead);
    RestMedia(h.audioIn, h.audioHead);
  }

  /** A file is written only once every stream is set up and has shown the config it needs, unless the
      recorder is stopped; even then a recorded video needs its config. */
  lemma HeaderWaitsForStreams(cfg: Setup, audio: bool, acts: seq<Action>, h: History)
    requires IsRun(Start(audio), cfg, acts) && h == After(Start(audio), cfg, acts)
    requires h.s.thread == AtQueues || h.s.thread == Handling || h.s.thread == AtEnd || h.s.thread == Done(true)
    ensures cfg.video ==> h.videoIn != [] && IsConfig(h.videoIn[0])
    ensures !h.s.stopped ==> (cfg.video ==> h.s.videoInit) && (h.s.audio ==> h.s.audioInit)
    ensures !h.s.stopped && h.s.audio && h.s.expectsConfig ==> h.audioIn != [] && IsConfig(h.audioIn[0])
  {
    FileOf(cfg, audio, acts);
  }

  /** The header takes one packet of the video and, if its codec has a config, one of the audio, and
      leaves everything else queued; it gives up only when the recorder was stopped before any video
      came. */
  lemma HeaderTakesHeads(s: State, s': State, cfg: Setup)
    requires Enabled(s, cfg, TakesHeader) && s' == TakeHeader(s, cfg)
    ensures s'.thread == Done(false) <==> cfg.video && s.videoQueue == []
    ensures s'.thread == Done(false) ==> s.stopped
    ensures s'.thread != Done(false) ==>
              && s'.thread.HasHeader?
              && s.videoQueue == (if s'.thread.video.Some? then [s'.thread.video.value] else []) + s'.videoQueue
              && s.audioQueue == (if s'.thread.audio.Some? then [s'.thread.audio.value] else []) + s'.audioQueue
              && (s'.thread.video.Some? <==> s.videoQueue != [])
              && (s'.thread.audio.Some? <==> s.expectsConfig && s.audioQueue != [])
  {
  }

  /** The file goes on exactly if what the header took are configs and the header was written. */
  lemma HeaderNeedsConfigs(s: State, ok: bool)
    requires s.thread.HasHeader?
    ensures var s' := WriteHeader(s, ok); var v, a := s.thread.video, s.thread.audio;
            && (s'.thread == AtQueues <==> ok && (v.Some? ==> v.value.pts == None) && (a.Some? ==> a.value.pts == None))
            && (s'.thread == AtQueues || s'.thread == Done(false))
            && s'.videoQueue == s.videoQueue && s'.audioQueue == s.audioQueue
  {
  }

  // ---- progress

  /** Some step of the thread is possible. */
  predicate Moves(s: State, cfg: Setup) {
    match s.thread
    case AwaitingHeader => Enabled(s, cfg, TakesHeader)
    case HasHeader(_, _) => Enabled(s, cfg, WritesHeader(true))
    case AtQueues => Enabled(s, cfg, Takes)
    case Handling => Enabled(s, cfg, Handles(true, true))
    case AtEnd => Enabled(s, cfg, Finishes(true, true))
    case Done(_) => false
  }

  /** The thread is never stuck with something to do: once stopped it always goes on; it takes a
      packet whenever one is queued for a hand that is free, and the header whenever every stream is
      set up and has the packets that the header may need. */
  lemma RecorderGoesOn(s: State, cfg: Setup)
    ensures s.stopped && !s.thread.Done? ==> Moves(s, cfg)
    ensures s.thread == AtQueues && cfg.video && s.videoPkt.None? && s.videoQueue != [] ==> Moves(s, cfg)
    ensures s.thread == AtQueues && s.audio && s.audioPkt.None? && s.audioQueue != [] ==> Moves(s, cfg)
    ensures s.thread == AwaitingHeader && (cfg.video ==> s.videoInit && s.videoQueue != [])
            && (s.audio ==> s.audioInit && (s.expectsConfig ==> s.audioQueue != []))
            ==> Moves(s, cfg)
  {
  }

  /** Each turn of the loop has a packet at hand. */
  lemma TurnHasPacket(cfg: Setup, audio: bool, acts: seq<Action>, s: State)
    requires IsRun(Start(audio), cfg, acts) && s == After(Start(audio), cfg, acts).s && s.thread == Handling
    ensures s.videoPkt.Some? || s.audioPkt.Some?
  {
    FileOf(cfg, audio, acts);
  }

  /** A sink accepts its packet exactly if the recorder is not stopped. */
  lemma SinksAcceptUntilStopped(h: History, cfg: Setup, a: Action)
    requires Enabled(h.s, cfg, a) && (a.PushesVideo? || a.PushesAudio?)
    ensures var h' := Step(h, cfg, a);
            if h.s.stopped then h' == h
            else if a.PushesVideo?
            then h' == h.(videoIn := h.videoIn + [a.p], s := h.s.(videoQueue := h.s.videoQueue + [a.p]))
            else h' == h.(audioIn := h.audioIn + [a.p], s := h.s.(audioQueue := h.s.audioQueue + [a.p]))
  {
  }

  /** Taking fills every free hand that its queue can fill, and ends only with nothing left. */
  lemma TakingTakesAll(h: History, cfg: Setup)
    requires Enabled(h.s, cfg, Takes)
    ensures var s, s' := h.s, Step(h, cfg, Takes).s;
            && (s'.videoPkt.None? ==> s'.videoQueue == []) && (s'.audioPkt.None? ==> s'.audioQueue == [])
            && (s.videoPkt.Some? ==> s'.videoPkt == s.videoPkt && s'.videoQueue == s.videoQueue)
            && (s.audioPkt.Some? ==> s'.audioPkt == s.audioPkt && s'.audioQueue == s.audioQueue)
            && (s'.thread == AtEnd <==> s.stopped && s'.videoPkt.None? && s'.audioPkt.None?)
  {
  }

  /** Only the trailer's success completes a recording. */
  lemma OnlyTrailerCompletes(h: History, cfg: Setup, a: Action)
    requires Enabled(h.s, cfg, a) && h.s.thread != Done(true)
    ensures Step(h, cfg, a).s.thread == Done(true) <==> a.Finishes? && a.trailerOk
  {
    match a
    case Handles(videoOk, audioOk) => HandleEnds(h.s, Step(h, cfg, a).s, cfg, videoOk, audioOk);
    case TakesHeader => HeaderKeeps(h.s, Step(h, cfg, a).s, cfg);
    case _ =>
  }
}
