/** The recorder (scrcpy/app/src/recorder.c): two packet sinks, and a thread that writes the file.
    A missing timestamp (AV_NOPTS_VALUE) marks a config packet. The rescaling of timestamps and the
    outcome of every write are given from outside. */
module Recorder {
  import opened Wrappers

  datatype Packet = Packet(pts: Option<int>, data: seq<bv8>)

  predicate IsConfig(p: Packet) {
    p.pts.None?
  }

  /** The time base of each output stream. */
  datatype Setup = Setup(video: bool, videoScale: int -> int, audioScale: int -> int)

  /** A packet given to the muxer: its source, the written timestamp, its duration before rescaling. */
  datatype Written = Written(src: Packet, pts: int, duration: int, ok: bool)

  /** The video packet whose duration is not known yet, with its timestamp from the origin on. */
  datatype Held = Held(src: Packet, pts: int)

  datatype Thread =
    | AwaitingHeader
    | HasHeader(video: Option<Packet>, audio: Option<Packet>)
    | AtQueues
    | Handling
    | AtEnd
    | Done(success: bool)

  datatype State = State(
    audio: bool,
    expectsConfig: bool,
    videoInit: bool,
    audioInit: bool,
    stopped: bool,
    videoQueue: seq<Packet>,
    audioQueue: seq<Packet>,
    thread: Thread,
    origin: Option<int>,
    videoPkt: Option<Packet>,
    audioPkt: Option<Packet>,
    previous: Option<Held>,
    videoLast: Option<int>,
    audioLast: Option<int>,
    videoOut: seq<Written>,
    audioOut: seq<Written>)

  function Initial(audio: bool): State {
    State(audio, false, false, false, false, [], [], AwaitingHeader, None, None, None, None, None, None, [], [])
  }

  const LAST_DURATION := 100000

  // ---- the sinks

  function PushVideo(s: State, p: Packet): (State, bool) {
    if s.stopped then (s, false) else (s.(videoQueue := s.videoQueue + [p]), true)
  }

  function PushAudio(s: State, p: Packet): (State, bool) {
    if s.stopped then (s, false) else (s.(audioQueue := s.audioQueue + [p]), true)
  }

  // ---- the header

  /** sc_recorder_process_header keeps waiting. */
  predicate MustWait(s: State, cfg: Setup) {
    && !s.stopped
    && ((cfg.video && !s.videoInit)
        || (s.audio && !s.audioInit)
        || (cfg.video && s.videoQueue == [])
        || (s.audio && s.expectsConfig && s.audioQueue == []))
  }

  function TakeHeader(s: State, cfg: Setup): State {
    if cfg.video && s.videoQueue == [] then s.(thread := Done(false))
    else
      var v := if s.videoQueue != [] then Some(s.videoQueue[0]) else None;
      var a := if s.expectsConfig && s.audioQueue != [] then Some(s.audioQueue[0]) else None;
      s.(videoQueue := if v.Some? then s.videoQueue[1..] else s.videoQueue,
         audioQueue := if a.Some? then s.audioQueue[1..] else s.audioQueue,
         thread := HasHeader(v, a))
  }

  function WriteHeader(s: State, ok: bool): State
    requires s.thread.HasHeader?
  {
    var v, a := s.thread.video, s.thread.audio;
    if (v.Some? && !IsConfig(v.value)) || (a.Some? && !IsConfig(a.value)) || !ok then s.(thread := Done(false))
    else s.(thread := AtQueues)
  }

  // ---- the packets

  /** There is something to take, or the recorder is stopped. */
  predicate MayTake(s: State, cfg: Setup) {
    s.stopped || (cfg.video && s.videoPkt.None? && s.videoQueue != []) || (s.audio && s.audioPkt.None? && s.audioQueue != [])
  }

  function Take(s: State): State {
    var takesVideo := s.videoPkt.None? && s.videoQueue != [];
    var takesAudio := s.audioPkt.None? && s.audioQueue != [];
    var s1 := s.(videoPkt := if takesVideo then Some(s.videoQueue[0]) else s.videoPkt,
                 videoQueue := if takesVideo then s.videoQueue[1..] else s.videoQueue,
                 audioPkt := if takesAudio then Some(s.audioQueue[0]) else s.audioPkt,
                 audioQueue := if takesAudio then s.audioQueue[1..] else s.audioQueue);
    s1.(thread := if s1.stopped && s1.videoPkt.None? && s1.audioPkt.None? then AtEnd else Handling)
  }

  function MediaOnly(p: Option<Packet>): Option<Packet> {
    if p.Some? && IsConfig(p.value) then None else p
  }

  datatype Origin = Known(pts: int) | NotYet | Hopeless

  /** The origin of all timestamps, once it can be known. `v` and `a` are media packets. */
  function FindOrigin(s: State, cfg: Setup, v: Option<Packet>, a: Option<Packet>): Origin
    requires v.Some? ==> !IsConfig(v.value)
    requires a.Some? ==> !IsConfig(a.value)
  {
    if s.origin.Some? then Known(s.origin.value)
    else if !s.audio && v.Some? then Known(v.value.pts.value)
    else if !cfg.video && a.Some? then Known(a.value.pts.value)
    else if cfg.video && s.audio && v.Some? && a.Some? then
      Known(if v.value.pts.value < a.value.pts.value then v.value.pts.value else a.value.pts.value)
    else if s.stopped then
      if v.Some? then Known(v.value.pts.value) else Hopeless
    else NotYet
  }

  /** sc_recorder_write_stream: the written timestamp, which is also the new last one. */
  function Repaired(last: Option<int>, pts: int): int {
    if last.Some? && pts <= last.value then last.value + 1 else pts
  }

  function WriteVideo(s: State, cfg: Setup, h: Held, duration: int, ok: bool): State {
    var pts := Repaired(s.videoLast, cfg.videoScale(h.pts));
    s.(videoLast := Some(pts), videoOut := s.videoOut + [Written(h.src, pts, duration, ok)])
  }

  function WriteAudio(s: State, cfg: Setup, h: Held, ok: bool): State {
    var pts := Repaired(s.audioLast, cfg.audioScale(h.pts));
    s.(audioLast := Some(pts), audioOut := s.audioOut + [Written(h.src, pts, 0, ok)])
  }

  function HandleVideo(s: State, cfg: Setup, v: Packet, origin: int, ok: bool): State
    requires !IsConfig(v)
  {
    var h := Held(v, v.pts.value - origin);
    var s1 := if s.previous.Some? then WriteVideo(s, cfg, s.previous.value, h.pts - s.previous.value.pts, ok) else s;
    if s.previous.Some? && !ok then s1.(previous := None, thread := Done(false))
    else s1.(previous := Some(h), videoPkt := None)
  }

  function HandleAudio(s: State, cfg: Setup, a: Packet, origin: int, ok: bool): State
    requires !IsConfig(a)
  {
    var s1 := WriteAudio(s, cfg, Held(a, a.pts.value - origin), ok);
    if ok then s1.(audioPkt := None) else s1.(thread := Done(false))
  }

  function DropConfigs(s: State): State {
    s.(videoPkt := MediaOnly(s.videoPkt), audioPkt := MediaOnly(s.audioPkt), thread := AtQueues)
  }

  predicate OnlyMedia(s: State) {
    (s.videoPkt.Some? ==> !IsConfig(s.videoPkt.value)) && (s.audioPkt.Some? ==> !IsConfig(s.audioPkt.value))
  }

  function RecordFirst(s: State, cfg: Setup, ok: bool): (r: State)
    requires OnlyMedia(s) && s.origin.Some?
    ensures r.audioPkt == s.audioPkt && r.origin == s.origin && (r.videoPkt.Some? ==> r.videoPkt == s.videoPkt)
  {
    if s.videoPkt.Some? then HandleVideo(s, cfg, s.videoPkt.value, s.origin.value, ok) else s
  }

  function RecordSecond(s: State, cfg: Setup, ok: bool): State
    requires OnlyMedia(s) && s.origin.Some?
  {
    if s.audioPkt.Some? && !s.thread.Done? then HandleAudio(s, cfg, s.audioPkt.value, s.origin.value, ok) else s
  }

  /** The video packet, then the audio packet, with the origin known. */
  function Record(s: State, cfg: Setup, videoOk: bool, audioOk: bool): State
    requires OnlyMedia(s) && s.origin.Some?
  {
    RecordSecond(RecordFirst(s, cfg, videoOk), cfg, audioOk)
  }

  /** From dropping configs to the end of the loop's body; `stopped` and `audio` are read without
      the mutex. */
  function Handle(s: State, cfg: Setup, videoOk: bool, audioOk: bool): State {
    var s1 := DropConfigs(s);
    match FindOrigin(s1, cfg, s1.videoPkt, s1.audioPkt)
    case Hopeless => s1.(thread := Done(false))
    case NotYet => s1
    case Known(origin) => Record(s1.(origin := Some(origin)), cfg, videoOk, audioOk)
  }

  /** The last video packet and the trailer. */
  function Finish(s: State, cfg: Setup, videoOk: bool, trailerOk: bool): State {
    var s1 := if s.previous.Some? then WriteVideo(s, cfg, s.previous.value, LAST_DURATION, videoOk).(previous := None) else s;
    s1.(thread := Done(trailerOk))
  }

  // ---------------------------------------------------------------------------------------
  // The object

  class RecorderObject {
    const cfg: Setup
    var audio: bool
    var expectsConfig: bool
    var videoInit: bool
    var audioInit: bool
    var stopped: bool
    var videoQueue: seq<Packet>
    var audioQueue: seq<Packet>
    var thread: Thread
    var origin: Option<int>
    var videoPkt: Option<Packet>
    var audioPkt: Option<Packet>
    var previous: Option<Held>
    var videoLast: Option<int>
    var audioLast: Option<int>
    var videoOut: seq<Written>
    var audioOut: seq<Written>

    function View(): State
      reads this
    {
      State(audio, expectsConfig, videoInit, audioInit, stopped, videoQueue, audioQueue, thread, origin, videoPkt, audioPkt,
            previous, videoLast, audioLast, videoOut, audioOut)
    }

    constructor (cfg: Setup, audio: bool)
      ensures this.cfg == cfg && View() == Initial(audio)
    {
      this.cfg, this.audio := cfg, audio;
      expectsConfig, videoInit, audioInit, stopped := false, false, false, false;
      videoQueue, audioQueue, thread, origin := [], [], AwaitingHeader, None;
      videoPkt, audioPkt, previous, videoLast, audioLast, videoOut, audioOut := None, None, None, None, None, [], [];
    }

    method VideoSinkPush(p: Packet) returns (ok: bool)
      modifies this`videoQueue
      ensures (View(), ok) == PushVideo(old(View()), p)
    {
      if stopped {
        return false;
      }
      videoQueue := videoQueue + [p];
      ok := true;
    }

    method AudioSinkPush(p: Packet) returns (ok: bool)
      modifies this`audioQueue
      ensures (View(), ok) == PushAudio(old(View()), p)
    {
      if stopped {
        return false;
      }
      audioQueue := audioQueue + [p];
      ok := true;
    }

    method ProcessHeaderTake()
      requires !MustWait(View(), cfg)
      modifies this
      ensures View() == TakeHeader(old(View()), cfg)
    {
      if cfg.video && |videoQueue| == 0 {
        thread := Done(false);
        return;
      }
      var v: Option<Packet>, a: Option<Packet> := None, None;
      if |videoQueue| != 0 {
        v := Some(videoQueue[0]);
        videoQueue := videoQueue[1..];
      }
      if expectsConfig && |audioQueue| != 0 {
        a := Some(audioQueue[0]);
        audioQueue := audioQueue[1..];
      }
      thread := HasHeader(v, a);
    }

    method TakePackets()
      requires MayTake(View(), cfg)
      modifies this
      ensures View() == Take(old(View()))
    {
      if videoPkt.None? && |videoQueue| != 0 {
        videoPkt := Some(videoQueue[0]);
        videoQueue := videoQueue[1..];
      }
      if audioPkt.None? && |audioQueue| != 0 {
        audioPkt := Some(audioQueue[0]);
        audioQueue := audioQueue[1..];
      }
      thread := if stopped && videoPkt.None? && audioPkt.None? then AtEnd else Handling;
    }

    method WriteVideoStream(h: Held, duration: int, ok: bool)
      modifies this`videoLast, this`videoOut
      ensures View() == WriteVideo(old(View()), cfg, h, duration, ok)
    {
      var pts := cfg.videoScale(h.pts);
      if videoLast.Some? && pts <= videoLast.value {
        videoLast := Some(videoLast.value + 1);
        pts := videoLast.value;
      } else {
        videoLast := Some(pts);
      }
      videoOut := videoOut + [Written(h.src, pts, duration, ok)];
    }

    method WriteAudioStream(h: Held, ok: bool)
      modifies this`audioLast, this`audioOut
      ensures View() == WriteAudio(old(View()), cfg, h, ok)
    {
      var pts := cfg.audioScale(h.pts);
      if audioLast.Some? && pts <= audioLast.value {
        audioLast := Some(audioLast.value + 1);
        pts := audioLast.value;
      } else {
        audioLast := Some(pts);
      }
      audioOut := audioOut + [Written(h.src, pts, 0, ok)];
    }

    /** pts_origin, if it can be set; false when the loop must go round again or give up. */
    method SetOrigin() returns (known: bool)
      requires videoPkt.Some? ==> !IsConfig(videoPkt.value)
      requires audioPkt.Some? ==> !IsConfig(audioPkt.value)
      modifies this`origin, this`thread
      ensures var o := FindOrigin(old(View()), cfg, videoPkt, audioPkt);
              && known == o.Known?
              && View() == match o case Known(pts) => old(View()).(origin := Some(pts))
                                   case NotYet => old(View())
                                   case Hopeless => old(View()).(thread := Done(false))
    {
      if origin.None? {
        if !audio && videoPkt.Some? {
          origin := videoPkt.value.pts;
        } else if !cfg.video && audioPkt.Some? {
          origin := audioPkt.value.pts;
        } else if cfg.video && audio && videoPkt.Some? && audioPkt.Some? {
          var v, a := videoPkt.value.pts.value, audioPkt.value.pts.value;
          origin := Some(if v < a then v else a);
        } else if stopped {
          if videoPkt.Some? {
            origin := videoPkt.value.pts;
          } else {
            thread := Done(false);
            return false;
          }
        } else {
          return false;
        }
      }
      known := true;
    }

    /** Further config packets are ignored: the next media packet has their data in front. */
    method IgnoreConfigs()
      modifies this`videoPkt, this`audioPkt, this`thread
      ensures View() == DropConfigs(old(View())) && OnlyMedia(View())
    {
      thread := AtQueues;
      if videoPkt.Some? && IsConfig(videoPkt.value) {
        videoPkt := None;
      }
      if audioPkt.Some? && IsConfig(audioPkt.value) {
        audioPkt := None;
      }
    }

    method RecordVideo(ok: bool)
      requires videoPkt.Some? && !IsConfig(videoPkt.value) && origin.Some?
      modifies this
      ensures View() == HandleVideo(old(View()), cfg, old(videoPkt).value, old(origin).value, ok)
    {
      var h := Held(videoPkt.value, videoPkt.value.pts.value - origin.value);
      if previous.Some? {
        WriteVideoStream(previous.value, h.pts - previous.value.pts, ok);
        previous := None;
        if !ok {
          thread := Done(false);
          return;
        }
      }
      previous := Some(h);
      videoPkt := None;
    }

    method RecordAudio(ok: bool)
      requires audioPkt.Some? && !IsConfig(audioPkt.value) && origin.Some?
      modifies this
      ensures View() == HandleAudio(old(View()), cfg, old(audioPkt).value, old(origin).value, ok)
    {
      WriteAudioStream(Held(audioPkt.value, audioPkt.value.pts.value - origin.value), ok);
      if !ok {
        thread := Done(false);
        return;
      }
      audioPkt := None;
    }

    method RecordPackets(videoOk: bool, audioOk: bool)
      requires OnlyMedia(View()) && origin.Some?
      modifies this
      ensures View() == Record(old(View()), cfg, videoOk, audioOk)
    {
      if videoPkt.Some? {
        RecordVideo(videoOk);
      }
      assert View() == RecordFirst(old(View()), cfg, videoOk);
      if audioPkt.Some? && !thread.Done? {
        RecordAudio(audioOk);
      }
    }

    method HandlePackets(videoOk: bool, audioOk: bool)
      modifies this
      ensures View() == Handle(old(View()), cfg, videoOk, audioOk)
    {
      IgnoreConfigs();
      ghost var s1 := View();
      assert s1 == DropConfigs(old(View()));
      var known := SetOrigin();
      ghost var o := FindOrigin(s1, cfg, s1.videoPkt, s1.audioPkt);
      if known {
        assert View() == s1.(origin := Some(o.pts));
        RecordPackets(videoOk, audioOk);
      }
    }

    method FinishFile(videoOk: bool, trailerOk: bool)
      modifies this
      ensures View() == Finish(old(View()), cfg, videoOk, trailerOk)
    {
      if previous.Some? {
        WriteVideoStream(previous.value, LAST_DURATION, videoOk);
        previous := None;
      }
      thread := Done(trailerOk);
    }
  }
}
