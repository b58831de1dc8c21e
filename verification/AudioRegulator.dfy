/** The audio regulator (scrcpy/app/src/audio_regulator.c): the receiver thread pushes samples, the
    player pulls them, in any interleaving of their locked and lock-free phases. The ring is the FIFO
    sequence that AudioBuf.Ring implements; a read or write of it outside the mutex is cut into the
    load of the other side's cursor and the store of its own. */
module AudioRegulator {
  import opened Wrappers
  import AudioBuf

  /** uint32_t arithmetic. */
  function U32(x: int): nat {
    x % 0x1_0000_0000
  }

  function Least(a: nat, b: nat): nat {
    if a < b then a else b
  }

  /** The player's output starts as silence. */
  function Silence(n: nat): (s: seq<int>)
    ensures |s| == n
  {
    seq(n, _ => 0)
  }

  /** The fixed parameters; the ring holds the target plus one second. */
  datatype Setup = Setup(target: nat, rate: nat)
  {
    function Capacity(): nat { target + rate }
    /** The threshold of a push, once playback has started or before. */
    function MaxBuffered(played: bool): nat {
      if played then U32(U32(target * 11) / 10 + U32(60 * rate) / 1000) else U32(target + U32(10 * rate) / 1000)
    }
  }

  // ---- the two operations, when nothing comes between their phases

  /** The last `n` samples. */
  function LastOf(s: seq<int>, n: nat): seq<int> {
    if |s| > n then s[|s| - n..] else s
  }

  lemma OldestGiveWay(was: seq<int>, samples: seq<int>, w: nat, cap: nat)
    requires |was| <= cap && |samples| <= cap && w == cap - |was| && w < |samples|
    ensures |samples| - w <= |was| + w
    ensures (was + samples[..w])[|samples| - w..] + samples[w..] == LastOf(was + samples, cap)
  {
    assert was + samples == (was + samples[..w]) + samples[w..];
  }

  class Regulator {
    const cfg: Setup
    const buf: AudioBuf.Ring
    var played: bool
    var received: bool
    var underflow: nat

    predicate Valid()
      reads this, buf, buf.data
    {
      buf.Valid() && buf.Capacity() == cfg.Capacity()
    }

    constructor (cfg: Setup)
      requires cfg.Capacity() > 0
      ensures Valid() && fresh(buf) && fresh(buf.data) && this.cfg == cfg && buf.Contents() == [] && !played && !received && underflow == 0
    {
      this.cfg := cfg;
      buf := new AudioBuf.Ring(cfg.Capacity());
      played, received, underflow := false, false, 0;
    }

    /** sc_audio_regulator_pull: silence until the target is buffered for the first time, and then
        what there is, padded with silence. */
    method PullInto(out: array<int>, n: nat)
      requires Valid() && 0 < n == out.Length && out != buf.data
      modifies this`played, this`underflow, buf`tail, out
      ensures Valid() && received == old(received)
      ensures var was := old(buf.Contents());
              if !old(played) && |was| < cfg.target
              then out[..] == Silence(n) && buf.Contents() == was && !played && underflow == old(underflow)
              else
                var k := Least(n, |was|);
                && out[..] == was[..k] + Silence(n - k) && buf.Contents() == was[k..] && played
                && underflow == (if received && k < n then U32(old(underflow) + (n - k)) else old(underflow))
    {
      if !played {
        var buffered := buf.CountReadable();
        if buffered < cfg.target {
          Mute(out, 0);
          return;
        }
      }
      var read := FillFromRing(out, n);
      if read < n && received {
        underflow := U32(underflow + (n - read));
      }
      played := true;
    }

    /** What the ring has, then silence. */
    method FillFromRing(out: array<int>, n: nat) returns (read: nat)
      requires Valid() && 0 < n == out.Length && out != buf.data
      modifies buf`tail, out
      ensures Valid() && read == Least(n, |old(buf.Contents())|)
      ensures out[..] == old(buf.Contents())[..read] + Silence(n - read) && buf.Contents() == old(buf.Contents())[read..]
    {
      read := buf.Read(out, n);
      if read == n {
        assert out[..] == out[..n] && out[..n] + Silence(0) == out[..n];
        return;
      }
      Mute(out, read);
      assert out[..] == out[..read] + out[read..];
    }

    /** memset of the rest of the output. */
    method Mute(out: array<int>, from: nat)
      requires Valid() && from <= out.Length && out != buf.data
      modifies out
      ensures Valid() && buf.Contents() == old(buf.Contents())
      ensures out[..from] == old(out[..from]) && out[from..] == Silence(out.Length - from)
    {
      for i := from to out.Length
        invariant out[..from] == old(out[..from]) && forall j :: from <= j < i ==> out[j] == 0
      {
        out[i] := 0;
      }
    }

    /** With the mutex held and the ring full: drop as many old samples as are still to be written,
        and write them. */
    method Replace(rest: seq<int>) returns (skipped: nat)
      requires Valid() && 0 < |rest| <= |buf.Contents()| && |buf.Contents()| == cfg.Capacity()
      modifies buf, buf.data
      ensures Valid() && skipped == |rest|
      ensures buf.Contents() == old(buf.Contents())[|rest|..] + rest
    {
      var again := buf.Write(rest);
      assert again == 0 && rest[..0] == [];
      skipped := buf.Read(null, |rest|);
      assert skipped == |rest|;
      var last := buf.Write(rest);
      assert last == |rest| && rest[..last] == rest;
    }

    /** The writing part of sc_audio_regulator_push: the newest samples stay, the oldest give way. */
    method WriteSamples(input: seq<int>) returns (skipped: nat)
      requires Valid()
      modifies buf, buf.data
      ensures Valid()
      ensures buf.Contents() == LastOf(old(buf.Contents()) + LastOf(input, cfg.Capacity()), cfg.Capacity())
      ensures skipped == |old(buf.Contents()) + LastOf(input, cfg.Capacity())| - |buf.Contents()|
    {
      var samples := LastOf(input, cfg.Capacity());
      ghost var was := buf.Contents();
      skipped := 0;
      var written := buf.Write(samples);
      if written < |samples| {
        OldestGiveWay(was, samples, written, cfg.Capacity());
        skipped := Replace(samples[written..]);
      } else {
        assert samples[..written] == samples;
      }
    }

    /** The threshold check: at most `max` samples stay, the newest. */
    method SkipAbove(max: nat) returns (skip: nat)
      requires Valid()
      modifies buf`tail
      ensures Valid() && buf.Contents() == LastOf(old(buf.Contents()), max)
      ensures skip == |old(buf.Contents())| - |buf.Contents()|
    {
      skip := 0;
      var canRead := buf.CountReadable();
      if canRead > max {
        skip := canRead - max;
        var r := buf.Read(null, skip);
        assert r == skip;
      }
    }

    /** A push without discontinuity, from the resampled samples to the threshold. */
    method PushSamples(input: seq<int>) returns (skipped: nat)
      requires Valid()
      modifies this`received, this`underflow, buf, buf.data
      ensures Valid() && received && played == old(played)
      ensures buf.Contents()
              == LastOf(LastOf(old(buf.Contents()) + LastOf(input, cfg.Capacity()), cfg.Capacity()), cfg.MaxBuffered(played))
      ensures underflow == if played then 0 else old(underflow)
    {
      skipped := WriteSamples(input);
      if played {
        underflow := 0;
      }
      var more := SkipAbove(cfg.MaxBuffered(played));
      skipped := skipped + more;
      received := true;
    }
  }

  // ---------------------------------------------------------------------------------------
  // Every interleaving

  datatype Lock = Free | ByPush | ByPull

  /** Where the receiver thread is in sc_audio_regulator_push. */
  datatype Push =
    | Idle
    | Gap(input: nat, data: seq<int>)
    | Quiet(silence: nat, data: seq<int>)
    | QuietLoaded(silence: nat, room: nat, data: seq<int>)
    | First(data: seq<int>)
    | FirstLoaded(data: seq<int>, room: nat)
    | Locking(data: seq<int>)
    | Locked(data: seq<int>)
    | Last(data: seq<int>, skipped: nat)
    | LastLoaded(data: seq<int>, skipped: nat, room: nat)
    | LastDone(written: nat, remaining: nat)
    | Threshold
    | Compare(max: nat)
    | SkipLocking(max: nat)
    | SkipLocked(max: nat)
    | Skipped(max: nat, skip: nat, read: nat)
    | Finishing(max: nat)

  /** Where the player is in sc_audio_regulator_pull. */
  datatype Pull =
    | Resting
    | PullLocking(n: nat)
    | PullLocked(n: nat)
    | Reading(n: nat, loaded: nat)
    | AfterRead(n: nat, got: seq<int>)

  /** A sample that left the ring: played, or dropped by a push. */
  datatype Consumed = Consumed(sample: int, played: bool)

  /** A request of the player and the samples it got from the ring. */
  datatype Output = Output(requested: nat, got: seq<int>)

  /** What is in the player's buffer in the end. */
  function Render(o: Output): seq<int>
    requires |o.got| <= o.requested
  {
    o.got + Silence(o.requested - |o.got|)
  }

  /** The buffer and flags; and the history: every sample written, every sample consumed, the
      player's outputs and the samples read for them. */
  datatype State = State(
    buf: seq<int>,
    lock: Lock,
    played: bool,
    received: bool,
    underflow: nat,
    push: Push,
    pull: Pull,
    written: seq<int>,
    consumed: seq<Consumed>,
    outputs: seq<Output>,
    heard: seq<int>)

  const Initial := State([], Free, false, false, 0, Idle, Resting, [], [], [], [])

  function Marked(samples: seq<int>, played: bool): (c: seq<Consumed>)
    ensures |c| == |samples|
  {
    seq(|samples|, i requires 0 <= i < |samples| => Consumed(samples[i], played))
  }

  /** The receiver thread appends what fits. */
  function Append(s: State, samples: seq<int>, room: nat): State {
    var n := Least(|samples|, room);
    s.(buf := s.buf + samples[..n], written := s.written + samples[..n])
  }

  /** Reading without a destination drops samples. */
  function Drop(s: State, n: nat): State
    requires n <= |s.buf|
  {
    s.(buf := s.buf[n..], consumed := s.consumed + Marked(s.buf[..n], false))
  }

  function Room(s: State, cfg: Setup): nat {
    if |s.buf| < cfg.Capacity() then cfg.Capacity() - |s.buf| else 0
  }

  datatype Action =
    | Arrives(input: nat, samples: seq<int>, discontinuity: bool)
    | GapChecks
    | QuietLoads
    | QuietWrites
    | FirstLoads
    | FirstWrites
    | PushLocks
    | Retries
    | LastLoads
    | LastWrites
    | AfterWrites
    | ReadsPlayed
    | Compares
    | SkipLocks
    | Skips
    | AfterSkip
    | Finishes
    | PullCalled(n: nat)
    | PullLocks
    | PullLooks
    | PullReads
    | PullReturns

  predicate Enabled(s: State, a: Action) {
    match a
    case Arrives(_, _, _) => s.push == Idle
    case GapChecks => s.push.Gap?
    case QuietLoads => s.push.Quiet?
    case QuietWrites => s.push.QuietLoaded?
    case FirstLoads => s.push.First?
    case FirstWrites => s.push.FirstLoaded?
    case PushLocks => s.push.Locking? && s.lock == Free
    case Retries => s.push.Locked?
    case LastLoads => s.push.Last?
    case LastWrites => s.push.LastLoaded?
    case AfterWrites => s.push.LastDone?
    case ReadsPlayed => s.push.Threshold?
    case Compares => s.push.Compare?
    case SkipLocks => s.push.SkipLocking? && s.lock == Free
    case Skips => s.push.SkipLocked?
    case AfterSkip => s.push.Skipped?
    case Finishes => s.push.Finishing?
    case PullCalled(n) => s.pull == Resting && n > 0
    case PullLocks => s.pull.PullLocking? && s.lock == Free
    case PullLooks => s.pull.PullLocked?
    case PullReads => s.pull.Reading?
    case PullReturns => s.pull.AfterRead?
  }

  function Next(s: State, a: Action, cfg: Setup): State
    requires Enabled(s, a)
  {
    match a
    case Arrives(input, samples, discontinuity) =>
      // a resampled frame longer than the ring loses its beginning
      s.(push := if discontinuity then Gap(input, LastOf(samples, cfg.Capacity())) else First(LastOf(samples, cfg.Capacity())))
    case GapChecks => DoGap(s, cfg)
    case QuietLoads => s.(push := QuietLoaded(s.push.silence, Room(s, cfg), s.push.data))
    case QuietWrites => Append(s, Silence(s.push.silence), s.push.room).(push := First(s.push.data), underflow := 0)
    case FirstLoads => s.(push := FirstLoaded(s.push.data, Room(s, cfg)))
    case FirstWrites => DoFirst(s)
    case PushLocks => s.(push := Locked(s.push.data), lock := ByPush)
    case Retries => DoRetry(s, cfg)
    case LastLoads => s.(push := LastLoaded(s.push.data, s.push.skipped, Room(s, cfg)))
    case LastWrites => Append(s, s.push.data, s.push.room).(push := LastDone(Least(|s.push.data|, s.push.room), |s.push.data|))
    case AfterWrites => s.(push := Threshold)
    case ReadsPlayed => s.(push := Compare(cfg.MaxBuffered(s.played)), underflow := if s.played then 0 else s.underflow)
    case Compares => s.(push := if |s.buf| > s.push.max then SkipLocking(s.push.max) else Finishing(s.push.max))
    case SkipLocks => s.(push := SkipLocked(s.push.max), lock := ByPush)
    case Skips => DoSkip(s)
    case AfterSkip => s.(push := Finishing(s.push.max), lock := Free)
    case Finishes => s.(push := Idle, received := true)
    case PullCalled(n) => s.(pull := PullLocking(n))
    case PullLocks => s.(pull := PullLocked(s.pull.n), lock := ByPull)
    case PullLooks => DoLook(s, cfg)
    case PullReads =>
      var n := Least(Least(s.pull.n, s.pull.loaded), |s.buf|);
      s.(buf := s.buf[n..], consumed := s.consumed + Marked(s.buf[..n], true), lock := Free, pull := AfterRead(s.pull.n, s.buf[..n]),
         heard := s.heard + s.buf[..n])
    case PullReturns => DoReturn(s)
  }

  /** After a discontinuity silence may fill the ring up to the target. */
  function DoGap(s: State, cfg: Setup): State
    requires s.push.Gap?
  {
    if U32(s.push.input + |s.buf|) < cfg.target
    then s.(push := Quiet(U32(cfg.target - |s.buf| - s.push.input), s.push.data))
    else s.(push := First(s.push.data), underflow := 0)
  }

  function DoFirst(s: State): State
    requires s.push.FirstLoaded?
  {
    var n := Least(|s.push.data|, s.push.room);
    Append(s, s.push.data, s.push.room).(push := if n < |s.push.data| then Locking(s.push.data[n..]) else Threshold)
  }

  /** With the mutex: write again, and drop old samples if that is not enough; then unlock. */
  function DoRetry(s: State, cfg: Setup): State
    requires s.push.Locked?
  {
    var room := Room(s, cfg);
    var n := Least(|s.push.data|, room);
    var s1 := Append(s, s.push.data, room);
    if n == |s.push.data| then s1.(push := Threshold, lock := Free)
    else
      var rest := s.push.data[n..];
      var skipped := Least(|rest|, |s1.buf|);
      Drop(s1, skipped).(push := Last(rest, skipped), lock := Free)
  }

  function DoSkip(s: State): State
    requires s.push.SkipLocked?
  {
    if |s.buf| > s.push.max then
      var skip := |s.buf| - s.push.max;
      var read := Least(skip, |s.buf|);
      Drop(s, read).(push := Skipped(s.push.max, skip, read))
    else s.(push := Finishing(s.push.max), lock := Free)
  }

  function DoLook(s: State, cfg: Setup): State
    requires s.pull.PullLocked?
  {
    if !s.played && |s.buf| < cfg.target
    then s.(pull := Resting, lock := Free, outputs := s.outputs + [Output(s.pull.n, [])])
    else s.(pull := Reading(s.pull.n, |s.buf|))
  }

  function DoReturn(s: State): State
    requires s.pull.AfterRead?
  {
    var n, got := s.pull.n, s.pull.got;
    var silence := if |got| < n then n - |got| else 0;
    s.(pull := Resting, played := true, outputs := s.outputs + [Output(n, got)],
       underflow := if silence > 0 && s.received then U32(s.underflow + silence) else s.underflow)
  }

  ghost predicate IsRun(s: State, acts: seq<Action>, cfg: Setup)
    decreases |acts|
  {
    acts == [] || (Enabled(s, acts[0]) && IsRun(Next(s, acts[0], cfg), acts[1..], cfg))
  }

  ghost function After(s: State, acts: seq<Action>, cfg: Setup): State
    requires IsRun(s, acts, cfg)
    decreases |acts|
  {
    if acts == [] then s else After(Next(s, acts[0], cfg), acts[1..], cfg)
  }

  // ---- the invariant

  /** What the receiver thread counts on in each phase. */
  predicate PushOk(s: State, cfg: Setup) {
    var cap := cfg.Capacity();
    match s.push
    case Idle => true
    case Gap(_, data) => |data| <= cap
    case Quiet(_, data) => |data| <= cap
    case QuietLoaded(_, room, data) => |data| <= cap && |s.buf| + room <= cap
    case First(data) => |data| <= cap
    case FirstLoaded(data, room) => |data| <= cap && |s.buf| + room <= cap
    case Locking(data) => 0 < |data| <= cap
    case Locked(data) => 0 < |data| <= cap
    case Last(data, skipped) => skipped == |data| && |s.buf| + |data| <= cap
    case LastLoaded(data, skipped, room) => skipped == |data| <= room && |s.buf| + room <= cap
    case LastDone(written, remaining) => written == remaining
    case Threshold => true
    case Compare(_) => true
    case SkipLocking(_) => true
    case SkipLocked(_) => true
    case Skipped(max, skip, read) => read == skip && |s.buf| <= max
    case Finishing(max) => |s.buf| <= max
  }

  predicate LockOk(s: State) {
    && (s.lock == ByPush <==> s.push.Locked? || s.push.SkipLocked? || s.push.Skipped?)
    && (s.lock == ByPull <==> s.pull.PullLocked? || s.pull.Reading?)
    && (s.pull.Reading? ==> s.pull.loaded <= |s.buf|)
  }

  function Samples(c: seq<Consumed>): (r: seq<int>)
    ensures |r| == |c|
  {
    seq(|c|, i requires 0 <= i < |c| => c[i].sample)
  }

  function Heard(c: seq<Consumed>): seq<int> {
    if c == [] then [] else Heard(c[..|c| - 1]) + if c[|c| - 1].played then [c[|c| - 1].sample] else []
  }

  predicate FlowOk(s: State) {
    && s.written == Samples(s.consumed) + s.buf
    && s.heard == Heard(s.consumed)
  }

  /** What the player was given so far, and is about to be given. */
  function Given(s: State): seq<int> {
    if s.pull.AfterRead? then s.pull.got else []
  }

  /** The samples of all the outputs. */
  function Gots(outputs: seq<Output>): seq<int> {
    if outputs == [] then [] else Gots(outputs[..|outputs| - 1]) + outputs[|outputs| - 1].got
  }

  predicate OutputOk(s: State) {
    && (forall i :: 0 <= i < |s.outputs| ==> |s.outputs[i].got| <= s.outputs[i].requested)
    && (s.pull.AfterRead? ==> |s.pull.got| <= s.pull.n)
    && s.heard == Gots(s.outputs) + Given(s)
  }

  predicate Inv(s: State, cfg: Setup) {
    |s.buf| <= cfg.Capacity() && PushOk(s, cfg) && LockOk(s) && FlowOk(s) && OutputOk(s)
  }

  // ---- each step

  lemma PullPush(s: State, s': State, a: Action, cfg: Setup)
    requires |s.buf| <= cfg.Capacity() && PushOk(s, cfg) && LockOk(s) && Enabled(s, a) && s' == Next(s, a, cfg)
    requires a.PullCalled? || a.PullLocks? || a.PullLooks? || a.PullReads? || a.PullReturns?
    ensures |s'.buf| <= cfg.Capacity() && PushOk(s', cfg) && LockOk(s')
  {
  }

  lemma WritePush(s: State, s': State, a: Action, cfg: Setup)
    requires |s.buf| <= cfg.Capacity() && PushOk(s, cfg) && LockOk(s) && Enabled(s, a) && s' == Next(s, a, cfg)
    requires a.Arrives? || a.GapChecks? || a.QuietLoads? || a.QuietWrites? || a.FirstLoads? || a.FirstWrites?
    ensures |s'.buf| <= cfg.Capacity() && PushOk(s', cfg) && LockOk(s')
  {
  }

  lemma RetryPush(s: State, s': State, a: Action, cfg: Setup)
    requires |s.buf| <= cfg.Capacity() && PushOk(s, cfg) && LockOk(s) && Enabled(s, a) && s' == Next(s, a, cfg)
    requires a.PushLocks? || a.Retries? || a.LastLoads? || a.LastWrites? || a.AfterWrites?
    ensures |s'.buf| <= cfg.Capacity() && PushOk(s', cfg) && LockOk(s')
  {
  }

  lemma SkipPush(s: State, s': State, a: Action, cfg: Setup)
    requires |s.buf| <= cfg.Capacity() && PushOk(s, cfg) && LockOk(s) && Enabled(s, a) && s' == Next(s, a, cfg)
    requires a.ReadsPlayed? || a.Compares? || a.SkipLocks? || a.Skips? || a.AfterSkip? || a.Finishes?
    ensures |s'.buf| <= cfg.Capacity() && PushOk(s', cfg) && LockOk(s')
  {
  }

  lemma PushStep(s: State, s': State, a: Action, cfg: Setup)
    requires |s.buf| <= cfg.Capacity() && PushOk(s, cfg) && LockOk(s) && Enabled(s, a) && s' == Next(s, a, cfg)
    ensures |s'.buf| <= cfg.Capacity() && PushOk(s', cfg) && LockOk(s')
  {
    if a.PullCalled? || a.PullLocks? || a.PullLooks? || a.PullReads? || a.PullReturns? {
      PullPush(s, s', a, cfg);
    } else if a.Arrives? || a.GapChecks? || a.QuietLoads? || a.QuietWrites? || a.FirstLoads? || a.FirstWrites? {
      WritePush(s, s', a, cfg);
    } else if a.PushLocks? || a.Retries? || a.LastLoads? || a.LastWrites? || a.AfterWrites? {
      RetryPush(s, s', a, cfg);
    } else {
      SkipPush(s, s', a, cfg);
    }
  }

  lemma HeardOne(c: seq<Consumed>, x: Consumed)
    ensures Heard(c + [x]) == if x.played then Heard(c) + [x.sample] else Heard(c)
  {
    assert (c + [x])[..|c|] == c;
    assert Heard(c) + [] == Heard(c);
  }

  lemma {:induction false} HeardPlayed(c: seq<Consumed>, samples: seq<int>, all: seq<Consumed>)
    requires all == c + Marked(samples, true)
    ensures Heard(all) == Heard(c) + samples
    decreases |samples|
  {
    if samples == [] {
      assert all == c && Heard(c) + samples == Heard(c);
    } else {
      var n := |samples| - 1;
      var before := all[..|c| + n];
      HeardPlayed(c, samples[..n], before);
      HeardOne(before, Consumed(samples[n], true));
      assert all == before + [Consumed(samples[n], true)];
      LastOnce(Heard(c), samples);
    }
  }

  lemma LastOnce<T>(a: seq<T>, b: seq<T>)
    requires b != []
    ensures a + b == a + b[..|b| - 1] + [b[|b| - 1]]
  {
  }

  lemma {:induction false} HeardDropped(c: seq<Consumed>, samples: seq<int>, all: seq<Consumed>)
    requires all == c + Marked(samples, false)
    ensures Heard(all) == Heard(c)
    decreases |samples|
  {
    if samples == [] {
      assert all == c;
    } else {
      var n := |samples| - 1;
      var before := all[..|c| + n];
      HeardDropped(c, samples[..n], before);
      HeardOne(before, Consumed(samples[n], false));
      assert all == before + [Consumed(samples[n], false)];
    }
  }

  /** The samples taken out follow those taken before, and what stays follows them. */
  lemma TakenSamples(c: seq<Consumed>, buf: seq<int>, n: nat, played: bool)
    requires n <= |buf|
    ensures Samples(c + Marked(buf[..n], played)) + buf[n..] == Samples(c) + buf
  {
  }

  lemma AppendFlow(s: State, samples: seq<int>, room: nat)
    requires FlowOk(s)
    ensures FlowOk(Append(s, samples, room))
  {
  }

  lemma DropFlow(s: State, n: nat)
    requires FlowOk(s) && n <= |s.buf|
    ensures FlowOk(Drop(s, n))
  {
    TakenSamples(s.consumed, s.buf, n, false);
    HeardDropped(s.consumed, s.buf[..n], s.consumed + Marked(s.buf[..n], false));
  }

  /** The player takes the oldest samples. */
  lemma ReadFlow(s: State, s': State, n: nat)
    requires FlowOk(s) && n <= |s.buf| && s'.buf == s.buf[n..] && s'.written == s.written
    requires s'.consumed == s.consumed + Marked(s.buf[..n], true) && s'.heard == s.heard + s.buf[..n]
    ensures FlowOk(s')
  {
    TakenSamples(s.consumed, s.buf, n, true);
    HeardPlayed(s.consumed, s.buf[..n], s'.consumed);
  }

  lemma RetryFlow(s: State, s': State, cfg: Setup)
    requires FlowOk(s) && s.push.Locked? && s' == DoRetry(s, cfg)
    ensures FlowOk(s')
  {
    AppendFlow(s, s.push.data, Room(s, cfg));
    var s1 := Append(s, s.push.data, Room(s, cfg));
    var n := Least(|s.push.data|, Room(s, cfg));
    if n != |s.push.data| { DropFlow(s1, Least(|s.push.data[n..]|, |s1.buf|)); }
  }

  lemma SkipFlow(s: State, s': State)
    requires FlowOk(s) && s.push.SkipLocked? && s' == DoSkip(s)
    ensures FlowOk(s')
  {
    if |s.buf| > s.push.max { DropFlow(s, Least(|s.buf| - s.push.max, |s.buf|)); }
  }

  lemma FlowStep(s: State, s': State, a: Action, cfg: Setup)
    requires FlowOk(s) && Enabled(s, a) && s' == Next(s, a, cfg)
    ensures FlowOk(s')
  {
    match a
    case QuietWrites => AppendFlow(s, Silence(s.push.silence), s.push.room);
    case FirstWrites => AppendFlow(s, s.push.data, s.push.room);
    case LastWrites => AppendFlow(s, s.push.data, s.push.room);
    case Retries => RetryFlow(s, s', cfg);
    case Skips => SkipFlow(s, s');
    case PullReads => ReadFlow(s, s', Least(Least(s.pull.n, s.pull.loaded), |s.buf|));
    case _ =>
  }

  lemma GotsGrow(outputs: seq<Output>, o: Output)
    ensures Gots(outputs + [o]) == Gots(outputs) + o.got
  {
    assert (outputs + [o])[..|outputs|] == outputs;
  }

  lemma ReturnStep(s: State, s': State)
    requires OutputOk(s) && s.pull.AfterRead? && s' == DoReturn(s)
    ensures OutputOk(s')
  {
    GotsGrow(s.outputs, Output(s.pull.n, s.pull.got));
    assert s.heard + [] == s.heard;
  }

  lemma LookStep(s: State, s': State, cfg: Setup)
    requires OutputOk(s) && s.pull.PullLocked? && s' == DoLook(s, cfg)
    ensures OutputOk(s')
  {
    GotsGrow(s.outputs, Output(s.pull.n, []));
    assert Gots(s.outputs) + [] == Gots(s.outputs);
  }

  lemma OutputStep(s: State, s': State, a: Action, cfg: Setup)
    requires OutputOk(s) && Enabled(s, a) && s' == Next(s, a, cfg)
    ensures OutputOk(s')
  {
    match a
    case PullLooks => LookStep(s, s', cfg);
    case PullReads => ReadStep(s, s', s.buf[..Least(Least(s.pull.n, s.pull.loaded), |s.buf|)]);
    case PullReturns => ReturnStep(s, s');
    case _ => QuietStep(s, s');
  }

  lemma ReadStep(s: State, s': State, got: seq<int>)
    requires OutputOk(s) && s.pull.Reading? && |got| <= s.pull.n
    requires s'.outputs == s.outputs && s'.heard == s.heard + got && s'.pull == AfterRead(s.pull.n, got)
    ensures OutputOk(s')
  {
    assert Gots(s.outputs) + [] == Gots(s.outputs);
  }

  /** Nothing was given to the player. */
  lemma QuietStep(s: State, s': State)
    requires OutputOk(s) && s'.outputs == s.outputs && s'.heard == s.heard
    requires s'.pull == s.pull || (!s.pull.AfterRead? && !s'.pull.AfterRead?)
    ensures OutputOk(s')
  {
  }

  lemma {:induction false} RunKeeps(s: State, acts: seq<Action>, cfg: Setup)
    requires Inv(s, cfg) && IsRun(s, acts, cfg)
    ensures Inv(After(s, acts, cfg), cfg)
    decreases |acts|
  {
    if acts != [] {
      PushStep(s, Next(s, acts[0], cfg), acts[0], cfg);
      FlowStep(s, Next(s, acts[0], cfg), acts[0], cfg);
      OutputStep(s, Next(s, acts[0], cfg), acts[0], cfg);
      RunKeeps(Next(s, acts[0], cfg), acts[1..], cfg);
    }
  }

  lemma InitialInv(cfg: Setup)
    ensures Inv(Initial, cfg)
  {
  }

  // ---- the theorems

  /** The three assertions of a push hold in every interleaving: the old samples dropped are as many
      as remain to be written; then all of these are written; and the samples skipped over the
      threshold are all there to be skipped. */
  lemma AssertionsHold(acts: seq<Action>, cfg: Setup)
    requires IsRun(Initial, acts, cfg)
    ensures var p := After(Initial, acts, cfg).push;
            && (p.Last? ==> p.skipped == |p.data|)
            && (p.LastDone? ==> p.written == p.remaining)
            && (p.Skipped? ==> p.read == p.skip)
  {
    InitialInv(cfg);
    RunKeeps(Initial, acts, cfg);
  }

  /** Nothing is lost or invented: the samples written are those played or dropped, in order, and
      then those buffered; the ring never holds more than its capacity. */
  lemma SamplesAreConserved(acts: seq<Action>, cfg: Setup)
    requires IsRun(Initial, acts, cfg)
    ensures var s := After(Initial, acts, cfg);
            && s.written == Samples(s.consumed) + s.buf
            && |s.written| == |s.consumed| + |s.buf|
            && s.heard == Heard(s.consumed)
            && |s.buf| <= cfg.Capacity()
  {
    InitialInv(cfg);
    RunKeeps(Initial, acts, cfg);
  }

  /** The player gets exactly what it asks for: every output is samples, then silence, of the
      requested length; and the samples of all outputs together, with those about to be returned, are
      the played samples in the order they were written. */
  lemma PlayerOutput(acts: seq<Action>, cfg: Setup)
    requires IsRun(Initial, acts, cfg)
    ensures var s := After(Initial, acts, cfg);
            && (forall i :: 0 <= i < |s.outputs| ==>
                  |s.outputs[i].got| <= s.outputs[i].requested && |Render(s.outputs[i])| == s.outputs[i].requested)
            && Gots(s.outputs) + Given(s) == Heard(s.consumed)
  {
    InitialInv(cfg);
    RunKeeps(Initial, acts, cfg);
  }

  /** A push that ends leaves at most as many samples as the threshold it checked. */
  lemma PushEndsBelowThreshold(acts: seq<Action>, cfg: Setup)
    requires IsRun(Initial, acts, cfg)
    ensures var s := After(Initial, acts, cfg); s.push.Finishing? ==> |s.buf| <= s.push.max
  {
    InitialInv(cfg);
    RunKeeps(Initial, acts, cfg);
  }
}
