/** What the regulator must do, beside what it may not: every sample that arrives is written, the
    oldest ones give way and no more of them than need to, a gap is filled up to the target, and the
    player gets whatever there is once the target has been buffered. */
module AudioRegulatorRuns {
  import opened Wrappers
  import opened AudioRegulator

  // ---- every sample that arrives is written

  /** The samples of the push in progress that are still to be written. */
  function Due(p: Push): seq<int> {
    match p
    case Gap(_, data) => data
    case Quiet(_, data) => data
    case QuietLoaded(_, _, data) => data
    case First(data) => data
    case FirstLoaded(data, _) => data
    case Locking(data) => data
    case Locked(data) => data
    case Last(data, _) => data
    case LastLoaded(data, _, _) => data
    case _ => []
  }

  /** The push has yet to fill a gap with silence, or to find that it need not. */
  predicate AtGap(p: Push) {
    p.Gap? || p.Quiet? || p.QuietLoaded?
  }

  lemma AppendDue(w: seq<int>, data: seq<int>, n: nat)
    requires n <= |data|
    ensures w + data[..n] + data[n..] == w + data
  {
    assert data[..n] + data[n..] == data;
  }

  lemma QuietDue(s: State, s': State, cfg: Setup)
    requires s.push.QuietLoaded? && s' == Next(s, QuietWrites, cfg)
    ensures s'.written + Due(s'.push) == s.written + Silence(Least(s.push.silence, s.push.room)) + Due(s.push)
  {
    var n := Least(s.push.silence, s.push.room);
    assert Silence(s.push.silence)[..n] == Silence(n);
  }

  lemma RetryDue(s: State, s': State, cfg: Setup)
    requires s.push.Locked? && s' == DoRetry(s, cfg)
    ensures s'.written + Due(s'.push) == s.written + Due(s.push)
  {
    AppendDue(s.written, s.push.data, Least(|s.push.data|, Room(s, cfg)));
  }

  lemma FirstDue(s: State, s': State)
    requires s.push.FirstLoaded? && s' == DoFirst(s)
    ensures s'.written + Due(s'.push) == s.written + Due(s.push)
  {
    AppendDue(s.written, s.push.data, Least(|s.push.data|, s.push.room));
  }

  lemma LastDue(s: State, s': State, cfg: Setup)
    requires s.push.LastLoaded? && |s.push.data| <= s.push.room && s' == Next(s, LastWrites, cfg)
    ensures s'.written + Due(s'.push) == s.written + Due(s.push)
  {
    assert s.push.data[..|s.push.data|] == s.push.data;
  }

  /** Past the gap, what is written and what is due add up to the same. */
  lemma StepDue(s: State, s': State, a: Action, cfg: Setup)
    requires PushOk(s, cfg) && Enabled(s, a) && !a.Arrives? && !AtGap(s.push) && s' == Next(s, a, cfg)
    ensures s'.written + Due(s'.push) == s.written + Due(s.push) && !AtGap(s'.push)
  {
    match a
    case FirstWrites => FirstDue(s, s');
    case Retries => RetryDue(s, s', cfg);
    case LastWrites => LastDue(s, s', cfg);
    case _ => OtherDue(s, s', a, cfg);
  }

  lemma OtherDue(s: State, s': State, a: Action, cfg: Setup)
    requires Enabled(s, a) && !a.Arrives? && !a.QuietWrites? && !a.FirstWrites? && !a.Retries? && !a.LastWrites? && s' == Next(s, a, cfg)
    ensures s'.written == s.written && Due(s'.push) == Due(s.push) && (AtGap(s'.push) ==> AtGap(s.push))
  {
  }

  lemma StepInv(s: State, s': State, a: Action, cfg: Setup)
    requires Inv(s, cfg) && Enabled(s, a) && s' == Next(s, a, cfg)
    ensures Inv(s', cfg)
  {
    PushStep(s, s', a, cfg);
    FlowStep(s, s', a, cfg);
    OutputStep(s, s', a, cfg);
  }

  lemma {:induction false} RunDue(s: State, acts: seq<Action>, cfg: Setup)
    requires Inv(s, cfg) && !AtGap(s.push) && IsRun(s, acts, cfg) && forall a :: a in acts ==> !a.Arrives?
    ensures var t := After(s, acts, cfg); t.written + Due(t.push) == s.written + Due(s.push) && !AtGap(t.push)
    decreases |acts|
  {
    if acts != [] {
      assert acts[0] in acts;
      StepDue(s, Next(s, acts[0], cfg), acts[0], cfg);
      StepInv(s, Next(s, acts[0], cfg), acts[0], cfg);
      RunDue(Next(s, acts[0], cfg), acts[1..], cfg);
    }
  }

  /** Until the gap is dealt with, nothing is written. */
  lemma {:induction false} RunGap(s: State, acts: seq<Action>, cfg: Setup) returns (k: nat)
    requires Inv(s, cfg) && AtGap(s.push) && IsRun(s, acts, cfg) && forall a :: a in acts ==> !a.Arrives?
    ensures var t := After(s, acts, cfg); t.written + Due(t.push) == s.written + Silence(k) + Due(s.push)
    decreases |acts|
  {
    k := 0;
    assert s.written + Silence(0) == s.written;
    if acts != [] {
      var a, s' := acts[0], Next(s, acts[0], cfg);
      assert a in acts;
      StepInv(s, s', a, cfg);
      if a.QuietWrites? {
        k := Least(s.push.silence, s.push.room);
        QuietDue(s, s', cfg);
        RunDue(s', acts[1..], cfg);
      } else {
        OtherDue(s, s', a, cfg);
        if AtGap(s'.push) {
          k := RunGap(s', acts[1..], cfg);
        } else {
          RunDue(s', acts[1..], cfg);
        }
      }
    }
  }

  /** The push has written all its samples. */
  predicate PastWriting(p: Push) {
    p.Threshold? || p.Compare? || p.SkipLocking? || p.SkipLocked? || p.Skipped? || p.Finishing? || p == Idle
  }

  lemma ArrivalDue(s: State, s': State, input: nat, samples: seq<int>, gap: bool, cfg: Setup)
    requires s.push == Idle && s' == Next(s, Arrives(input, samples, gap), cfg)
    ensures s'.written == s.written && AtGap(s'.push) == gap
    ensures var cap := cfg.target + cfg.rate; Due(s'.push) == if |samples| > cap then samples[|samples| - cap..] else samples
  {
  }

  lemma NothingDue(t: State)
    requires PastWriting(t.push)
    ensures t.written + Due(t.push) == t.written
  {
  }

  lemma NoSilence(w: seq<int>)
    ensures w + Silence(0) == w
  {
  }

  /** A push writes all that arrived, if need be without the beginning that the ring has no room for,
      whatever the player does meanwhile; after a discontinuity some silence comes before it. */
  lemma PushWritesAll(s: State, input: nat, samples: seq<int>, gap: bool, acts: seq<Action>, cfg: Setup) returns (k: nat)
    requires Inv(s, cfg) && s.push == Idle && IsRun(Next(s, Arrives(input, samples, gap), cfg), acts, cfg)
    requires forall a :: a in acts ==> !a.Arrives?
    requires PastWriting(After(Next(s, Arrives(input, samples, gap), cfg), acts, cfg).push)
    ensures var cap, t := cfg.target + cfg.rate, After(Next(s, Arrives(input, samples, gap), cfg), acts, cfg);
            t.written == s.written + Silence(k) + (if |samples| > cap then samples[|samples| - cap..] else samples)
    ensures !gap ==> k == 0
  {
    var s' := Next(s, Arrives(input, samples, gap), cfg);
    StepInv(s, s', Arrives(input, samples, gap), cfg);
    ArrivalDue(s, s', input, samples, gap, cfg);
    NothingDue(After(s', acts, cfg));
    if gap {
      k := RunGap(s', acts, cfg);
    } else {
      k := 0;
      NoSilence(s.written);
      RunDue(s', acts, cfg);
    }
  }

  // ---- the oldest give way

  /** Appending what fits and dropping from the old end as many as do not. */
  lemma OldestForRest(buf: seq<int>, data: seq<int>, cap: nat, n: nat, d: nat)
    requires |buf| <= cap && |data| <= cap && n == cap - |buf| < |data| && d == |buf| + |data| - cap
    ensures d == |data| - n <= |buf + data[..n]|
    ensures (buf + data[..n])[d..] + data[n..] == (buf + data)[d..]
    ensures (buf + data[..n])[..d] == (buf + data)[..d]
  {
    assert buf + data == (buf + data[..n]) + data[n..];
  }

  /** With the mutex held, a push that finds no room for all its samples drops exactly as many of the
      oldest as it lacks room for; with room for all it drops none. */
  lemma RetryDropsOldest(s: State, s': State, cfg: Setup)
    requires |s.buf| <= cfg.target + cfg.rate && s.push.Locked? && |s.push.data| <= cfg.target + cfg.rate
    requires s' == Next(s, Retries, cfg)
    ensures var all, cap := s.buf + s.push.data, cfg.target + cfg.rate;
            if |all| <= cap then s'.buf == all && s'.consumed == s.consumed && s'.push == Threshold
            else
              && s'.push.Last? && s'.buf + s'.push.data == all[|all| - cap..]
              && s'.consumed == s.consumed + Marked(all[..|all| - cap], false)
  {
    var cap := cfg.target + cfg.rate;
    var n := Least(|s.push.data|, Room(s, cfg));
    if |s.buf + s.push.data| <= cap {
      assert s.push.data[..n] == s.push.data;
    } else {
      OldestForRest(s.buf, s.push.data, cap, n, |s.buf| + |s.push.data| - cap);
    }
  }

  /** The samples above the threshold are dropped from the old end, and no others. */
  lemma SkipDropsOldest(s: State, s': State, cfg: Setup)
    requires s.push.SkipLocked? && s' == Next(s, Skips, cfg)
    ensures var d := if |s.buf| > s.push.max then |s.buf| - s.push.max else 0;
            s'.buf == s.buf[d..] && s'.consumed == s.consumed + Marked(s.buf[..d], false)
  {
    assert s.consumed + Marked(s.buf[..0], false) == s.consumed;
  }

  /** A push goes for the mutex exactly if the buffer is above its threshold; otherwise it is about to
      finish. */
  lemma LocksOnlyAbove(s: State, cfg: Setup)
    requires s.push.Compare?
    ensures var s' := Next(s, Compares, cfg);
            && s'.buf == s.buf && s'.lock == s.lock
            && (s'.push.SkipLocking? <==> |s.buf| > s.push.max) && (s'.push.Finishing? <==> |s.buf| <= s.push.max)
            && (s'.push.SkipLocking? || s'.push.Finishing?) && s'.push.max == s.push.max
  {
  }

  /** Nothing else is ever dropped: any other action consumes only what it plays. */
  lemma OnlyPushesDrop(s: State, s': State, a: Action, cfg: Setup)
    requires Enabled(s, a) && s' == Next(s, a, cfg) && !a.Retries? && !a.Skips?
    ensures s.consumed <= s'.consumed && forall i :: |s.consumed| <= i < |s'.consumed| ==> s'.consumed[i].played
  {
  }

  // ---- thresholds

  lemma Fits(x: nat)
    requires x < 0x1_0000_0000
    ensures U32(x) == x
  {
  }

  lemma PlayedThreshold(cfg: Setup)
    requires cfg.target < 300_000_000 && cfg.rate < 60_000_000
    ensures cfg.MaxBuffered(true) == cfg.target + cfg.target / 10 + 60 * cfg.rate / 1000
  {
    Fits(cfg.target * 11);
    Fits(60 * cfg.rate);
    Fits(cfg.target * 11 / 10 + 60 * cfg.rate / 1000);
    assert cfg.target * 11 / 10 == cfg.target + cfg.target / 10;
  }

  lemma InitialThreshold(cfg: Setup)
    requires cfg.target < 300_000_000 && cfg.rate < 60_000_000
    ensures cfg.MaxBuffered(false) == cfg.target + 10 * cfg.rate / 1000
  {
    Fits(10 * cfg.rate);
    Fits(cfg.target + 10 * cfg.rate / 1000);
  }

  /** Without overflow, the threshold of a push is a tenth more than the target and 60 ms once
      playback has started, and before that the target and 10 ms; it goes by whether playback has
      started when the push looks, and only then the missing samples counted so far are forgotten. */
  lemma ThresholdIsLiteral(s: State, cfg: Setup)
    requires s.push == Threshold && cfg.target < 300_000_000 && cfg.rate < 60_000_000
    ensures var s' := Next(s, ReadsPlayed, cfg);
            if s.played
            then s'.push == Compare(cfg.target + cfg.target / 10 + 60 * cfg.rate / 1000) && s'.underflow == 0
            else s'.push == Compare(cfg.target + 10 * cfg.rate / 1000) && s'.underflow == s.underflow
  {
    if s.played { PlayedThreshold(cfg); } else { InitialThreshold(cfg); }
  }

  /** After a discontinuity, silence is written for as many samples as the target exceeds those
      buffered and those coming in, as far as the ring has room, and none if it does not. */
  lemma GapFillsToTarget(s: State, cfg: Setup)
    requires Inv(s, cfg) && s.push.Gap? && s.push.input + cfg.Capacity() < 0x1_0000_0000
    ensures var need := cfg.target - |s.buf| - s.push.input; var s' := Next(s, GapChecks, cfg);
            && s'.buf == s.buf && s'.written == s.written
            && (if need > 0 then s'.push == Quiet(need, s.push.data) else s'.push == First(s.push.data) && s'.underflow == 0)
  {
  }

  lemma FillWrites(s: State, cfg: Setup)
    requires s.push.QuietLoaded?
    ensures var s' := Next(s, QuietWrites, cfg); var k := if s.push.silence < s.push.room then s.push.silence else s.push.room;
            s'.buf == s.buf + Silence(k) && s'.push == First(s.push.data) && s'.underflow == 0
  {
    assert Silence(s.push.silence)[..Least(s.push.silence, s.push.room)] == Silence(Least(s.push.silence, s.push.room));
  }

  /** A whole discontinuity that nothing disturbs brings the buffer to its target: silence before the
      new samples for what they and the buffered ones lack. */
  lemma GapReachesTarget(s: State, cfg: Setup)
    requires Inv(s, cfg) && s.push.Gap? && s.push.input + cfg.Capacity() < 0x1_0000_0000
    requires |s.buf| + s.push.input < cfg.target
    ensures var s1 := Next(s, GapChecks, cfg); var s2 := Next(s1, QuietLoads, cfg); var s3 := Next(s2, QuietWrites, cfg);
            |s3.buf| + s.push.input == cfg.target && s3.push == First(s.push.data)
  {
    GapFillsToTarget(s, cfg);
    var s2 := Next(Next(s, GapChecks, cfg), QuietLoads, cfg);
    FillWrites(s2, cfg);
  }

  // ---- the player

  /** Before playback has started, a pull that goes on to the ring found the target buffered, and
      every output so far was silence. */
  predicate StartOk(s: State, cfg: Setup) {
    !s.played ==>
      && (forall i :: 0 <= i < |s.outputs| ==> s.outputs[i].got == [])
      && (s.pull.Reading? ==> s.pull.loaded >= cfg.target)
      && (s.pull.AfterRead? ==> |s.pull.got| >= Least(s.pull.n, cfg.target))
  }

  lemma StepStart(s: State, s': State, a: Action, cfg: Setup)
    requires Inv(s, cfg) && StartOk(s, cfg) && Enabled(s, a) && s' == Next(s, a, cfg)
    ensures StartOk(s', cfg)
  {
    match a
    case PullCalled(n) =>
    case PullLocks =>
    case PullLooks =>
    case PullReads =>
    case PullReturns =>
    case _ => PushLeavesPull(s, s', a, cfg);
  }

  lemma PushLeavesPull(s: State, s': State, a: Action, cfg: Setup)
    requires Enabled(s, a) && s' == Next(s, a, cfg)
    requires !a.PullCalled? && !a.PullLocks? && !a.PullLooks? && !a.PullReads? && !a.PullReturns?
    ensures s'.pull == s.pull && s'.played == s.played && s'.outputs == s.outputs
  {
  }

  lemma {:induction false} RunStart(s: State, acts: seq<Action>, cfg: Setup)
    requires Inv(s, cfg) && StartOk(s, cfg) && IsRun(s, acts, cfg)
    ensures StartOk(After(s, acts, cfg), cfg)
    decreases |acts|
  {
    if acts != [] {
      StepInv(s, Next(s, acts[0], cfg), acts[0], cfg);
      StepStart(s, Next(s, acts[0], cfg), acts[0], cfg);
      RunStart(Next(s, acts[0], cfg), acts[1..], cfg);
    }
  }

  /** The player hears nothing until the target has been buffered: until playback has started every
      output is silence, and the output that starts it has as many samples as asked for, or at least
      the target. */
  lemma SilenceUntilTarget(acts: seq<Action>, cfg: Setup)
    requires IsRun(Initial, acts, cfg)
    ensures var s := After(Initial, acts, cfg);
            !s.played ==>
              && (forall i :: 0 <= i < |s.outputs| ==> s.outputs[i].got == [])
              && (s.pull.AfterRead? ==> |s.pull.got| >= s.pull.n || |s.pull.got| >= cfg.target)
  {
    InitialInv(cfg);
    RunStart(Initial, acts, cfg);
  }

  /** Missing samples are counted from the end of the first push on: then, and never before, samples
      have been received. */
  lemma FirstPushReceives(s: State, a: Action, cfg: Setup)
    requires Enabled(s, a)
    ensures Next(s, a, cfg).received <==> s.received || a.Finishes?
    ensures a.Finishes? ==> Next(s, a, cfg).push == Idle && Next(s, a, cfg).buf == s.buf
  {
    match a
    case Finishes =>
    case _ => ReceivedStays(s, a, cfg);
  }

  lemma ReceivedStays(s: State, a: Action, cfg: Setup)
    requires Enabled(s, a) && !a.Finishes?
    ensures Next(s, a, cfg).received == s.received
  {
  }

  /** A pull gives silence exactly if playback has not started and less than the target is buffered;
      otherwise it takes the oldest samples there are, as many as are asked for or all of them, and
      starts playback; what it lacks is counted as missing once a push has completed. */
  lemma PullTakesAll(s: State, a: Action, cfg: Setup)
    requires Inv(s, cfg) && Enabled(s, a) && (a.PullLooks? || a.PullReads? || a.PullReturns?)
    ensures var s' := Next(s, a, cfg);
            && (a.PullLooks? ==>
                  && s'.buf == s.buf && s'.played == s.played && s'.underflow == s.underflow
                  && if !s.played && |s.buf| < cfg.target
                     then s'.pull == Resting && s'.outputs == s.outputs + [Output(s.pull.n, [])]
                     else s'.pull == Reading(s.pull.n, |s.buf|) && s'.outputs == s.outputs)
            && (a.PullReads? ==>
                  var k := if s.pull.n < s.pull.loaded then s.pull.n else s.pull.loaded;
                  k <= |s.buf| && s'.pull == AfterRead(s.pull.n, s.buf[..k]) && s'.buf == s.buf[k..])
            && (a.PullReturns? ==>
                  && s'.played && s'.buf == s.buf && s'.outputs == s.outputs + [Output(s.pull.n, s.pull.got)]
                  && s'.underflow == if s.received && |s.pull.got| < s.pull.n
                                     then (s.underflow + s.pull.n - |s.pull.got|) % 0x1_0000_0000 else s.underflow)
  {
  }
}
