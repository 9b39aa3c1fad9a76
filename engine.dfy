/** The detection engine's frame loop and its watchdog. Each decoded frame
    advances `frameId` and the time `t = frameId / FPS`; the loop then
    checks, in this order, the audio monitor's trigger, an OCR scan and the
    motion score, each against its own gap since `ballStart`, the time of
    the last accepted trigger. Accepting a trigger schedules a clip and
    moves `ballStart` to `t`, which holds off all three sources. A short
    video read ends the session; the watchdog then starts a new one from
    the initial state.

    The monitor's flag, the OCR engine's fragments, the grey-level
    difference sum against the previous frame and the wall clock arrive as
    inputs of each frame. */
module Engine {
  import opened Wrappers
  import opened OcrKeywords
  import opened Clips
  import SourceLocator

  const WIDTH: nat := 1920
  const HEIGHT: nat := 1080
  const FPS: real := 25.0
  /** Bytes of one raw bgr24 frame. */
  const FRAME_BYTES: nat := 1920 * 1080 * 3

  /** Seconds since `ballStart` each source must wait for. */
  const AUDIO_GAP: real := 10.0
  const OCR_GAP: real := 5.0
  const MOTION_GAP: real := 8.0
  /** Motion score thresholds (mean absolute grey difference per pixel). */
  const SCENE_THRESH: real := 12.0
  const MASSIVE_MOTION: real := 20.0

  /** What the OCR engine returned for the cropped region, or that it raised. */
  datatype OcrResult = Fragments(texts: seq<string>) | OcrFailure

  /** Everything the loop learns while handling one frame. `diffSum` is the
      sum of absolute grey differences against the previous frame; it is
      only looked at when there is a previous frame. */
  datatype FrameInput = FrameInput(
    bytesRead: nat,
    audioTrigger: bool,
    ocr: OcrResult,
    diffSum: nat,
    clock: nat)

  datatype Source = AudioRoar | OcrFound(keyword: string) | Motion

  /** The gap a source must wait for. */
  function Gap(source: Source): (g: real)
    ensures OCR_GAP <= g <= AUDIO_GAP
  {
    match source
    case AudioRoar => AUDIO_GAP
    case OcrFound(_) => OCR_GAP
    case Motion => MOTION_GAP
  }

  /** An accepted trigger: its source, its time and the clip it launched. */
  datatype Trigger = Trigger(source: Source, at: real, job: ClipJob)

  /** The loop's locals that survive from one frame to the next. */
  datatype EngineState = EngineState(frameId: nat, ballStart: real, lastOcrTime: real, hasPrev: bool)

  /** Every session starts here: no frame yet, no trigger, no previous frame. */
  const Initial: EngineState := EngineState(0, 0.0, 0.0, false)

  /** A state together with the triggers accepted so far. */
  datatype Session = Session(state: EngineState, triggers: seq<Trigger>)

  function FrameTime(id: nat): real {
    id as real / FPS
  }

  /** `np.sum(diff) / (WIDTH * HEIGHT)`: the mean grey-level difference per
      pixel, so each threshold is a bound on the summed difference. */
  function MotionScore(diffSum: nat): (score: real)
    ensures score >= 0.0
    ensures score > SCENE_THRESH <==> diffSum > 12 * WIDTH * HEIGHT
    ensures score > MASSIVE_MOTION <==> diffSum > 20 * WIDTH * HEIGHT
  {
    diffSum as real / (WIDTH * HEIGHT) as real
  }

  predicate FullRead(f: FrameInput) {
    f.bytesRead == FRAME_BYTES
  }

  function Accept(source: Source, t: real, ballsDir: string, clock: nat): Trigger {
    Trigger(source, t, EngineClip(t, ballsDir, clock))
  }

  /** What the three checks of one frame pass on to each other: the gate,
      the OCR clock and the clips accepted on this frame so far. */
  datatype Checks = Checks(ballStart: real, lastOcrTime: real, cuts: seq<Trigger>)

  /** A check either leaves the gate alone and accepts nothing, or accepts
      one clip for `source` after its gap and moves the gate to `t`. */
  ghost predicate GateStep(c: Checks, c': Checks, source: Source, t: real, ballsDir: string, clock: nat) {
    || (c'.cuts == c.cuts && c'.ballStart == c.ballStart)
    || (&& c'.cuts == c.cuts + [Accept(source, t, ballsDir, clock)]
        && t - c.ballStart > Gap(source) && c'.ballStart == t)
  }

  /** A. the audio monitor's flag, accepted after AUDIO_GAP. */
  function AudioCheck(c: Checks, t: real, f: FrameInput, ballsDir: string): (c': Checks)
    ensures GateStep(c, c', AudioRoar, t, ballsDir, f.clock) && c'.lastOcrTime == c.lastOcrTime
    ensures c'.cuts != c.cuts ==> f.audioTrigger
  {
    if f.audioTrigger && t - c.ballStart > AUDIO_GAP then
      Checks(t, c.lastOcrTime, c.cuts + [Accept(AudioRoar, t, ballsDir, f.clock)])
    else c
  }

  /** B. an OCR scan, at most every OCR_INTERVAL and only after OCR_GAP; the
      OCR clock moves on every scan. */
  function OcrCheck(c: Checks, t: real, f: FrameInput, ocrOn: bool, ballsDir: string): (c': Checks)
    ensures c'.lastOcrTime == c.lastOcrTime || c'.lastOcrTime == t
    // no scan unless OCR is on, OCR_INTERVAL has passed since the last scan
    // and OCR_GAP since the gate; then nothing changes
    ensures !(ocrOn && t - c.lastOcrTime > OCR_INTERVAL && t - c.ballStart > OCR_GAP) ==> c' == c
    // every admitted scan moves the OCR clock to `t`, whatever it reads
    ensures ocrOn && t - c.lastOcrTime > OCR_INTERVAL && t - c.ballStart > OCR_GAP ==> c'.lastOcrTime == t
    // an admitted scan whose text matches a keyword accepts that keyword's clip
    ensures ocrOn && t - c.lastOcrTime > OCR_INTERVAL && t - c.ballStart > OCR_GAP &&
            f.ocr.Fragments? && MatchKeyword(OcrText(f.ocr.texts)).Some? ==>
      c'.cuts == c.cuts + [Accept(OcrFound(MatchKeyword(OcrText(f.ocr.texts)).value), t, ballsDir, f.clock)]
    ensures c'.cuts != c.cuts ==>
      && ocrOn && f.ocr.Fragments?
      && MatchKeyword(OcrText(f.ocr.texts)).Some?
      && c'.cuts == c.cuts + [Accept(OcrFound(MatchKeyword(OcrText(f.ocr.texts)).value), t, ballsDir, f.clock)]
      && t - c.ballStart > OCR_GAP && c'.ballStart == t
    ensures c'.cuts == c.cuts ==> c'.ballStart == c.ballStart
  {
    if ocrOn && t - c.lastOcrTime > OCR_INTERVAL && t - c.ballStart > OCR_GAP then
      var found := if f.ocr.Fragments? then MatchKeyword(OcrText(f.ocr.texts)) else None;
      if found.Some? then Checks(t, t, c.cuts + [Accept(OcrFound(found.value), t, ballsDir, f.clock)])
      else Checks(c.ballStart, t, c.cuts)
    else c
  }

  /** C. the motion score against the previous frame, after MOTION_GAP. */
  function MotionCheck(c: Checks, t: real, hasPrev: bool, f: FrameInput, ballsDir: string): (c': Checks)
    ensures GateStep(c, c', Motion, t, ballsDir, f.clock) && c'.lastOcrTime == c.lastOcrTime
    ensures c'.cuts != c.cuts ==> hasPrev && MotionScore(f.diffSum) > MASSIVE_MOTION
  {
    var score := MotionScore(f.diffSum);
    if hasPrev && score > SCENE_THRESH && t - c.ballStart > MOTION_GAP && score > MASSIVE_MOTION then
      Checks(t, c.lastOcrTime, c.cuts + [Accept(Motion, t, ballsDir, f.clock)])
    else c
  }

  /** One iteration of the frame loop after a full read. */
  function FrameStep(s: EngineState, f: FrameInput, ocrOn: bool, ballsDir: string): (r: Session)
    ensures r.state.frameId == s.frameId + 1 && r.state.hasPrev
    // at most one clip per frame
    ensures |r.triggers| <= 1
    ensures r.triggers == [] ==> r.state.ballStart == s.ballStart
    ensures r.triggers != [] ==>
      var tr := r.triggers[0];
      && tr.at == FrameTime(s.frameId + 1) == r.state.ballStart
      && tr.at - s.ballStart > Gap(tr.source)
      && tr.job == EngineClip(tr.at, ballsDir, f.clock)
    ensures r.state.ballStart >= s.ballStart
    // no motion trigger without a previous frame, and none below the massive threshold
    ensures r.triggers != [] && r.triggers[0].source == Motion ==>
      s.hasPrev && MotionScore(f.diffSum) > MASSIVE_MOTION
    ensures r.triggers != [] && r.triggers[0].source == AudioRoar ==> f.audioTrigger
    ensures r.triggers != [] && r.triggers[0].source.OcrFound? ==>
      ocrOn && f.ocr.Fragments? &&
      MatchKeyword(OcrText(f.ocr.texts)) == Some(r.triggers[0].source.keyword)
    // the OCR clock moves only on a scan, and then to the current time
    ensures r.state.lastOcrTime == s.lastOcrTime || r.state.lastOcrTime == FrameTime(s.frameId + 1)
  {
    var t := FrameTime(s.frameId + 1);
    var c0 := Checks(s.ballStart, s.lastOcrTime, []);
    var c1 := AudioCheck(c0, t, f, ballsDir);
    var c2 := OcrCheck(c1, t, f, ocrOn, ballsDir);
    var c3 := MotionCheck(c2, t, s.hasPrev, f, ballsDir);
    Session(EngineState(s.frameId + 1, c3.ballStart, c3.lastOcrTime, true), c3.cuts)
  }

  predicate AllFull(frames: seq<FrameInput>) {
    forall j :: 0 <= j < |frames| ==> FullRead(frames[j])
  }

  /** The session after the full frames `frames`, from the initial state. */
  function RunFrames(frames: seq<FrameInput>, ocrOn: bool, ballsDir: string): (r: Session)
    requires AllFull(frames)
    ensures r.state.frameId == |frames|
  {
    if frames == [] then Session(Initial, [])
    else
      var prev := RunFrames(frames[..|frames| - 1], ocrOn, ballsDir);
      var step := FrameStep(prev.state, frames[|frames| - 1], ocrOn, ballsDir);
      Session(step.state, prev.triggers + step.triggers)
  }

  /** How many frames a session handles: those before the first short read. */
  function LeadingFull(frames: seq<FrameInput>): (n: nat)
    ensures n <= |frames| && AllFull(frames[..n])
    ensures n < |frames| ==> !FullRead(frames[n])
  {
    if frames == [] || !FullRead(frames[0]) then 0
    else
      var n := 1 + LeadingFull(frames[1..]);
      assert frames[..n] == [frames[0]] + frames[1..][..n - 1];
      n
  }

  /** The leading run of full reads is the only prefix of full reads that
      is followed by a short read or by the end. */
  lemma {:induction false} LeadingFullUnique(frames: seq<FrameInput>, n: nat)
    requires n <= |frames| && AllFull(frames[..n])
    requires n < |frames| ==> !FullRead(frames[n])
    ensures n == LeadingFull(frames)
  {
    if n > 0 {
      assert FullRead(frames[..n][0]);
      assert frames[1..][..n - 1] == frames[..n][1..];
      LeadingFullUnique(frames[1..], n - 1);
    }
  }

  /** The triggers one watchdog session accepts. */
  function SessionTriggers(frames: seq<FrameInput>, ocrOn: bool, ballsDir: string): seq<Trigger> {
    RunFrames(frames[..LeadingFull(frames)], ocrOn, ballsDir).triggers
  }

  /** A. the audio branch of the loop body. */
  method AudioPhase(c: Checks, t: real, f: FrameInput, ballsDir: string) returns (c': Checks)
    ensures c' == AudioCheck(c, t, f, ballsDir)
  {
    c' := c;
    if f.audioTrigger {
      if t - c.ballStart > AUDIO_GAP {
        c' := Checks(t, c.lastOcrTime, c.cuts + [Accept(AudioRoar, t, ballsDir, f.clock)]);
      }
    }
  }

  /** B. the OCR branch of the loop body; the keyword scan is the loop of
      `ScanKeywords`. */
  method OcrPhase(c: Checks, t: real, f: FrameInput, ocrOn: bool, ballsDir: string) returns (c': Checks)
    ensures c' == OcrCheck(c, t, f, ocrOn, ballsDir)
  {
    c' := c;
    if ocrOn && t - c.lastOcrTime > OCR_INTERVAL && t - c.ballStart > OCR_GAP {
      c' := c'.(lastOcrTime := t);
      if f.ocr.Fragments? {
        var k := ScanKeywords(OcrText(f.ocr.texts));
        if k.Some? {
          c' := Checks(t, t, c.cuts + [Accept(OcrFound(k.value), t, ballsDir, f.clock)]);
        }
      }
    }
  }

  /** C. the motion branch of the loop body. */
  method MotionPhase(c: Checks, t: real, hasPrev: bool, f: FrameInput, ballsDir: string) returns (c': Checks)
    ensures c' == MotionCheck(c, t, hasPrev, f, ballsDir)
  {
    c' := c;
    if hasPrev {
      var score := MotionScore(f.diffSum);
      if score > SCENE_THRESH && t - c.ballStart > MOTION_GAP {
        if score > MASSIVE_MOTION {
          c' := Checks(t, c.lastOcrTime, c.cuts + [Accept(Motion, t, ballsDir, f.clock)]);
        }
      }
    }
  }

  /** The body of the frame loop for one full read: the three checks in
      order, against the state the previous frame left. */
  method HandleFrame(s: EngineState, f: FrameInput, ocrOn: bool, ballsDir: string)
    returns (r: Session)
    ensures r == FrameStep(s, f, ocrOn, ballsDir)
  {
    var t := FrameTime(s.frameId + 1);
    var c := Checks(s.ballStart, s.lastOcrTime, []);
    c := AudioPhase(c, t, f, ballsDir);
    c := OcrPhase(c, t, f, ocrOn, ballsDir);
    c := MotionPhase(c, t, s.hasPrev, f, ballsDir);
    r := Session(EngineState(s.frameId + 1, c.ballStart, c.lastOcrTime, true), c.cuts);
  }

  /** One more full frame extends the session by that frame's step. */
  lemma RunFramesSnoc(frames: seq<FrameInput>, i: nat, ocrOn: bool, ballsDir: string)
    requires i < |frames| && AllFull(frames[..i]) && FullRead(frames[i])
    ensures AllFull(frames[..i + 1])
    ensures var prev := RunFrames(frames[..i], ocrOn, ballsDir);
      var step := FrameStep(prev.state, frames[i], ocrOn, ballsDir);
      RunFrames(frames[..i + 1], ocrOn, ballsDir) == Session(step.state, prev.triggers + step.triggers)
  {
    assert frames[..i + 1][..i] == frames[..i];
  }

  /** The frame loop of one session: read until a short read, then stop. */
  method RunSession(frames: seq<FrameInput>, ocrOn: bool, ballsDir: string)
    returns (triggers: seq<Trigger>, consumed: nat)
    ensures consumed == LeadingFull(frames)
    ensures triggers == SessionTriggers(frames, ocrOn, ballsDir)
  {
    var state := Initial;
    triggers := [];
    var i := 0;
    while i < |frames|
      invariant 0 <= i <= |frames| && AllFull(frames[..i])
      invariant RunFrames(frames[..i], ocrOn, ballsDir) == Session(state, triggers)
    {
      var f := frames[i];
      if f.bytesRead != FRAME_BYTES {
        break;
      }
      var r := HandleFrame(state, f, ocrOn, ballsDir);
      RunFramesSnoc(frames, i, ocrOn, ballsDir);
      state := r.state;
      triggers := triggers + r.triggers;
      i := i + 1;
    }
    consumed := i;
    LeadingFullUnique(frames, consumed);
  }

  /** The watchdog: the source locator is built once, then every session
      runs from the initial state over its own frames. */
  method RunEngine(fs: SourceLocator.LocalFs, vendor: string, sessions: seq<seq<FrameInput>>,
                   ocrOn: bool, ballsDir: string)
    returns (url: string, perSession: seq<seq<Trigger>>)
    ensures url == SourceLocator.BuildSrtUrl(fs, vendor)
    ensures |perSession| == |sessions|
    ensures forall i :: 0 <= i < |sessions| ==>
      perSession[i] == SessionTriggers(sessions[i], ocrOn, ballsDir)
  {
    url := SourceLocator.BuildSrtUrl(fs, vendor);
    perSession := [];
    for n := 0 to |sessions|
      invariant |perSession| == n
      invariant forall i :: 0 <= i < n ==> perSession[i] == SessionTriggers(sessions[i], ocrOn, ballsDir)
    {
      var triggers, _ := RunSession(sessions[n], ocrOn, ballsDir);
      perSession := perSession + [triggers];
    }
  }

  /** Accepted triggers are spaced out: the first comes after its own gap
      from time 0, and each later one comes more than its own source's gap
      after the one before. */
  predicate Debounced(trs: seq<Trigger>) {
    && (trs != [] ==> trs[0].at > Gap(trs[0].source))
    && forall i :: 0 < i < |trs| ==> SpacedAfter(trs, i)
  }

  /** Trigger `i` comes more than its source's gap after trigger `i - 1`. */
  predicate SpacedAfter(trs: seq<Trigger>, i: nat)
    requires 0 < i < |trs|
  {
    trs[i].at - trs[i - 1].at > Gap(trs[i].source)
  }

  /** Appending the at most one trigger of a frame keeps the triggers
      debounced and `ballStart` at the time of the last one. */
  lemma DebouncedAppend(trs: seq<Trigger>, more: seq<Trigger>, gate: real, gate': real)
    requires Debounced(trs) && gate == (if trs == [] then 0.0 else trs[|trs| - 1].at)
    requires |more| <= 1
    requires more == [] ==> gate' == gate
    requires more != [] ==> more[0].at == gate' && more[0].at - gate > Gap(more[0].source)
    ensures Debounced(trs + more)
    ensures gate' == (if trs + more == [] then 0.0 else (trs + more)[|trs + more| - 1].at)
  {
    if more != [] {
      var all := trs + more;
      assert all[|all| - 1] == more[0];
      forall i | 0 < i < |all| ensures SpacedAfter(all, i) {
        if i < |trs| {
          assert SpacedAfter(trs, i);
        }
      }
    } else {
      assert trs + more == trs;
    }
  }

  lemma {:induction false} SessionDebounced(frames: seq<FrameInput>, ocrOn: bool, ballsDir: string)
    requires AllFull(frames)
    ensures var r := RunFrames(frames, ocrOn, ballsDir);
      && Debounced(r.triggers)
      && r.state.hasPrev == (frames != [])
      && r.state.ballStart == (if r.triggers == [] then 0.0 else r.triggers[|r.triggers| - 1].at)
  {
    if frames != [] {
      var p := frames[..|frames| - 1];
      SessionDebounced(p, ocrOn, ballsDir);
      var prev := RunFrames(p, ocrOn, ballsDir);
      var step := FrameStep(prev.state, frames[|frames| - 1], ocrOn, ballsDir);
      assert RunFrames(frames, ocrOn, ballsDir) == Session(step.state, prev.triggers + step.triggers);
      DebouncedAppend(prev.triggers, step.triggers, prev.state.ballStart, step.state.ballStart);
    }
  }

  /** Successive accepted triggers are more than 5 s (the OCR gap, the
      smallest of the three) apart, so their times strictly increase. */
  lemma {:induction false} TriggersAtLeastOcrGapApart(frames: seq<FrameInput>, ocrOn: bool, ballsDir: string,
                                    i: nat, j: nat)
    requires AllFull(frames)
    requires i < j < |RunFrames(frames, ocrOn, ballsDir).triggers|
    ensures var trs := RunFrames(frames, ocrOn, ballsDir).triggers;
      trs[j].at - trs[i].at > OCR_GAP
  {
    SessionDebounced(frames, ocrOn, ballsDir);
    DebouncedApart(RunFrames(frames, ocrOn, ballsDir).triggers, i, j);
  }

  /** In a debounced list any two triggers are more than the OCR gap apart. */
  lemma {:induction false} DebouncedApart(trs: seq<Trigger>, i: nat, j: nat)
    requires Debounced(trs) && i < j < |trs|
    ensures trs[j].at - trs[i].at > OCR_GAP
  {
    var k := j - 1;
    assert SpacedAfter(trs, j);
    while k > i
      invariant i <= k < j
      invariant trs[j].at - trs[k].at > OCR_GAP
    {
      assert SpacedAfter(trs, k);
      k := k - 1;
    }
  }

  /** The OCR rate limit: the OCR clock moves, and an OCR clip is accepted,
      only on a frame more than OCR_INTERVAL after the last scan. */
  lemma OcrRateLimit(s: EngineState, f: FrameInput, ocrOn: bool, ballsDir: string)
    ensures var r := FrameStep(s, f, ocrOn, ballsDir);
      r.state.lastOcrTime != s.lastOcrTime || (r.triggers != [] && r.triggers[0].source.OcrFound?) ==>
        ocrOn && FrameTime(s.frameId + 1) - s.lastOcrTime > OCR_INTERVAL
  {
  }

  /** With the audio flag not admitted, an OCR scan that is due and reads a
      keyword after OCR_GAP accepts exactly that keyword's clip. */
  lemma OcrFires(s: EngineState, f: FrameInput, ocrOn: bool, ballsDir: string, k: string)
    requires !(f.audioTrigger && FrameTime(s.frameId + 1) - s.ballStart > AUDIO_GAP)
    requires ocrOn && FrameTime(s.frameId + 1) - s.lastOcrTime > OCR_INTERVAL
    requires FrameTime(s.frameId + 1) - s.ballStart > OCR_GAP
    requires f.ocr.Fragments? && MatchKeyword(OcrText(f.ocr.texts)) == Some(k)
    ensures var t := FrameTime(s.frameId + 1);
      var r := FrameStep(s, f, ocrOn, ballsDir);
      && r.triggers == [Accept(OcrFound(k), t, ballsDir, f.clock)]
      && r.state.ballStart == t && r.state.lastOcrTime == t
  {
  }

  /** The first frame of a session never yields a motion clip, whatever
      difference sum it carries. */
  lemma NoMotionOnFirstFrame(f: FrameInput, ocrOn: bool, ballsDir: string)
    ensures forall i :: 0 <= i < |FrameStep(Initial, f, ocrOn, ballsDir).triggers| ==>
      FrameStep(Initial, f, ocrOn, ballsDir).triggers[i].source != Motion
  {
  }

  /** On a frame where neither audio nor OCR can fire, motion fires exactly
      when there is a previous frame, the score exceeds 20 and 8 s have
      passed; a score between 12 and 20 never fires. */
  lemma MotionNeedsMassiveScore(s: EngineState, f: FrameInput, ballsDir: string)
    requires !f.audioTrigger
    ensures var r := FrameStep(s, f, false, ballsDir);
      r.triggers != [] <==>
        s.hasPrev && MotionScore(f.diffSum) > MASSIVE_MOTION &&
        FrameTime(s.frameId + 1) - s.ballStart > MOTION_GAP
  {
  }

  /** Audio is checked first: when its flag is up and 10 s have passed, the
      frame's one clip is the audio clip. */
  lemma AudioHasPriority(s: EngineState, f: FrameInput, ocrOn: bool, ballsDir: string)
    requires f.audioTrigger && FrameTime(s.frameId + 1) - s.ballStart > AUDIO_GAP
    ensures FrameStep(s, f, ocrOn, ballsDir).triggers ==
      [Accept(AudioRoar, FrameTime(s.frameId + 1), ballsDir, f.clock)]
  {
  }

  /** An audio flag seen during the cool-down is dropped: the frame behaves
      as if the flag had been down, and nothing of it is kept for later. */
  lemma RejectedAudioIsDropped(s: EngineState, f: FrameInput, ocrOn: bool, ballsDir: string)
    requires FrameTime(s.frameId + 1) - s.ballStart <= AUDIO_GAP
    ensures FrameStep(s, f, ocrOn, ballsDir) == FrameStep(s, f.(audioTrigger := false), ocrOn, ballsDir)
  {
  }

  /** The OCR clock moves on every scan, whether the scan matches, misses
      or the OCR engine raises. */
  lemma OcrClockIgnoresOutcome(s: EngineState, f: FrameInput, ocr: OcrResult, ocrOn: bool, ballsDir: string)
    ensures FrameStep(s, f, ocrOn, ballsDir).state.lastOcrTime ==
            FrameStep(s, f.(ocr := ocr), ocrOn, ballsDir).state.lastOcrTime
  {
  }
}
