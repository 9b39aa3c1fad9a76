/** The clip scheduler: the window an accepted trigger hands to the
    detached trim job (`cut_ball`), what that job trims (`cut_job`), and
    the name of the portrait rendition made from a trimmed clip
    (`make_vertical`). The external trim and render are opaque: the trim
    reports an exit code, the render's result is not looked at. */
module Clips {
  import opened Text
  import opened Wrappers
  import opened PathNames

  /** Seconds of footage before and after the trigger. */
  const RUNUP_SEC: real := 6.0
  const POST_SEC: real := 12.0
  /** Bounds of the clamped duration. */
  const BALL_MIN: real := 8.0
  const BALL_MAX: real := 25.0

  /** What the detached trim job is started with: a start offset, an end
      offset and the output path. */
  datatype ClipJob = ClipJob(start: real, end: real, outPath: string)

  /** `min(max(t2 - t1, BALL_MIN), BALL_MAX)`: the raw length clamped into
      [BALL_MIN, BALL_MAX]. */
  function ClampedDuration(t1: real, t2: real): (dur: real)
    ensures BALL_MIN <= dur <= BALL_MAX
    ensures BALL_MIN <= t2 - t1 <= BALL_MAX ==> dur == t2 - t1
    ensures t2 - t1 < BALL_MIN ==> dur == BALL_MIN
    ensures t2 - t1 > BALL_MAX ==> dur == BALL_MAX
  {
    var raw := t2 - t1;
    var atLeast := if raw > BALL_MIN then raw else BALL_MIN;
    if atLeast < BALL_MAX then atLeast else BALL_MAX
  }

  /** `f"ball_{ts}.mp4"` for the wall-clock second `clock`: a plain file
      name, so the clip lands directly in the clip folder. */
  function BallFileName(clock: nat): (name: string)
    ensures StartsWith(name, "ball_") && EndsWith(name, ".mp4")
    ensures forall i :: 0 <= i < |name| ==> name[i] != '/'
  {
    var d := Decimal(clock);
    var name := "ball_" + d + ".mp4";
    assert forall i :: 5 <= i < 5 + |d| ==> name[i] == d[i - 5];
    name
  }

  /** The length `cut_job` trims: its end argument minus its start. */
  function TrimDuration(job: ClipJob): real {
    job.end - job.start
  }

  /** `cut_ball(t1, t2, reason)`: the job gets end `t2 + dur`, not `t1 + dur`,
      so the trimmed length is the raw window plus the clamped duration. */
  function CutBall(t1: real, t2: real, ballsDir: string, clock: nat): (job: ClipJob)
    ensures job.start == t1
    ensures TrimDuration(job) == (t2 - t1) + ClampedDuration(t1, t2)
    ensures t1 <= t2 ==> TrimDuration(job) >= BALL_MIN
    ensures job.outPath == Join(ballsDir, BallFileName(clock))
  {
    var dur := ClampedDuration(t1, t2);
    ClipJob(t1, t2 + dur, Join(ballsDir, BallFileName(clock)))
  }

  /** The window every call site in the frame loop asks for: from RUNUP_SEC
      before the trigger (not before 0) to POST_SEC after it. The window
      holds the trigger, and the clip is named after the wall clock. */
  function EngineClip(t: real, ballsDir: string, clock: nat): (job: ClipJob)
    ensures t >= 0.0 ==> 0.0 <= job.start <= t < job.end
    ensures job.outPath == Join(ballsDir, BallFileName(clock))
  {
    var t1 := if 0.0 > t - RUNUP_SEC then 0.0 else t - RUNUP_SEC;
    CutBall(t1, t + POST_SEC, ballsDir, clock)
  }

  /** For a trigger at `t >= 0` the window starts at or after 0 and at or
      before `t`; what is trimmed is 36 s once `t >= 6`, and between 24 s
      and 36 s before that, never the clamped duration alone. */
  lemma EngineClipWindow(t: real, ballsDir: string, clock: nat)
    requires t >= 0.0
    ensures var job := EngineClip(t, ballsDir, clock);
      && 0.0 <= job.start <= t < job.end
      && (t >= RUNUP_SEC ==> job.start == t - RUNUP_SEC && TrimDuration(job) == 36.0)
      && (t < RUNUP_SEC ==> job.start == 0.0 && TrimDuration(job) == 2.0 * (t + POST_SEC))
      && 24.0 <= TrimDuration(job) <= 36.0
  {
  }

  /** `final_dir / f"{inp.stem}_V.mp4"` for a clip whose file name is
      `clipName`. */
  function VerticalPath(finalDir: string, clipName: string): string {
    Join(finalDir, VerticalName(clipName))
  }

  function VerticalName(clipName: string): (name: string)
    ensures EndsWith(name, "_V.mp4")
    // the rendition of a plain file name is a relative file name
    ensures (forall i :: 0 <= i < |clipName| ==> clipName[i] != '/') ==> name[0] != '/'
  {
    var stem := Stem(clipName);
    assert stem != [] ==> stem[0] == clipName[0];
    stem + "_V.mp4"
  }

  /** pathlib's `.name` of a path without a trailing slash. */
  function BaseName(p: string): (name: string)
    ensures forall i :: 0 <= i < |name| ==> name[i] != '/'
  {
    p[LastIndexOf(p, '/') + 1..]
  }

  /** What a finished trim job leaves behind: the clip the trim wrote, and
      the path the portrait render was asked to write. The render's own exit
      status is not looked at, so `renderTarget` says that the render was
      started, not that its file exists. */
  datatype CutOutcome = CutOutcome(clip: Option<string>, renderTarget: Option<string>)

  /** `cut_job`: the trim's exit code decides everything; on 0 the clip is
      kept and its rendition is requested in the reel folder, otherwise
      nothing is rendered. */
  function CutJob(job: ClipJob, trimExit: int, finalDir: string): (o: CutOutcome)
    ensures o.renderTarget.Some? <==> trimExit == 0
    ensures o.clip.Some? <==> trimExit == 0
    ensures trimExit == 0 ==> o.clip == Some(job.outPath)
    ensures trimExit == 0 ==> EndsWith(o.renderTarget.value, "_V.mp4")
    ensures trimExit == 0 ==> StartsWith(o.renderTarget.value, finalDir)
  {
    if trimExit == 0 then
      RenditionInFolder(finalDir, job.outPath);
      CutOutcome(Some(job.outPath), Some(VerticalPath(finalDir, BaseName(job.outPath))))
    else
      CutOutcome(None, None)
  }

  /** The rendition of any clip path lies in the reel folder and ends in
      `_V.mp4`. */
  lemma {:induction false} RenditionInFolder(finalDir: string, clipPath: string)
    ensures StartsWith(VerticalPath(finalDir, BaseName(clipPath)), finalDir)
    ensures EndsWith(VerticalPath(finalDir, BaseName(clipPath)), "_V.mp4")
  {
    var name := VerticalName(BaseName(clipPath));
    var p := Join(finalDir, name);
    Relative(name);
    EndsWithTransitive(p, name, "_V.mp4");
  }

  /** The last component of `dir/file` is `file`. */
  lemma {:induction false} BaseNameOfJoined(dir: string, file: string)
    requires PlainDir(dir) && forall i :: 0 <= i < |file| ==> file[i] != '/'
    ensures BaseName(dir + "/" + file) == file
  {
    var p := dir + "/" + file;
    LastIndexOfAt(p, '/', |dir|);
    assert p[|dir| + 1..] == file;
  }

  /** `join(dir, file)` for a plain directory and a plain file name. */
  lemma JoinPlain(dir: string, file: string)
    requires PlainDir(dir) && file != [] && file[0] != '/'
    ensures Join(dir, file) == dir + "/" + file
  {
    PlainDirNoTrailingSlash(dir);
    Relative(file);
    JoinRelative(dir, file);
  }

  /** Different names give different paths, however the directories relate. */
  lemma {:induction false} JoinedApart(d1: string, f1: string, d2: string, f2: string)
    requires PlainDir(d1) && PlainDir(d2) && |f1| != |f2|
    requires forall i :: 0 <= i < |f1| ==> f1[i] != '/'
    requires forall i :: 0 <= i < |f2| ==> f2[i] != '/'
    ensures d1 + "/" + f1 != d2 + "/" + f2
  {
    SplitOfJoined(d1, f1);
    SplitOfJoined(d2, f2);
  }

  /** The rendition name of a clip name is slash-free. */
  lemma {:induction false} RenditionNameSlashFree(clock: nat)
    ensures var v := "ball_" + Decimal(clock) + "_V.mp4";
      v != [] && v[0] != '/' && forall i :: 0 <= i < |v| ==> v[i] != '/'
  {
    var d := Decimal(clock);
    var v := "ball_" + d + "_V.mp4";
    assert forall i :: 5 <= i < 5 + |d| ==> v[i] == d[i - 5];
  }

  /** A successful trim of an engine clip keeps `ball_<clock>.mp4` in the
      clip folder and asks the render for `ball_<clock>_V.mp4` in the reel
      folder: a different path, even when the two folders coincide. */
  lemma {:induction false} EngineCutOutputs(t: real, ballsDir: string, finalDir: string, clock: nat)
    requires PlainDir(ballsDir) && PlainDir(finalDir)
    ensures var o := CutJob(EngineClip(t, ballsDir, clock), 0, finalDir);
      && o.clip == Some(ballsDir + "/" + "ball_" + Decimal(clock) + ".mp4")
      && o.renderTarget == Some(finalDir + "/" + "ball_" + Decimal(clock) + "_V.mp4")
      && o.clip != o.renderTarget
  {
    var name := BallFileName(clock);
    var vname := "ball_" + Decimal(clock) + "_V.mp4";
    JoinPlain(ballsDir, name);
    BaseNameOfJoined(ballsDir, name);
    VerticalOfBallFile(clock);
    RenditionNameSlashFree(clock);
    JoinPlain(finalDir, vname);
    JoinedApart(ballsDir, name, finalDir, vname);
    ConcatAssoc(ballsDir + "/", "ball_" + Decimal(clock), ".mp4");
    ConcatAssoc(ballsDir + "/", "ball_", Decimal(clock));
    ConcatAssoc(finalDir + "/", "ball_" + Decimal(clock), "_V.mp4");
    ConcatAssoc(finalDir + "/", "ball_", Decimal(clock));
  }

  /** The rendition of `ball_<ts>.mp4` is `ball_<ts>_V.mp4`. */
  lemma {:induction false} VerticalOfBallFile(clock: nat)
    ensures VerticalName(BallFileName(clock)) == "ball_" + Decimal(clock) + "_V.mp4"
  {
    var stem := "ball_" + Decimal(clock);
    assert PlainStem(stem) by {
      var d := Decimal(clock);
      forall i | 0 <= i < |stem| ensures stem[i] != '/' && stem[i] != '.' {
        if i >= 5 { assert stem[i] == d[i - 5]; }
      }
    }
    assert BallFileName(clock) == stem + ".mp4";
    StemOfJoined(stem, ".mp4");
  }
}
