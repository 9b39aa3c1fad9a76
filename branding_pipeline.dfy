/** The branding worker's handling of one job (`process_video`): find the
    source clip, choose the assets, run the enabled steps logo, intro and
    outro in that order, each reading the output of the one before, then
    move the last output (or a copy of the source) to `final_<filename>`.
    Each step writes a temporary file named after the job's timestamp;
    whatever happens, every temporary file except the current one is
    removed at the end.

    The file system is a set of paths. Each ffmpeg step is opaque: it
    either produces its output file or fails with a message, possibly
    leaving a partial output behind. The timestamp is an input. */
module Branding {
  import opened Text
  import opened Wrappers
  import opened PathNames
  import opened Assets

  /** The directory the worker lives in; all others hang off it. */
  datatype Env = Env(baseDir: string)

  function MatchesRoot(env: Env): string { Join(env.baseDir, "matches") }
  function LogosDir(env: Env): string { Join(env.baseDir, "logos") }
  function AssetsDir(env: Env): string { Join(env.baseDir, "assets") }
  function OutputRoot(env: Env): string { Join(env.baseDir, "branded_output") }
  function ErrorsDir(env: Env): string { Join(env.baseDir, "errors") }

  /** A queued job as the worker reads it. An absent or empty logo means
      no logo. */
  datatype Job = Job(
    filename: string,
    matchName: string,
    subfolder: string,
    logo: Option<string>,
    useIntro: bool,
    useOutro: bool)

  /** `matches/<match>/<sub>/<filename>`. */
  function SourceIn(env: Env, job: Job, sub: string): (p: string)
    ensures EndsWith(p, job.filename)
  {
    Join(Join(Join(MatchesRoot(env), job.matchName), sub), job.filename)
  }

  /** The requested sub-folder is tried first, then the fallback one for
      the job's orientation; nothing is found when neither holds the file. */
  function LocateSource(env: Env, job: Job, fs: set<string>): (r: Option<string>)
    ensures r.Some? ==> r.value in fs
    ensures SourceIn(env, job, job.subfolder) in fs ==> r == Some(SourceIn(env, job, job.subfolder))
    ensures SourceIn(env, job, job.subfolder) !in fs ==>
      var fallback := SourceIn(env, job, FallbackSubfolder(IsVertical(job.filename)));
      r == if fallback in fs then Some(fallback) else None
  {
    var requested := SourceIn(env, job, job.subfolder);
    if requested in fs then Some(requested)
    else
      var fallback := SourceIn(env, job, FallbackSubfolder(IsVertical(job.filename)));
      if fallback in fs then Some(fallback) else None
  }

  datatype Step = Logo | Intro | Outro

  /** The fixed order of the steps. */
  const STEP_ORDER: seq<Step> := [Logo, Intro, Outro]

  /** What `process_video` has decided before the first step runs. */
  datatype Plan = Plan(
    original: string,
    logo: Option<string>,
    intro: string,
    outro: string,
    useIntro: bool,
    useOutro: bool,
    finalOutput: string,
    errFile: string,
    tmpLogo: string,
    tmpIntro: string,
    tmpOutro: string)

  function OutputDir(env: Env, job: Job): string {
    Join(OutputRoot(env), job.matchName)
  }

  /** `tmp_<kind>_<ts>.mp4`. */
  function TempName(kind: string, ts: nat): string {
    "tmp_" + kind + "_" + Decimal(ts) + ".mp4"
  }

  function TempPath(env: Env, job: Job, kind: string, ts: nat): string {
    Join(OutputDir(env, job), TempName(kind, ts))
  }

  function FinalOutput(env: Env, job: Job): string {
    Join(OutputDir(env, job), "final_" + job.filename)
  }

  function ErrFile(env: Env, job: Job): string {
    Join(ErrorsDir(env), job.filename + ".json")
  }

  function IntroBase(env: Env): (p: string)
    ensures p != ""
  {
    Join(AssetsDir(env), "intro.mp4")
  }

  function OutroBase(env: Env): (p: string)
    ensures p != ""
  {
    Join(AssetsDir(env), "outro.mp4")
  }

  function LogoBase(env: Env, name: string): string {
    Join(LogosDir(env), name)
  }

  function MakePlan(env: Env, job: Job, original: string, fs: set<string>, ts: nat): (plan: Plan)
    ensures plan.original == original
    ensures plan.finalOutput == FinalOutput(env, job)
    ensures plan.errFile == ErrFile(env, job)
    ensures plan.tmpLogo == TempPath(env, job, "logo", ts)
    ensures plan.tmpIntro == TempPath(env, job, "intro", ts)
    ensures plan.tmpOutro == TempPath(env, job, "outro", ts)
    // no logo name, no logo step
    ensures job.logo.None? || job.logo.value == "" ==> plan.logo.None?
    // a 16:9 job uses the base assets untouched
    ensures !IsVertical(job.filename) ==>
      && plan.intro == IntroBase(env)
      && plan.outro == OutroBase(env)
      && (job.logo.Some? && job.logo.value != "" ==> plan.logo == Some(LogoBase(env, job.logo.value)))
    // a reel takes each asset's `_vertical` sibling where that exists
    ensures IsVertical(job.filename) ==>
      && Some(plan.intro) == GetVerticalAsset(Some(IntroBase(env)), fs)
      && Some(plan.outro) == GetVerticalAsset(Some(OutroBase(env)), fs)
      && (job.logo.Some? && job.logo.value != "" ==>
            plan.logo == GetVerticalAsset(Some(LogoBase(env, job.logo.value)), fs))
  {
    var vertical := IsVertical(job.filename);
    var logo :=
      if job.logo.Some? && job.logo.value != "" then SelectAsset(LogoBase(env, job.logo.value), vertical, fs)
      else None;
    Plan(original, logo, SelectAsset(IntroBase(env), vertical, fs).value, SelectAsset(OutroBase(env), vertical, fs).value,
         job.useIntro, job.useOutro, FinalOutput(env, job), ErrFile(env, job),
         TempPath(env, job, "logo", ts), TempPath(env, job, "intro", ts), TempPath(env, job, "outro", ts))
  }

  /** The asset a step overlays or concatenates, when the job asks for it. */
  function Asset(plan: Plan, step: Step): Option<string> {
    match step
    case Logo => plan.logo
    case Intro => if plan.useIntro then Some(plan.intro) else None
    case Outro => if plan.useOutro then Some(plan.outro) else None
  }

  function Temp(plan: Plan, step: Step): string {
    match step
    case Logo => plan.tmpLogo
    case Intro => plan.tmpIntro
    case Outro => plan.tmpOutro
  }

  /** A step runs when it is asked for and its asset exists at that moment. */
  predicate Enabled(plan: Plan, step: Step, fs: set<string>) {
    Asset(plan, step).Some? && Asset(plan, step).value in fs
  }

  /** How one ffmpeg invocation ends. */
  datatype StepResult = Produced | Failed(message: string, leftPartial: bool)

  /** How each of the three invocations of a job would end. */
  datatype Tools = Tools(logo: StepResult, intro: StepResult, outro: StepResult)

  function ResultOf(tools: Tools, step: Step): StepResult {
    match step
    case Logo => tools.logo
    case Intro => tools.intro
    case Outro => tools.outro
  }

  /** The state inside the `try`: the files, `current_pointer`,
      `files_to_cleanup` and the message of the step that raised. */
  datatype Progress = Progress(fs: set<string>, pointer: string, cleanup: seq<string>, failure: Option<string>)

  /** One step, run on a pipeline that has not failed. */
  function Advance(plan: Plan, tools: Tools, p: Progress, step: Step): (q: Progress)
    requires p.failure.None?
    ensures !Enabled(plan, step, p.fs) ==> q == p
    ensures Enabled(plan, step, p.fs) && ResultOf(tools, step) == Produced ==>
      q == Progress(p.fs + {Temp(plan, step)}, Temp(plan, step), p.cleanup + [Temp(plan, step)], None)
    ensures Enabled(plan, step, p.fs) && ResultOf(tools, step).Failed? ==>
      && q.failure == Some(ResultOf(tools, step).message)
      && q.pointer == p.pointer && q.cleanup == p.cleanup
      && p.fs <= q.fs <= p.fs + {Temp(plan, step)}
  {
    if !Enabled(plan, step, p.fs) then p
    else
      var out := Temp(plan, step);
      match ResultOf(tools, step)
      case Produced => Progress(p.fs + {out}, out, p.cleanup + [out], None)
      case Failed(message, leftPartial) =>
        Progress(if leftPartial then p.fs + {out} else p.fs, p.pointer, p.cleanup, Some(message))
  }

  /** The steps in order, up to the first one that raises. */
  function RunSteps(plan: Plan, tools: Tools, p: Progress, steps: seq<Step>): (r: Progress)
    decreases |steps|
    ensures p.failure.Some? ==> r == p
    ensures p.fs <= r.fs
  {
    if steps == [] || p.failure.Some? then p
    else RunSteps(plan, tools, Advance(plan, tools, p, steps[0]), steps[1..])
  }

  /** The whole `try` block's steps, from the source clip. */
  function Pipeline(plan: Plan, tools: Tools, fs: set<string>): (p: Progress)
    ensures fs <= p.fs
  {
    RunSteps(plan, tools, Progress(fs, plan.original, [], None), STEP_ORDER)
  }

  /** The temporary outputs of `steps`, in order. */
  function TempsOf(plan: Plan, steps: seq<Step>): (ts: seq<string>)
    ensures |ts| == |steps|
  {
    if steps == [] then [] else [Temp(plan, steps[0])] + TempsOf(plan, steps[1..])
  }

  /** `a` is `b` with some elements left out, order kept. */
  predicate SubseqOf(a: seq<string>, b: seq<string>)
    decreases |b|
  {
    a == [] || (b != [] && ((a[0] == b[0] && SubseqOf(a[1..], b[1..])) || SubseqOf(a, b[1..])))
  }

  lemma {:induction false} SubseqMembers(a: seq<string>, b: seq<string>, x: string)
    requires SubseqOf(a, b) && x in a
    ensures x in b
    decreases |b|
  {
    if a[0] == b[0] && SubseqOf(a[1..], b[1..]) {
      if x != a[0] {
        SubseqMembers(a[1..], b[1..], x);
      }
    } else {
      SubseqMembers(a, b[1..], x);
    }
  }

  /** The temporary files a run of steps appends are the outputs of the
      steps that produced them, in step order; the pointer is the last of
      them, or unchanged when none was produced; each of them exists. */
  lemma {:induction false} RunStepsShape(plan: Plan, tools: Tools, p: Progress, steps: seq<Step>)
    decreases |steps|
    ensures var r := RunSteps(plan, tools, p, steps);
      && |p.cleanup| <= |r.cleanup| && r.cleanup[..|p.cleanup|] == p.cleanup
      && SubseqOf(r.cleanup[|p.cleanup|..], TempsOf(plan, steps))
      && r.pointer == (if |r.cleanup| == |p.cleanup| then p.pointer else r.cleanup[|r.cleanup| - 1])
      && forall i :: |p.cleanup| <= i < |r.cleanup| ==> r.cleanup[i] in r.fs
  {
    var r := RunSteps(plan, tools, p, steps);
    if steps == [] || p.failure.Some? {
      assert r == p;
      assert r.cleanup[|p.cleanup|..] == [];
    } else {
      var q := Advance(plan, tools, p, steps[0]);
      RunStepsShape(plan, tools, q, steps[1..]);
      assert r == RunSteps(plan, tools, q, steps[1..]);
      var temps := TempsOf(plan, steps);
      assert temps[0] == Temp(plan, steps[0]) && temps[1..] == TempsOf(plan, steps[1..]);
      if q.cleanup == p.cleanup {
        assert r.cleanup[|p.cleanup|..] == r.cleanup[|q.cleanup|..];
      } else {
        assert q.cleanup == p.cleanup + [Temp(plan, steps[0])];
        assert q.pointer == Temp(plan, steps[0]) && q.pointer in q.fs;
        var added := r.cleanup[|p.cleanup|..];
        assert added[0] == Temp(plan, steps[0]);
        assert added[1..] == r.cleanup[|q.cleanup|..];
        assert r.cleanup[..|p.cleanup|] == r.cleanup[..|q.cleanup|][..|p.cleanup|];
        assert q.cleanup[|p.cleanup|] in q.fs;
      }
    }
  }

  /** `Finalise`: an old final output is replaced; the source is copied
      when no step ran, otherwise the last output is renamed; a stale error
      record is removed. */
  function Finalise(plan: Plan, fs: set<string>, pointer: string): (fs': set<string>)
    ensures plan.errFile !in fs'
    ensures plan.finalOutput != plan.errFile ==> plan.finalOutput in fs'
    ensures pointer != plan.original && pointer != plan.finalOutput ==> pointer !in fs'
    ensures forall x :: x in fs' && x != plan.finalOutput ==> x in fs
    ensures forall x :: (x in fs && x != plan.finalOutput && x != plan.errFile &&
                         (x == plan.original || x != pointer)) ==> x in fs'
  {
    var cleared := fs - {plan.finalOutput};
    var placed :=
      if pointer == plan.original then cleared + {plan.finalOutput}
      else (cleared - {pointer}) + {plan.finalOutput};
    placed - {plan.errFile}
  }

  /** The `finally` loop: every listed temporary file except the pointer
      is removed. */
  function Cleanup(fs: set<string>, files: seq<string>, pointer: string): (fs': set<string>)
    ensures forall x :: x in fs' <==> x in fs && (x !in files || x == pointer)
  {
    if files == [] then fs
    else
      var last := files[|files| - 1];
      var rest := Cleanup(fs, files[..|files| - 1], pointer);
      assert forall x :: x in files <==> x in files[..|files| - 1] || x == last;
      if last in rest && last != pointer then rest - {last} else rest
  }

  /** Whether the job succeeded, the files afterwards and the message
      written to the error record, if any. */
  datatype Outcome = Outcome(ok: bool, fs: set<string>, errorRecord: Option<string>)

  function Process(env: Env, job: Job, fs: set<string>, ts: nat, tools: Tools): (o: Outcome)
    // a missing source fails at once and touches nothing
    ensures LocateSource(env, job, fs).None? ==> o == Outcome(false, fs, None)
    // success exactly when the source is found and no step raises
    ensures o.ok <==> (LocateSource(env, job, fs).Some? &&
      Pipeline(MakePlan(env, job, LocateSource(env, job, fs).value, fs, ts), tools, fs).failure.None?)
    // an error record is written exactly when a step raised, with its message
    ensures o.errorRecord.Some? <==> LocateSource(env, job, fs).Some? && !o.ok
    ensures o.errorRecord.Some? ==>
      o.errorRecord == Pipeline(MakePlan(env, job, LocateSource(env, job, fs).value, fs, ts), tools, fs).failure
  {
    match LocateSource(env, job, fs)
    case None => Outcome(false, fs, None)
    case Some(original) => Execute(MakePlan(env, job, original, fs, ts), tools, fs)
  }

  /** The `try`, `except` and `finally` of a job whose source was found. */
  function Execute(plan: Plan, tools: Tools, fs: set<string>): (o: Outcome)
    ensures o.ok <==> Pipeline(plan, tools, fs).failure.None?
    ensures o.errorRecord == Pipeline(plan, tools, fs).failure
  {
    var p := Pipeline(plan, tools, fs);
    match p.failure
    case None => Outcome(true, Cleanup(Finalise(plan, p.fs, p.pointer), p.cleanup, p.pointer), None)
    case Some(message) => Outcome(false, Cleanup(p.fs + {plan.errFile}, p.cleanup, p.pointer), Some(message))
  }

  /** `x` is one of the job's three temporary files. */
  predicate IsTemp(plan: Plan, x: string) {
    x == plan.tmpLogo || x == plan.tmpIntro || x == plan.tmpOutro
  }

  /** Names under which the worker's directories stay apart: an absolute
      worker directory without a trailing slash, and relative job fields. */
  predicate SaneNames(env: Env, job: Job) {
    && env.baseDir != "" && !EndsWith(env.baseDir, "/")
    && !StartsWith(job.matchName, "/") && !StartsWith(job.subfolder, "/") && !StartsWith(job.filename, "/")
  }

  /** `os.path.join(base, d)` for a plain sub-directory name. */
  lemma SubdirOfBase(env: Env, d: string)
    requires env.baseDir != "" && !EndsWith(env.baseDir, "/")
    requires d != [] && d[0] != '/'
    ensures Join(env.baseDir, d) == env.baseDir + "/" + d
  {
    assert !StartsWith(d, "/") by {
      assert d[..1] == [d[0]];
    }
  }

  lemma {:induction false} SourceUnderMatches(env: Env, job: Job, sub: string)
    requires SaneNames(env, job) && !StartsWith(sub, "/")
    ensures StartsWith(SourceIn(env, job, sub), env.baseDir + "/" + "matches")
  {
    var root := MatchesRoot(env);
    SubdirOfBase(env, "matches");
    assert StartsWith(root, root);
    JoinKeepsPrefix(root, job.matchName, root);
    var a := Join(root, job.matchName);
    JoinKeepsPrefix(a, sub, root);
    JoinKeepsPrefix(Join(a, sub), job.filename, root);
  }

  /** The final and temporary files of a job lie under `branded_output`. */
  lemma {:induction false} OutputUnderRoot(env: Env, job: Job, name: string)
    requires SaneNames(env, job) && name != [] && name[0] != '/'
    ensures StartsWith(Join(OutputDir(env, job), name), env.baseDir + "/" + "branded_output")
  {
    var root := OutputRoot(env);
    SubdirOfBase(env, "branded_output");
    assert StartsWith(root, root);
    JoinKeepsPrefix(root, job.matchName, root);
    Relative(name);
    JoinKeepsPrefix(OutputDir(env, job), name, root);
  }

  /** The error record of a job lies under `errors`. */
  lemma {:induction false} RecordUnderErrors(env: Env, job: Job)
    requires SaneNames(env, job)
    ensures StartsWith(ErrFile(env, job), env.baseDir + "/" + "errors")
  {
    var root := ErrorsDir(env);
    SubdirOfBase(env, "errors");
    assert StartsWith(root, root);
    var record := job.filename + ".json";
    if job.filename == "" {
      assert record[0] == '.';
    } else {
      assert job.filename[..1] == [job.filename[0]];
      assert record[0] == job.filename[0];
    }
    Relative(record);
    JoinKeepsPrefix(root, record, root);
  }

  /** Paths under `base/matches`, `base/branded_output` and `base/errors`
      are pairwise different. */
  lemma {:induction false} RootsApart(base: string, source: string, output: string, record: string)
    requires StartsWith(source, base + "/" + "matches")
    requires StartsWith(output, base + "/" + "branded_output")
    requires StartsWith(record, base + "/" + "errors")
    ensures source != output && source != record && output != record
  {
    var k := |base| + 1;
    StartsWithAt(source, base + "/" + "matches", k);
    StartsWithAt(output, base + "/" + "branded_output", k);
    StartsWithAt(record, base + "/" + "errors", k);
    DifferAt(source, output, k);
    DifferAt(source, record, k);
    DifferAt(output, record, k);
  }

  /** A temporary file is never the final output. */
  lemma {:induction false} TempIsNotFinal(env: Env, job: Job, kind: string, ts: nat)
    ensures TempPath(env, job, kind, ts) != FinalOutput(env, job)
  {
    var name := TempName(kind, ts);
    var finalName := "final_" + job.filename;
    DifferAt(name, finalName, 0);
    Relative(name);
    Relative(finalName);
    JoinDistinct(OutputDir(env, job), name, finalName);
  }

  /** The located source lies under `matches`. */
  lemma {:induction false} LocatedUnderMatches(env: Env, job: Job, fs: set<string>)
    requires SaneNames(env, job) && LocateSource(env, job, fs).Some?
    ensures StartsWith(LocateSource(env, job, fs).value, env.baseDir + "/" + "matches")
  {
    var fallback := FallbackSubfolder(IsVertical(job.filename));
    Relative(fallback);
    SourceUnderMatches(env, job, job.subfolder);
    SourceUnderMatches(env, job, fallback);
  }

  /** A temporary file is neither the source clip, the final output nor
      the error record. */
  lemma {:induction false} TempApart(env: Env, job: Job, original: string, kind: string, ts: nat)
    requires SaneNames(env, job) && StartsWith(original, env.baseDir + "/" + "matches")
    ensures var tmp := TempPath(env, job, kind, ts);
      tmp != original && tmp != ErrFile(env, job) && tmp != FinalOutput(env, job)
  {
    RecordUnderErrors(env, job);
    OutputUnderRoot(env, job, TempName(kind, ts));
    RootsApart(env.baseDir, original, TempPath(env, job, kind, ts), ErrFile(env, job));
    TempIsNotFinal(env, job, kind, ts);
  }

  /** The final output is neither the source clip nor the error record. */
  lemma {:induction false} FinalApart(env: Env, job: Job, original: string)
    requires SaneNames(env, job) && StartsWith(original, env.baseDir + "/" + "matches")
    ensures original != FinalOutput(env, job) && original != ErrFile(env, job)
    ensures FinalOutput(env, job) != ErrFile(env, job)
  {
    RecordUnderErrors(env, job);
    OutputUnderRoot(env, job, "final_" + job.filename);
    RootsApart(env.baseDir, original, FinalOutput(env, job), ErrFile(env, job));
  }

  /** The source clip, the final output, the error record and the three
      temporary files of a plan are distinct paths. */
  predicate Layout(plan: Plan) {
    && !IsTemp(plan, plan.original) && !IsTemp(plan, plan.errFile) && !IsTemp(plan, plan.finalOutput)
    && plan.original != plan.finalOutput && plan.original != plan.errFile
    && plan.finalOutput != plan.errFile
  }

  /** No temporary file `t` is the source clip, the final output or the
      error record. */
  predicate TempApartFrom(t: string, original: string, finalOutput: string, errFile: string) {
    t != original && t != finalOutput && t != errFile
  }

  lemma {:induction false} JobPathsApart(env: Env, job: Job, original: string, ts: nat)
    requires SaneNames(env, job) && StartsWith(original, env.baseDir + "/" + "matches")
    ensures original != FinalOutput(env, job) && original != ErrFile(env, job)
    ensures FinalOutput(env, job) != ErrFile(env, job)
    ensures TempApartFrom(TempPath(env, job, "logo", ts), original, FinalOutput(env, job), ErrFile(env, job))
    ensures TempApartFrom(TempPath(env, job, "intro", ts), original, FinalOutput(env, job), ErrFile(env, job))
    ensures TempApartFrom(TempPath(env, job, "outro", ts), original, FinalOutput(env, job), ErrFile(env, job))
  {
    FinalApart(env, job, original);
    TempApart(env, job, original, "logo", ts);
    TempApart(env, job, original, "intro", ts);
    TempApart(env, job, original, "outro", ts);
  }

  lemma LayoutOfPaths(plan: Plan)
    requires plan.original != plan.finalOutput && plan.original != plan.errFile && plan.finalOutput != plan.errFile
    requires TempApartFrom(plan.tmpLogo, plan.original, plan.finalOutput, plan.errFile)
    requires TempApartFrom(plan.tmpIntro, plan.original, plan.finalOutput, plan.errFile)
    requires TempApartFrom(plan.tmpOutro, plan.original, plan.finalOutput, plan.errFile)
    ensures Layout(plan)
  {
  }

  lemma {:induction false} PlanLayout(env: Env, job: Job, fs: set<string>, ts: nat)
    requires SaneNames(env, job) && LocateSource(env, job, fs).Some?
    ensures Layout(MakePlan(env, job, LocateSource(env, job, fs).value, fs, ts))
  {
    var original := LocateSource(env, job, fs).value;
    var plan := MakePlan(env, job, original, fs, ts);
    LocatedUnderMatches(env, job, fs);
    JobPathsApart(env, job, original, ts);
    LayoutOfPaths(plan);
  }

  /** The `try` block's bookkeeping: `files_to_cleanup` lists temporary
      outputs in step order, each produced file exists, the pointer is the
      last of them or the source, and no file disappears. */
  lemma {:induction false} PipelineShape(plan: Plan, tools: Tools, fs: set<string>)
    requires plan.original in fs
    ensures var p := Pipeline(plan, tools, fs);
      var temps := [plan.tmpLogo, plan.tmpIntro, plan.tmpOutro];
      && SubseqOf(p.cleanup, temps)
      && (forall x :: x in p.cleanup ==> IsTemp(plan, x) && x in p.fs)
      && p.pointer == (if p.cleanup == [] then plan.original else p.cleanup[|p.cleanup| - 1])
      && p.pointer in p.fs
      && fs <= p.fs
  {
    var p0 := Progress(fs, plan.original, [], None);
    var p := Pipeline(plan, tools, fs);
    RunStepsShape(plan, tools, p0, STEP_ORDER);
    var temps := [plan.tmpLogo, plan.tmpIntro, plan.tmpOutro];
    assert TempsOf(plan, STEP_ORDER) == temps by {
      assert STEP_ORDER[1..] == [Intro, Outro] && STEP_ORDER[1..][1..] == [Outro];
      assert TempsOf(plan, [Outro]) == [plan.tmpOutro];
      assert TempsOf(plan, [Intro, Outro]) == [plan.tmpIntro, plan.tmpOutro];
    }
    assert p.cleanup[|p0.cleanup|..] == p.cleanup;
    forall x | x in p.cleanup
      ensures IsTemp(plan, x) && x in p.fs
    {
      SubseqMembers(p.cleanup, temps, x);
    }
  }

  /** With the paths of a plan apart, the source clip survives the job. */
  lemma {:induction false} ExecuteKeepsSource(plan: Plan, tools: Tools, fs: set<string>)
    requires Layout(plan) && plan.original in fs
    ensures plan.original in Execute(plan, tools, fs).fs
  {
    PipelineShape(plan, tools, fs);
    var p := Pipeline(plan, tools, fs);
    assert plan.original !in p.cleanup;
    var settled := if p.failure.None? then Finalise(plan, p.fs, p.pointer) else p.fs + {plan.errFile};
    assert plan.original in settled;
    assert Execute(plan, tools, fs).fs == Cleanup(settled, p.cleanup, p.pointer);
  }

  /** A successful run leaves the final output, no error record and none
      of the temporary files it produced. */
  lemma {:induction false} ExecuteSuccess(plan: Plan, tools: Tools, fs: set<string>)
    requires Layout(plan) && plan.original in fs && Execute(plan, tools, fs).ok
    ensures var o := Execute(plan, tools, fs);
      && plan.finalOutput in o.fs
      && plan.errFile !in o.fs
      && forall x :: x in Pipeline(plan, tools, fs).cleanup ==> x !in o.fs
  {
    PipelineShape(plan, tools, fs);
    var p := Pipeline(plan, tools, fs);
    var settled := Finalise(plan, p.fs, p.pointer);
    assert Execute(plan, tools, fs).fs == Cleanup(settled, p.cleanup, p.pointer);
    assert plan.finalOutput !in p.cleanup;
    forall x | x in p.cleanup
      ensures x !in Cleanup(settled, p.cleanup, p.pointer)
    {
      if x == p.pointer {
        assert IsTemp(plan, x);
        assert x !in settled;
      }
    }
  }

  /** A failed run leaves the error record with the step's message and
      the output of the last step that succeeded (or the source). */
  lemma {:induction false} ExecuteFailure(plan: Plan, tools: Tools, fs: set<string>)
    requires Layout(plan) && plan.original in fs && !Execute(plan, tools, fs).ok
    ensures var o := Execute(plan, tools, fs);
      var p := Pipeline(plan, tools, fs);
      && p.failure.Some? && o.errorRecord == p.failure
      && plan.errFile in o.fs
      && p.pointer in o.fs
      && (p.cleanup != [] ==> p.cleanup[|p.cleanup| - 1] in o.fs)
  {
    PipelineShape(plan, tools, fs);
    var p := Pipeline(plan, tools, fs);
    var settled := p.fs + {plan.errFile};
    assert Execute(plan, tools, fs).fs == Cleanup(settled, p.cleanup, p.pointer);
    assert plan.errFile !in p.cleanup;
  }

  /** The source clip survives every job, whatever the steps do. */
  lemma {:induction false} SourceNeverDeleted(env: Env, job: Job, fs: set<string>, ts: nat, tools: Tools)
    requires SaneNames(env, job) && LocateSource(env, job, fs).Some?
    ensures LocateSource(env, job, fs).value in Process(env, job, fs, ts, tools).fs
  {
    var original := LocateSource(env, job, fs).value;
    PlanLayout(env, job, fs, ts);
    ExecuteKeepsSource(MakePlan(env, job, original, fs, ts), tools, fs);
  }

  /** On success the final output exists, the error record is gone and so
      is every temporary file the steps produced. */
  lemma {:induction false} SuccessCleansUp(env: Env, job: Job, fs: set<string>, ts: nat, tools: Tools)
    requires SaneNames(env, job) && Process(env, job, fs, ts, tools).ok
    ensures var o := Process(env, job, fs, ts, tools);
      var plan := MakePlan(env, job, LocateSource(env, job, fs).value, fs, ts);
      && plan.finalOutput in o.fs
      && plan.errFile !in o.fs
      && forall x :: x in Pipeline(plan, tools, fs).cleanup ==> x !in o.fs
  {
    var original := LocateSource(env, job, fs).value;
    PlanLayout(env, job, fs, ts);
    ExecuteSuccess(MakePlan(env, job, original, fs, ts), tools, fs);
  }

  /** When a step raises, the error record holds its message, and the
      output of the last step that succeeded (or the source) is kept. */
  lemma {:induction false} FailureKeepsLastOutput(env: Env, job: Job, fs: set<string>, ts: nat, tools: Tools)
    requires SaneNames(env, job) && LocateSource(env, job, fs).Some?
    requires !Process(env, job, fs, ts, tools).ok
    ensures var o := Process(env, job, fs, ts, tools);
      var plan := MakePlan(env, job, LocateSource(env, job, fs).value, fs, ts);
      var p := Pipeline(plan, tools, fs);
      && p.failure.Some? && o.errorRecord == p.failure
      && plan.errFile in o.fs
      && p.pointer in o.fs
      && (p.cleanup != [] ==> p.cleanup[|p.cleanup| - 1] in o.fs)
  {
    var original := LocateSource(env, job, fs).value;
    PlanLayout(env, job, fs, ts);
    ExecuteFailure(MakePlan(env, job, original, fs, ts), tools, fs);
  }

  /** One step's block inside the `try`: the opaque ffmpeg call, then the
      pointer and the cleanup list move on. */
  method ApplyStep(plan: Plan, tools: Tools, step: Step, fs: set<string>, pointer: string, cleanup: seq<string>)
    returns (fs': set<string>, pointer': string, cleanup': seq<string>, failure: Option<string>)
    ensures Progress(fs', pointer', cleanup', failure) == Advance(plan, tools, Progress(fs, pointer, cleanup, None), step)
  {
    fs', pointer', cleanup', failure := fs, pointer, cleanup, None;
    var asset := Asset(plan, step);
    if asset.Some? && asset.value in fs {
      var out := Temp(plan, step);
      match ResultOf(tools, step)
      case Produced =>
        fs' := fs + {out};
        pointer' := out;
        cleanup' := cleanup + [out];
      case Failed(message, leftPartial) =>
        if leftPartial {
          fs' := fs + {out};
        }
        failure := Some(message);
    }
  }

  /** The three step blocks of the `try`, each skipped once one raised. */
  method RunPipeline(plan: Plan, tools: Tools, fs0: set<string>)
    returns (fs: set<string>, pointer: string, cleanup: seq<string>, failure: Option<string>)
    ensures Progress(fs, pointer, cleanup, failure) == Pipeline(plan, tools, fs0)
  {
    ghost var p0 := Progress(fs0, plan.original, [], None);
    fs, pointer, cleanup, failure := ApplyStep(plan, tools, Logo, fs0, plan.original, []);
    ghost var p1 := Progress(fs, pointer, cleanup, failure);
    if failure.None? {
      fs, pointer, cleanup, failure := ApplyStep(plan, tools, Intro, fs, pointer, cleanup);
    }
    ghost var p2 := Progress(fs, pointer, cleanup, failure);
    if failure.None? {
      fs, pointer, cleanup, failure := ApplyStep(plan, tools, Outro, fs, pointer, cleanup);
    }
    ghost var p3 := Progress(fs, pointer, cleanup, failure);
    assert STEP_ORDER[1..] == [Intro, Outro] && STEP_ORDER[1..][1..] == [Outro];
    assert RunSteps(plan, tools, p2, [Outro]) == p3;
    assert RunSteps(plan, tools, p1, [Intro, Outro]) == p3;
  }

  /** The `finally` loop over `files_to_cleanup`. */
  method RemoveTemps(fs0: set<string>, cleanup: seq<string>, pointer: string) returns (fs: set<string>)
    ensures fs == Cleanup(fs0, cleanup, pointer)
  {
    fs := fs0;
    for k := 0 to |cleanup|
      invariant fs == Cleanup(fs0, cleanup[..k], pointer)
    {
      var f := cleanup[k];
      assert cleanup[..k + 1][..k] == cleanup[..k];
      if f in fs && f != pointer {
        fs := fs - {f};
      }
    }
    assert cleanup[..|cleanup|] == cleanup;
  }

  /** The end of the `try` after the last step: replace the final output,
      copy or rename into it, drop a stale error record. */
  method FinishJob(plan: Plan, fs0: set<string>, pointer: string) returns (fs: set<string>)
    ensures fs == Finalise(plan, fs0, pointer)
  {
    fs := fs0;
    if plan.finalOutput in fs {
      fs := fs - {plan.finalOutput};
    }
    if pointer == plan.original {
      fs := fs + {plan.finalOutput};
    } else {
      fs := (fs - {pointer}) + {plan.finalOutput};
    }
    if plan.errFile in fs {
      fs := fs - {plan.errFile};
    }
  }

  /** The source lookup at the start of `process_video`. */
  method FindSource(env: Env, job: Job, fs: set<string>) returns (found: Option<string>)
    ensures found == LocateSource(env, job, fs)
  {
    var original := SourceIn(env, job, job.subfolder);
    if original !in fs {
      original := SourceIn(env, job, FallbackSubfolder(IsVertical(job.filename)));
      if original !in fs {
        return None;
      }
    }
    found := Some(original);
  }

  /** The `try` block, its `except` and its `finally` once the assets are
      chosen. */
  method RunPlan(plan: Plan, tools: Tools, fs0: set<string>)
    returns (ok: bool, fs: set<string>, errorRecord: Option<string>)
    ensures Outcome(ok, fs, errorRecord) == Execute(plan, tools, fs0)
  {
    var pointer, cleanup, failure;
    fs, pointer, cleanup, failure := RunPipeline(plan, tools, fs0);
    if failure.None? {
      fs := FinishJob(plan, fs, pointer);
      ok, errorRecord := true, None;
    } else {
      fs := fs + {plan.errFile};
      ok, errorRecord := false, failure;
    }
    fs := RemoveTemps(fs, cleanup, pointer);
  }

  /** `process_video`. */
  method ProcessVideo(env: Env, job: Job, fs0: set<string>, ts: nat, tools: Tools)
    returns (ok: bool, fs: set<string>, errorRecord: Option<string>)
    ensures Outcome(ok, fs, errorRecord) == Process(env, job, fs0, ts, tools)
  {
    var found := FindSource(env, job, fs0);
    if found.None? {
      return false, fs0, None;
    }
    var plan := MakePlan(env, job, found.value, fs0, ts);
    ok, fs, errorRecord := RunPlan(plan, tools, fs0);
  }
}
