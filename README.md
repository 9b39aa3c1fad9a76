# Live ball-event clipper and branding worker, modelled in Dafny

The system has two programs.

The **detector** (`script.py`) watches one live cricket stream. One
transport process records the stream to disk and pipes raw video frames
and 16-bit mono audio to the detector. Three trigger sources are fused frame
by frame:

- a crowd-noise monitor that raises a flag after three consecutive loud
  0.1 s audio chunks;
- an OCR scan of the score overlay for keywords such as `4`, `6`, `OUT`
  and `WICKET` (the numeric ones only as whole words);
- a motion score against the previous frame.

The three sources share one debounce time, `ball_start`. Accepting a
trigger schedules a trim job for a window around the trigger time and
later a portrait rendition `<stem>_V.mp4` of the trimmed clip. A short
video read ends a session. The watchdog then starts a new session from a
clean state.

The **branding worker** (`worker.py`) serves a queue directory of JSON
job files, taking the smallest name first. For each job it:

1. finds the source clip, in the requested sub-folder first and then in
   the fallback folder for its orientation;
2. picks 16:9 or portrait assets (portrait when the file name carries the
   `_V` marker);
3. runs the enabled logo, intro and outro steps in order, each writing a
   temporary file;
4. moves the last output to `final_<filename>`, or copies the source when
   no step ran;
5. on failure writes an error record;
6. removes every temporary file except the current one.

The model has one module per concern:

| file | module | models |
|---|---|---|
| `text.dfy` | `Text` | `startswith`, `endswith`, `in`, ASCII `upper`, `" ".join`, `str(n)` and Python's string order |
| `path_names.dfy` | `PathNames` | `os.path.join`, `os.path.split`, `os.path.splitext` and `PurePath.stem` as string functions |
| `source_locator.dfy` | `SourceLocator` | `build_srt_url` |
| `audio_monitor.dfy` | `Audio` | `AudioMonitor` as a class, its per-chunk step and its loop |
| `ocr_keywords.dfy` | `OcrKeywords` | the keyword scan |
| `clips.dfy` | `Clips` | `cut_ball`, `cut_job`, `make_vertical` naming |
| `engine.dfy` | `Engine` | the frame loop of `run_engine` and its per-session restart |
| `assets.dfy` | `Assets` | `is_vertical` and `get_vertical_asset` |
| `branding_pipeline.dfy` | `Branding` | `process_video` |
| `job_queue.dfy` | `JobQueue` | the worker's main loop |

The file system is a set of paths. The ffmpeg, OCR and image-library
calls, the audio flag as the frame loop sees it, and the wall clock are
inputs.

Each loop of the source is a method with a `while` or `for` loop. The
method is proved equal to a function that specifies it, and the
properties are proved about that function:

- `Audio.AudioMonitor.Run` against `RunChunks`;
- `Engine.RunSession` against `RunFrames`;
- `OcrKeywords.ScanKeywords` against `MatchKeyword`;
- `Branding.RemoveTemps` against `Cleanup`;
- `Branding.RunPlan` against `Execute`;
- `Branding.ProcessVideo` against `Process`.

Two consequences of the code are worth stating:

- `cut_ball` hands the trim job the end `t2 + dur`, not `t1 + dur`. For an
  engine clip the trim therefore asks for 36 s whenever `t >= 6`, and
  never for the clamped duration alone (`Clips.EngineClipWindow`). The
  trim starts 15 s after the trigger, on a recording that then reaches
  only about `t + 15`, so the file it writes is shorter than what it asks
  for. The model records what the trim asks for.
- The three sources wait 10 s (audio), 5 s (OCR) and 8 s (motion) after
  the last accepted trigger. The smallest gap between two accepted
  triggers is therefore the OCR gap of 5 s
  (`Engine.TriggersAtLeastOcrGapApart`), with times compared exactly.

## Model

| member | source | states |
|---|---|---|
| `Text.Upper` | script.py:277 | upper-casing keeps the length and maps every ASCII lower-case letter to its capital, leaving other characters alone |
| `Text.LexLessEq` | worker.py:272 | the order `sort` uses on names: every name is at most itself and at most every name it begins |
| `Text.LexTotal` | worker.py:272 | any two job names are ordered one way or the other, so the sorted listing has a first element |
| `Text.LexAntisymmetric` | worker.py:272 | two names each at most the other are the same name, so the first of the sorted listing is unique |
| `Text.LexTransitive` | worker.py:272 | the string order is transitive |
| `PathNames.Join` | worker.py:59 | the joined path ends with the second part and, when that part is relative, starts with the first |
| `PathNames.JoinDistinct` | worker.py:207-212 | two different relative names joined to one directory give different paths |
| `PathNames.Split` | worker.py:55 | the tail is everything after the last slash and contains no slash |
| `PathNames.SplitExt` | worker.py:56 | root and extension concatenate back to the name; a non-empty extension starts with a dot |
| `PathNames.Stem` | script.py:152 | the stem is a prefix of the file name |
| `PathNames.SplitOfJoined` | worker.py:55 | splitting `dir/file` gives back `dir` and `file` for a plain directory and a slash-free file name |
| `PathNames.SplitExtOfJoined` | worker.py:56 | splitting `name.ext` gives back `name` and `.ext` for a dot-free name |
| `PathNames.StemOfJoined` | script.py:152 | the stem of `name.ext` is `name` |
| `SourceLocator.Resolve` | script.py:94-95 | resolving leaves an absolute path string unchanged (no normalisation) and yields an absolute path from an absolute working directory |
| `SourceLocator.WrapSrt` | script.py:99 | the wrapped locator names the SRT transport and carries the vendor address right after `srt://` |
| `SourceLocator.BuildSrtUrl` | script.py:93-99 | an existing local path wins and comes back resolved; otherwise a transport locator passes unchanged; anything else is wrapped as an SRT caller URL; every result is an existing file or a transport locator |
| `SourceLocator.BuildSrtUrlIdempotent` | script.py:93-99 | building from an already built locator changes nothing, unless the wrapped URL names a local file |
| `SourceLocator.DefaultVendorIsWrapped` | script.py:67-70 | the default vendor endpoint is wrapped into an SRT URL unless a local file has its name |
| `Audio.Int16` | script.py:128 | a little-endian byte pair decodes to a signed 16-bit value |
| `Audio.Samples` | script.py:128 | an even number of bytes decodes to half as many 16-bit samples |
| `Audio.SamplesOfEncoded` | script.py:128 | decoding the bytes of any 16-bit samples gives the samples back |
| `Audio.VolumeSq` | script.py:131-134 | the square of the clamped normalised volume of a full chunk lies in [0, 1] |
| `Audio.LoudIffSumSquares` | script.py:131-137 | a chunk is loud (volume above 0.65) exactly when its sum of squared samples exceeds 13000² · 4410 |
| `Audio.ChunkStep` | script.py:121-144 | a short read changes nothing; a quiet full chunk resets the counter; the counter stays below 3; the trigger is never cleared and is set only by a loud chunk that completes a run of three |
| `Audio.RunChunks` | script.py:118-144 | over any chunks the state stays valid and a raised trigger stays raised |
| `Audio.SustainCountIsLoudRun` | script.py:137-144 | from a fresh monitor the counter is the current run of loud chunks modulo 3, short reads neither extending nor breaking the run |
| `Audio.TriggerIffSustained` | script.py:137-144 | from a fresh monitor the trigger is up exactly when three consecutive loud chunks have occurred at some point |
| `Audio.QuietKeepsTriggerDown` | script.py:139-140 | quiet chunks alone leave the counter at 0 and the trigger down |
| `Audio.FiresOnThirdLoudChunk` | script.py:137-144 | after quiet audio the first and second loud chunk leave the trigger down and the third raises it |
| `Audio.AudioMonitor.constructor` | script.py:104-110 | a new monitor is running, at volume 0, with count 0 and the trigger down |
| `Audio.AudioMonitor.Run` | script.py:112-147 | the loop consumes reads up to the first failing one; the fields end as the chunk steps over the consumed reads dictate; validity is kept; a stopped monitor reads nothing |
| `OcrKeywords.OcrText` | script.py:277 | the joined, upper-cased text has the joined length and no lower-case ASCII letter left |
| `OcrKeywords.Qualifies` | script.py:279-281 | a word keyword is accepted exactly when it occurs in the text; for "4" and "6" the whole-word test alone decides |
| `OcrKeywords.PaddedImpliesPlain` | script.py:279-281 | a one-character word found as a whole word is also found by the plain `in` test |
| `OcrKeywords.FirstQualifying` | script.py:278-284 | the index found is the first keyword that qualifies; none before it does |
| `OcrKeywords.MatchKeyword` | script.py:277-284 | the reported keyword is in the list, qualifies and is the first that does; nothing is reported exactly when no keyword qualifies |
| `OcrKeywords.ScanKeywords` | script.py:278-284 | the `for`/`continue`/`break` scan returns the first qualifying keyword |
| `OcrKeywords.PaddedWordInToken` | script.py:280 | inside one padded space-free token, a padded one-character word can only be the whole token |
| `OcrKeywords.TokenIsNotWholeWord` | script.py:280 | a space-free token other than `k` never holds `k` as a whole word |
| `OcrKeywords.EmbeddedFourIsNotMatched` | script.py:280 | the texts "14", "41" and "45" do not yield the keyword "4" |
| `OcrKeywords.WholeWordFourIsMatched` | script.py:279-280 | "SCORE 4 RUNS" yields the keyword "4" |
| `Clips.ClampedDuration` | script.py:183 | the duration lies in [8, 25], equals the raw length inside that range and the nearer bound outside it |
| `Clips.CutBall` | script.py:182-188 | the job starts at `t1`, trims the raw length plus the clamped duration (at least 8 s for an ordered window) and writes `ball_<clock>.mp4` in the clip folder |
| `Clips.BallFileName` | script.py:184-185 | the clip name is a slash-free `ball_….mp4` name, so the clip lands directly in the clip folder |
| `Clips.EngineClip` | script.py:266 | the window every frame-loop call asks for holds the trigger time, from 0 on, and the clip is named after the wall clock in the clip folder |
| `Clips.EngineClipWindow` | script.py:266 | an engine window starts between 0 and the trigger time and ends after it; it trims 36 s once `t >= 6` and between 24 and 36 s before |
| `Clips.VerticalName` | script.py:152 | the rendition name ends with `_V.mp4` |
| `Clips.CutJob` | script.py:160-180 | the trim's exit code alone decides: on 0 the clip is kept and the portrait render is started for a `_V.mp4` path in the reel folder; otherwise nothing is rendered. The render's own exit status is ignored, so the result names the requested rendition, not an existing file |
| `Clips.RenditionInFolder` | script.py:152 | the rendition of any clip path lies in the reel folder and ends in `_V.mp4` |
| `Clips.EngineCutOutputs` | script.py:151-188 | after a successful trim of an engine clip, the clip is `ball_<clock>.mp4` in the clip folder and the render is asked for `ball_<clock>_V.mp4` in the reel folder, a different path even when the folders coincide |
| `Clips.VerticalOfBallFile` | script.py:152 | the rendition of `ball_<ts>.mp4` is `ball_<ts>_V.mp4` |
| `Engine.AudioCheck` | script.py:262-268 | an audio clip is accepted only with the monitor's flag up and more than 10 s after `ball_start`, which then moves to `t`; otherwise nothing changes |
| `Engine.MotionScore` | script.py:289-290 | the score is the mean difference per pixel: above 12 or 20 exactly when the summed difference exceeds 12 or 20 times the pixel count |
| `Engine.OcrCheck` | script.py:270-285 | no scan, and no change, unless OCR is on, more than 0.4 s have passed since the last scan and more than 5 s since `ball_start`; every admitted scan moves the OCR clock to `t`; an admitted scan that reads a keyword accepts that keyword's clip, and an OCR clip needs one |
| `Engine.OcrRateLimit` | script.py:271 | with times compared exactly, on any frame the OCR clock moves and an OCR clip is accepted only when OCR is on and more than 0.4 s have passed since the last scan |
| `Engine.OcrFires` | script.py:270-285 | when the audio flag is not admitted, a due scan that reads a keyword more than 5 s after `ball_start` makes that keyword's clip the frame's only clip and moves both clocks to `t` |
| `Engine.MotionCheck` | script.py:287-295 | a motion clip needs a previous frame and a score above 20 after 8 s; otherwise nothing changes |
| `Engine.FrameStep` | script.py:256-297 | with times compared exactly, one frame advances the frame count and records a previous frame; it accepts at most one clip, at time `t`, after its source's gap, with the engine's window; `ball_start` never decreases; each source's clip needs its own evidence |
| `Engine.RunFrames` | script.py:244-297 | after n full frames from the initial state the frame count is n |
| `Engine.LeadingFull` | script.py:251-254 | the frames a session handles are the full reads before the first short read |
| `Engine.LeadingFullUnique` | script.py:251-254 | any prefix of full reads followed by a short read or the end is the leading run |
| `Engine.AudioPhase` | script.py:262-268 | the audio branch of the loop body computes `AudioCheck` |
| `Engine.OcrPhase` | script.py:270-285 | the OCR branch, scan loop included, computes `OcrCheck` |
| `Engine.MotionPhase` | script.py:287-295 | the motion branch computes `MotionCheck` |
| `Engine.HandleFrame` | script.py:256-297 | the loop body for one full read computes `FrameStep` |
| `Engine.RunSession` | script.py:237-297 | a session starts from the initial state, stops at the first short read and returns the triggers of the full reads before it |
| `Engine.RunEngine` | script.py:192-241 | the locator is built once with `build_srt_url`, and every watchdog session starts afresh and yields exactly its own session's triggers |
| `Engine.DebouncedAppend` | script.py:264-267 | adding a frame's at most one clip keeps the triggers spaced and `ball_start` at the last trigger time |
| `Engine.SessionDebounced` | script.py:237-297 | with times compared exactly, in a session each accepted trigger comes more than its own gap after the previous one (after time 0 for the first), and `ball_start` is the last trigger time |
| `Engine.TriggersAtLeastOcrGapApart` | script.py:271 | with times compared exactly, any two triggers of a session are more than 5 s apart |
| `Engine.DebouncedApart` | script.py:237-297 | with times compared exactly, in a debounced list of triggers any two, not only neighbours, are more than the 5 s OCR gap apart |
| `Engine.NoMotionOnFirstFrame` | script.py:288 | the first frame of a session never yields a motion clip |
| `Engine.MotionNeedsMassiveScore` | script.py:291-295 | with times compared exactly, when audio and OCR are out of play a clip comes exactly with a previous frame, a score above 20 and more than 8 s since `ball_start` |
| `Engine.AudioHasPriority` | script.py:263-268 | an admissible audio flag makes the audio clip the frame's only clip |
| `Engine.RejectedAudioIsDropped` | script.py:263-268 | with times compared exactly, a flag seen during the 10 s cool-down leaves the frame as if it had been down |
| `Engine.OcrClockIgnoresOutcome` | script.py:271-285 | the OCR clock moves the same whether the scan matches, misses or raises |
| `Assets.IsVertical` | worker.py:175 | a name carrying `_V.mp4` or `_V.mov` anywhere is a reel, so every name ending in one of them is |
| `Assets.VerticalCandidate` | worker.py:55-59 | the sibling path carries the `_vertical` marker and keeps the asset's extension |
| `Assets.FallbackSubfolder` | worker.py:185 | the fallback folder is a non-empty relative name |
| `Assets.GetVerticalAsset` | worker.py:51-63 | nothing exactly for a missing or empty path; the `_vertical` sibling whenever it exists; otherwise the path itself |
| `Assets.VerticalCandidateOfPlainPath` | worker.py:55-59 | the sibling of `dir/name.ext` is `dir/name_vertical.ext` |
| `Assets.VerticalAssetOfPlainPath` | worker.py:51-63 | `dir/name.ext` becomes `dir/name_vertical.ext` exactly when that file exists |
| `Assets.RenditionIsVertical` | worker.py:175 | every portrait rendition name the detector produces is recognised as a reel |
| `Assets.SelectAsset` | worker.py:195-201 | the asset used is the base itself or, for a reel only, its existing `_vertical` sibling; a reel takes the sibling whenever it exists; only a reel with an empty base path is left without one |
| `Branding.SourceIn` | worker.py:182-186 | the candidate source path ends with the job's file name |
| `Branding.LocateSource` | worker.py:180-189 | the requested sub-folder wins when it holds the file, then the orientation's fallback; what is found exists |
| `Branding.MakePlan` | worker.py:191-212 | the final output, the error record and the three temporary paths are named as the worker names them; no logo name means no logo step; 16:9 jobs keep the base assets; reels take existing `_vertical` siblings |
| `Branding.Advance` | worker.py:218-234 | a step that is off or whose asset is missing changes nothing; a produced output becomes the pointer and joins the cleanup list; a failure records its message and may leave a partial file |
| `Branding.Pipeline` | worker.py:214-234 | the `try` block's steps from the source clip never remove a file |
| `Branding.RunSteps` | worker.py:217-234 | once a step raised, no later step runs, and files never disappear |
| `Branding.RunStepsShape` | worker.py:217-234 | the cleanup list grows by the produced outputs in step order, the pointer is the last of them or unchanged, and each of them exists |
| `Branding.PipelineShape` | worker.py:214-234 | from the source, the cleanup list is a subsequence of the logo, intro and outro temporaries; the pointer is its last entry or the source and exists; no file disappears |
| `Branding.Finalise` | worker.py:236-247 | the final output then exists and the error record does not; a renamed output is gone; everything else except the old final output is kept |
| `Branding.Cleanup` | worker.py:259-263 | afterwards a file exists exactly when it existed before and is either not listed or is the pointer |
| `Branding.Process` | worker.py:166-263 | a missing source fails and touches nothing; success exactly when the source is found and no step raises; an error record exactly on a raised step, holding its message |
| `Branding.Execute` | worker.py:214-263 | once a source is found, the job succeeds exactly when no step raised, and the error record is the raised step's message |
| `Branding.ExecuteKeepsSource` | worker.py:259-263 | with the plan's paths apart, the source clip survives the `try` and the `finally`, whatever the steps do |
| `Branding.ExecuteSuccess` | worker.py:236-263 | with the plan's paths apart, a successful run leaves the final output and no error record, and removes every temporary it produced |
| `Branding.ExecuteFailure` | worker.py:250-263 | with the plan's paths apart, a failed run leaves the error record with the step's message, the pointer and the last produced temporary |
| `Branding.TempIsNotFinal` | worker.py:207-212 | no temporary file is the final output |
| `Branding.TempApart` | worker.py:204-212 | for relative job names, a temporary file is neither the source, the final output nor the error record |
| `Branding.FinalApart` | worker.py:204-207 | for relative job names, the final output is neither the source nor the error record |
| `Branding.LocatedUnderMatches` | worker.py:182-186 | for relative job names, the located source lies under `matches` |
| `Branding.JobPathsApart` | worker.py:182-212 | for relative job names, the source, the final output and the error record are pairwise different, and each temporary differs from all three |
| `Branding.PlanLayout` | worker.py:182-212 | for relative job names, the source, the final output, the error record and the temporaries are pairwise distinct |
| `Branding.SourceNeverDeleted` | worker.py:259-263 | for relative job names, the source clip survives every job, whatever the steps do |
| `Branding.SuccessCleansUp` | worker.py:236-263 | for relative job names, on success the final output exists, the error record is gone and so is every temporary the steps produced |
| `Branding.FailureKeepsLastOutput` | worker.py:250-263 | for relative job names, when a step raises, the error record exists with its message, and the last successful output (or the source) is kept |
| `Branding.ApplyStep` | worker.py:218-234 | one step block computes `Advance` |
| `Branding.RunPipeline` | worker.py:217-234 | the three step blocks compute `Pipeline` |
| `Branding.RemoveTemps` | worker.py:259-263 | the `finally` loop computes `Cleanup` |
| `Branding.FinishJob` | worker.py:236-247 | the end of the `try` computes `Finalise` |
| `Branding.FindSource` | worker.py:180-189 | the source lookup finds what `LocateSource` specifies |
| `Branding.RunPlan` | worker.py:214-263 | the `try`/`except`/`finally` of one found job yields the outcome that `Execute` specifies |
| `Branding.ProcessVideo` | worker.py:166-263 | `process_video` yields the result, the files and the error record that `Process` specifies |
| `JobQueue.JobFiles` | worker.py:270 | the kept names are exactly the listed `.json` names |
| `JobQueue.SmallestJob` | worker.py:272-273 | nothing exactly for no job files; otherwise a listed name at most every other |
| `JobQueue.SmallestIsUnique` | worker.py:272-273 | two names each at most every job name are the same, so the pick is independent of the listing order |
| `JobQueue.ListDir` | worker.py:270 | the listing holds exactly the names of the directory |
| `JobQueue.PickNext` | worker.py:270-273 | one look at the queue finds nothing exactly when no job file is left, and otherwise the smallest job file |
| `JobQueue.ChainSnoc` | worker.py:275-279 | processing one more job on the files the previous jobs left extends the run of jobs |
| `JobQueue.RunJob` | worker.py:275-279 | one iteration processes the picked job on the current files and extends the run |
| `JobQueue.ServeSmallest` | worker.py:272-279 | serving the smallest job file next keeps the served names increasing and below every remaining job |
| `JobQueue.DequeueServed` | worker.py:272-279 | deleting the served smallest job file keeps the served names queued job files, the served order increasing, the queue equal to what was queued and not served, and shrinks the set of job files |
| `JobQueue.ServeJob` | worker.py:272-279 | processing and then deleting the picked job file keeps every loop invariant and shrinks the set of job files |
| `JobQueue.ServeQueue` | worker.py:268-284 | the jobs are served in strictly increasing name order, each before every remaining job; each runs on the files the previous one left; each job file is deleted after its job, failed or not; the loop ends with no job file left (all served) or at the smallest unparsable one |

## Left out

- `Engine.FrameStep`: time is the exact rational `frame_id / 25`, and every gate (0.4 s between OCR scans, 5, 8 and 10 s after `ball_start`) compares exact differences. The program computes `t` and the differences in IEEE doubles, which can make a gate pass one frame earlier: 136/25 − 126/25 evaluates to 0.40000000000000036, above 0.4; 220/25 − 95/25 to 5.000000000000001, above 5; 415/25 − 165/25 to 10.000000000000002, above 10. The model scans or accepts on the next frame instead. `Engine.AudioCheck`, `Engine.OcrCheck` and `Engine.MotionCheck` share this.
- `Engine.OcrRateLimit`: the 0.4 s limit is compared exactly; in doubles frames 126 and 136 differ by 0.40000000000000036, so the program scans after exactly 0.4 s, which the lemma excludes.
- `Engine.MotionNeedsMassiveScore`: the 8 s gate is compared exactly; in doubles 403/25 − 203/25 exceeds 8, so the program fires motion after exactly 8 s, which the lemma's "exactly when" excludes.
- `Engine.RejectedAudioIsDropped`: the 10 s cool-down is compared exactly; in doubles 415/25 − 165/25 is 10.000000000000002, so the program accepts a flag at exactly 10 s that the lemma calls dropped.
- `Engine.TriggersAtLeastOcrGapApart`: holds with exact times. With the program's doubles two triggers can be exactly 5 s (125 frames) apart.
- `Engine.DebouncedApart`: states the exact-time spacing; the doubles can let neighbours sit exactly at their gap.
- `Engine.SessionDebounced`: each trigger comes more than its gap after the previous one in exact time; with the program's doubles it can come exactly at the gap.
- `Branding.SourceNeverDeleted`: paths are compared as strings, without `.`, `..` or symbolic links, and the layout lemmas assume relative job names (`SaneNames`). A job request may carry an absolute `match` or file name, which `os.path.join` lets replace the worker's directories; such jobs are outside these lemmas, as they are for `Branding.SuccessCleansUp`, `Branding.FailureKeepsLastOutput`, `Branding.PlanLayout` and the path-apart lemmas.
- `Clips.CutJob`: the portrait render's exit status is ignored, as in the program, so whether the rendition file exists is not modelled.
- `Text.Upper`: upper-cases ASCII letters only. Python's `str.upper` also maps other letters. The keywords and digits the detector looks for are ASCII.
- `Audio.VolumeSq`: the monitor keeps the square of `current_volume`, in exact rational arithmetic. The float32 mean and square root are not modelled. The comparison with 0.65 is the same for the square, but float32 rounding at the threshold is not captured.
- `SourceLocator.Resolve`: joins a relative path to the working directory without normalising `.`, `..`, symbolic links, repeated slashes or a trailing slash, all of which `Path(vendor)` and `resolve()` would collapse. With `/w/clip.ts` present, the program finds the vendor `clip.ts/` (and `/w//clip.ts`), while the model looks up `/w/clip.ts/` and wraps it as an SRT address instead. Existence is a set of absolute paths.
- The audio monitor thread and the frame loop share `trigger` without synchronisation. The frame loop clears it after looking at it (script.py:268). The engine takes the flag as a per-frame input, so the interleavings of the two threads are not modelled.
- The detached trim threads, the 15 s and 2 s sleeps and the 10 s idle watchdog are left out. The watchdog depends on the wall clock and is replaced by "a session ends at a short read". So are process termination and the zombie clean-up. These are timing and process control, with no decision logic.
- The ffmpeg commands are opaque. This covers the recording, the frame and audio pipes, the trim, the portrait render and the three branding filter graphs. Each step either produces its output or fails with a message. `append_outro` (worker.py:140-160) holds unresolved merge-conflict markers, so only its role as an opaque step is modelled.
- The grayscale conversion, the OCR region and threshold, and EasyOCR itself are left out. The OCR fragments and the frame difference sum are inputs.
- The `:.2f` formatting of the trim arguments is left out. The trim job keeps exact start and end values.
- Directory creation is left out. Directories are not members of the file-system set.
- Time stamps come from `int(time.time())`. In the model they are inputs: the clock of a clip, and `clock(i)` for the i-th job.
- `Branding.Process`: a job is a record with every key present. A missing key, which makes `process_video` raise before its `try`, is not modelled. Failures of the error-record write, the copy, the rename and the removals in `finally` are not modelled; they are swallowed or would raise in the source.
- A step that fails after writing part of its output leaves that file behind. It is not in the cleanup list. The model keeps it, as the source does.
- `JobQueue.ServeQueue`: the queue directory is a set separate from the job's files. No new job file arrives while the loop runs, so the loop drains the queue and stops. The worker instead sleeps and lists again. An unparsable job file makes the worker log, sleep and retry the same file forever. The model stops there and reports it as `stuck`. A job file is parsed into a `Job` outside the model; a file absent from the parsed map does not parse.
- `server_fastapi.py` is not part of this model. Its routes, process control and status files are input and output glue.
