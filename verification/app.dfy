/**
 `run_dubbing` of the web front end: the upload guard, the progress
 counter wrapped around the pipeline's progress callback, and the mapping
 of the pipeline's result or exception to what the page shows.
 */
module App {
  import opened Basics
  import Text
  import Orchestrator

  /** An uploaded file; only its temporary path is used. */
  datatype Upload = Upload(name: string)

  /** One call of the progress bar: `progress(fraction, desc=...)`. */
  datatype Progress = Progress(fraction: real, desc: string)

  /** The video shown, the status text, and every progress call in order. */
  datatype Response = Response(video: Option<string>, message: string, progress: seq<Progress>)

  const TotalSteps: nat := 10

  /** The fraction is held below this until the run completes. */
  const Cap: real := 0.95

  const UploadPrompt := "\U{274C} Please upload a video file."
  const Success := "\U{2705} Dubbing Complete! Enjoy your studio-quality video."
  const Complete := Progress(1.0, "\U{2705} Complete!")

  /** `min(step_count / total_steps, 0.95)`. */
  function Fraction(count: nat): real {
    var x := count as real / TotalSteps as real;
    if x <= Cap then x else Cap
  }

  /** The progress call made by the `count`-th callback. */
  function Update(count: nat, msg: string): Progress {
    Progress(Fraction(count), "[" + Text.NatToString(count) + "/" + Text.NatToString(TotalSteps) + "] " + msg)
  }

  /** `update_progress` over the logged messages: the counter starts at 0
      and each callback adds one before reporting. */
  function Updates(log: seq<string>): (r: seq<Progress>)
    ensures |r| == |log|
  {
    seq(|log|, i requires 0 <= i < |log| => Update(i + 1, log[i]))
  }

  /** The status text for an exception `e` with `str(e) == cause`. */
  function ErrorMessage(cause: string): string {
    "\U{274C} Pipeline Error: " + cause + "\n\nCheck console for full details."
  }

  /** `run_dubbing(video_file, target_language, use_lipsync, include_bgm,
      tone_preference, rvc_model_file)`. `startup` is the exception the
      `Orchestrator()` constructor raises, if any; the translation service
      is left to the configuration. */
  function RunDubbing(video: Option<Upload>, language: string, lipSync: bool, includeBgm: bool,
                      tone: Option<string>, rvc: Option<Upload>, startup: Option<string>,
                      f: Orchestrator.Folders, w: Orchestrator.World): (r: Response)
    ensures video.None? ==> r == Response(None, UploadPrompt, [])
    ensures video.Some? && startup.Some? ==> r == Response(None, ErrorMessage(startup.value), [])
    ensures video.Some? && startup.None? ==>
              var o := Options(video.value, language, tone, lipSync, rvc, includeBgm);
              var run := Orchestrator.RunPipeline(o, f, w);
              && (run.outcome.Failed? ==> r == Response(None, ErrorMessage(Orchestrator.Describe(run.outcome.failure)),
                                                        Updates(Orchestrator.Log(o, run))))
              && (!run.outcome.Failed? ==> r.message == Success)
              && (!run.outcome.Failed? ==> r.progress == Updates(Orchestrator.Log(o, run)) + [Complete])
              && (run.outcome.Finished? <==> r.video.Some?)
              && (run.outcome.Finished? ==> r.video == Some(run.outcome.video))
  {
    if video.None? then Response(None, UploadPrompt, [])
    else if startup.Some? then Response(None, ErrorMessage(startup.value), [])
    else
      var o := Options(video.value, language, tone, lipSync, rvc, includeBgm);
      var run := Orchestrator.RunPipeline(o, f, w);
      var updates := Updates(Orchestrator.Log(o, run));
      match run.outcome
      case Failed(e) => Response(None, ErrorMessage(Orchestrator.Describe(e)), updates)
      case NoSpeech => Response(None, Success, updates + [Complete])
      case Finished(v) => Response(Some(v), Success, updates + [Complete])
  }

  /** The pipeline arguments `run_dubbing` passes on. */
  function Options(video: Upload, language: string, tone: Option<string>, lipSync: bool,
                   rvc: Option<Upload>, includeBgm: bool): Orchestrator.Options {
    Orchestrator.Options(video.name, language, tone, None, lipSync,
                         if rvc.Some? then Some(rvc.value.name) else None, includeBgm)
  }

  // ----- properties -----

  /** Without an upload nothing runs: no progress, no video, the prompt. */
  lemma NoUploadGuard(language: string, lipSync: bool, includeBgm: bool, tone: Option<string>, rvc: Option<Upload>,
                      startup: Option<string>, f: Orchestrator.Folders, w: Orchestrator.World)
    ensures RunDubbing(None, language, lipSync, includeBgm, tone, rvc, startup, f, w) == Response(None, UploadPrompt, [])
  {
  }

  /** The fraction never decreases as the counter grows. */
  lemma FractionMonotone(a: nat, b: nat)
    requires a <= b
    ensures Fraction(a) <= Fraction(b)
  {
    assert a as real / 10.0 <= b as real / 10.0;
  }

  /** The fraction is the counter over ten up to nine steps and the cap from
      then on; it never exceeds the cap. */
  lemma FractionCapped(count: nat)
    ensures Fraction(count) <= Cap
    ensures count <= 9 ==> Fraction(count) == count as real / 10.0
    ensures count >= 10 ==> Fraction(count) == Cap
  {
    if count >= 10 {
      assert count as real / 10.0 >= 1.0;
    }
  }

  /** The `i`-th progress call reports counter `i + 1`, out of ten, and the
      message logged `i`-th. */
  lemma CounterStepsByOne(log: seq<string>, i: nat)
    requires i < |log|
    ensures var u := Updates(log)[i];
            && u.fraction == Fraction(i + 1)
            && Text.StartsWith(u.desc, "[" + Text.NatToString(i + 1) + "/10] ")
            && u.desc[|u.desc| - |log[i]|..] == log[i]
  {
    var u := Updates(log)[i];
    assert Text.NatToString(10) == "10";
    var prefix := "[" + Text.NatToString(i + 1) + "/10] ";
    assert u.desc == prefix + log[i];
    assert u.desc[..|prefix|] == prefix;
  }

  /** The callbacks' fractions never decrease and stay under the cap. */
  lemma UpdatesMonotone(log: seq<string>)
    ensures var u := Updates(log);
            && (forall i, j :: 0 <= i < j < |u| ==> u[i].fraction <= u[j].fraction)
            && (forall i :: 0 <= i < |u| ==> u[i].fraction <= Cap)
  {
    var u := Updates(log);
    forall i, j | 0 <= i < j < |u| ensures u[i].fraction <= u[j].fraction {
      FractionMonotone(i + 1, j + 1);
    }
    forall i | 0 <= i < |u| ensures u[i].fraction <= Cap {
      FractionCapped(i + 1);
    }
  }

  /** Across a run the bar only moves forward and stays under the cap until
      a final `1.0` on completion. */
  lemma ProgressMonotone(video: Option<Upload>, language: string, lipSync: bool, includeBgm: bool,
                         tone: Option<string>, rvc: Option<Upload>, startup: Option<string>,
                         f: Orchestrator.Folders, w: Orchestrator.World)
    ensures var p := RunDubbing(video, language, lipSync, includeBgm, tone, rvc, startup, f, w).progress;
            && (forall i, j :: 0 <= i < j < |p| ==> p[i].fraction <= p[j].fraction)
            && (forall i :: 0 <= i < |p| && p[i].fraction > Cap ==> i == |p| - 1 && p[i] == Complete)
  {
    var r := RunDubbing(video, language, lipSync, includeBgm, tone, rvc, startup, f, w);
    if video.Some? && startup.None? {
      var o := Options(video.value, language, tone, lipSync, rvc, includeBgm);
      var run := Orchestrator.RunPipeline(o, f, w);
      var updates := Updates(Orchestrator.Log(o, run));
      UpdatesMonotone(Orchestrator.Log(o, run));
      if run.outcome.Failed? {
        assert r.progress == updates;
      } else {
        assert r.progress == updates + [Complete];
      }
    }
  }

  /** Any exception from the pipeline shows no video and a message that
      carries `str(e)` right after the error marker. */
  lemma ErrorsAreReported(video: Upload, language: string, lipSync: bool, includeBgm: bool,
                          tone: Option<string>, rvc: Option<Upload>, f: Orchestrator.Folders, w: Orchestrator.World)
    ensures var run := Orchestrator.RunPipeline(Options(video, language, tone, lipSync, rvc, includeBgm), f, w);
            var r := RunDubbing(Some(video), language, lipSync, includeBgm, tone, rvc, None, f, w);
            run.outcome.Failed? ==>
              var cause := Orchestrator.Describe(run.outcome.failure);
              var marker := "\U{274C} Pipeline Error: ";
              && r.video.None?
              && Text.StartsWith(r.message, marker)
              && r.message[|marker|..|marker| + |cause|] == cause
  {
    var run := Orchestrator.RunPipeline(Options(video, language, tone, lipSync, rvc, includeBgm), f, w);
    if run.outcome.Failed? {
      var cause := Orchestrator.Describe(run.outcome.failure);
      var marker := "\U{274C} Pipeline Error: ";
      ErrorMessageCarriesCause(cause);
    }
  }

  /** The error text is the marker, then `str(e)`, then the console hint. */
  lemma ErrorMessageCarriesCause(cause: string)
    ensures var marker := "\U{274C} Pipeline Error: ";
            && Text.StartsWith(ErrorMessage(cause), marker)
            && ErrorMessage(cause)[|marker|..|marker| + |cause|] == cause
  {
    var marker := "\U{274C} Pipeline Error: ";
    var suffix := "\n\nCheck console for full details.";
    var head := marker + cause;
    var m := ErrorMessage(cause);
    assert m == head + suffix;
    assert m[..|head|] == head;
    assert head[..|marker|] == marker;
    assert head[|marker|..] == cause;
    assert m[|marker|..|marker| + |cause|] == head[|marker|..];
  }

  /** A finished run shows its video with the success text after reporting
      `1.0`; a run without speech reports success too, with no video. */
  lemma SuccessIsReported(video: Upload, language: string, lipSync: bool, includeBgm: bool,
                          tone: Option<string>, rvc: Option<Upload>, f: Orchestrator.Folders, w: Orchestrator.World)
    ensures var run := Orchestrator.RunPipeline(Options(video, language, tone, lipSync, rvc, includeBgm), f, w);
            var r := RunDubbing(Some(video), language, lipSync, includeBgm, tone, rvc, None, f, w);
            && (run.outcome.Finished? ==>
                  r.video == Some(run.outcome.video) && r.message == Success && r.progress[|r.progress| - 1] == Complete)
            && (run.outcome.NoSpeech? ==> r.video.None? && r.message == Success && |r.progress| == 6)
  {
    var o := Options(video, language, tone, lipSync, rvc, includeBgm);
    var run := Orchestrator.RunPipeline(o, f, w);
    var r := RunDubbing(Some(video), language, lipSync, includeBgm, tone, rvc, None, f, w);
    if !run.outcome.Failed? {
      var updates := Updates(Orchestrator.Log(o, run));
      assert r.progress == updates + [Complete];
      if run.outcome.NoSpeech? {
        Orchestrator.LogMatchesOutcome(o, f, w);
        assert |updates| == 5;
      }
    }
  }
}
