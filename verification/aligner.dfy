/**
 Time-stretch alignment (`AudioAligner`). Probing a clip's duration and
 running ffmpeg's `atempo` filter are inputs: the probe either yields a
 duration or raises; the run succeeds, raises `ffmpeg.Error` (caught), or
 raises anything else (not caught).
 */
module Aligner {
  import opened Basics
  import Text

  datatype Probe = Probed(duration: real) | ProbeRaised(message: string)

  datatype FfmpegRun = RunOk | RunFfmpegError | RunRaised(message: string)

  /** The environment of one `stretch_audio` call. */
  datatype StretchEnv = StretchEnv(probe: Probe, run: FfmpegRun)

  /** Exceptions that escape `stretch_audio`. Python raises
      `ZeroDivisionError` for `duration / 0.0`. */
  datatype StretchError = ProbeFailed(message: string) | ZeroDivision | RunFailed(message: string)

  /** The returned path and the `atempo` rate ffmpeg was run with, if it was run. */
  datatype Stretch = Stretch(path: string, rate: Option<real>)

  const MinRate: real := 0.5
  const MaxRate: real := 2.0

  /** The two successive `if`s of the source: low rates are raised to 0.5,
      high ones lowered to 2.0, nothing is rejected. */
  function ClampRate(rate: real): (r: real)
    ensures MinRate <= r <= MaxRate
    ensures MinRate <= rate <= MaxRate ==> r == rate
    ensures rate < MinRate ==> r == MinRate
    ensures rate > MaxRate ==> r == MaxRate
  {
    var r1 := if rate < MinRate then MinRate else rate;
    if r1 > MaxRate then MaxRate else r1
  }

  /** Clamping is monotone and a fixed point once applied. */
  lemma ClampRateOrdered(a: real, b: real)
    requires a <= b
    ensures ClampRate(a) <= ClampRate(b)
    ensures ClampRate(ClampRate(a)) == ClampRate(a)
  {
  }

  /** `rate = duration / target_duration`, then clamped. */
  function StretchRate(duration: real, target: real): real
    requires target != 0.0
  {
    ClampRate(duration / target)
  }

  /** What the rate achieves, the output lasting `duration / rate`: exactly
      the target when no clamping was needed, longer than the target when
      the clip needed more than 2x compression, shorter when it needed more
      than 2x stretching. */
  lemma StretchedLength(duration: real, target: real)
    requires duration > 0.0 && target > 0.0
    ensures var rate := StretchRate(duration, target);
            && (MinRate * target <= duration <= MaxRate * target ==> duration / rate == target)
            && (duration > MaxRate * target ==> duration / rate > target)
            && (duration < MinRate * target ==> duration / rate < target)
  {
    QuotientCompare(duration, target, MinRate);
    QuotientCompare(duration, target, MaxRate);
  }

  lemma QuotientCompare(x: real, y: real, c: real)
    requires y > 0.0
    ensures x < c * y <==> x / y < c
    ensures x == c * y <==> x / y == c
  {
  }

  /** `stretch_audio(audio_path, target_duration, output_path)`. */
  function StretchAudio(audioPath: string, target: real, outputPath: string, env: StretchEnv): (r: Result<Stretch, StretchError>)
    ensures env.probe.ProbeRaised? ==> r == Err(ProbeFailed(env.probe.message))
    ensures env.probe == Probed(0.0) ==> r == Ok(Stretch(audioPath, None))
    ensures env.probe.Probed? && env.probe.duration != 0.0 && target == 0.0 ==> r == Err(ZeroDivision)
    ensures env.probe.Probed? && env.probe.duration != 0.0 && target != 0.0 ==>
      match env.run
      case RunOk => r == Ok(Stretch(outputPath, Some(StretchRate(env.probe.duration, target))))
      case RunFfmpegError => r == Ok(Stretch(audioPath, Some(StretchRate(env.probe.duration, target))))
      case RunRaised(m) => r == Err(RunFailed(m))
    ensures r.Ok? && r.value.rate.Some? ==> MinRate <= r.value.rate.value <= MaxRate
    ensures r.Ok? ==> r.value.path == outputPath || r.value.path == audioPath
  {
    match env.probe
    case ProbeRaised(m) => Err(ProbeFailed(m))
    case Probed(duration) =>
      if duration == 0.0 then Ok(Stretch(audioPath, None))
      else if target == 0.0 then Err(ZeroDivision)
      else
        var rate := StretchRate(duration, target);
        match env.run
        case RunOk => Ok(Stretch(outputPath, Some(rate)))
        case RunFfmpegError => Ok(Stretch(audioPath, Some(rate)))
        case RunRaised(m) => Err(RunFailed(m))
  }

  /** One entry of `align_segments`' input: `{file, target_duration}`. */
  datatype AlignItem = AlignItem(file: string, targetDuration: real)

  /** The name `align_segments` reports for a file. */
  function AlignedName(file: string): string {
    Text.ReplaceAll(file, ".wav", "_aligned.wav")
  }

  /** A `stem.wav` name whose stem has no `.` becomes `stem_aligned.wav`. */
  lemma AlignedNameOfWav(stem: string)
    requires forall k :: 0 <= k < |stem| ==> stem[k] != '.'
    ensures AlignedName(stem + ".wav") == stem + "_aligned.wav"
  {
    Text.ReplaceAtEnd(stem, ".wav", "_aligned.wav");
  }

  /** `align_segments`: stretches each item in order into its aligned name
      and reports the names, whatever each stretch returned; the exception
      of the first item whose stretch raises escapes. */
  method AlignSegments(items: seq<AlignItem>, env: nat -> StretchEnv) returns (r: Result<seq<string>, StretchError>)
    ensures r.Ok? <==> forall i :: 0 <= i < |items| ==>
              StretchAudio(items[i].file, items[i].targetDuration, AlignedName(items[i].file), env(i)).Ok?
    ensures r.Ok? ==> |r.value| == |items|
                      && forall i :: 0 <= i < |items| ==> r.value[i] == AlignedName(items[i].file)
    ensures r.Err? ==> exists i :: (0 <= i < |items|
              && StretchAudio(items[i].file, items[i].targetDuration, AlignedName(items[i].file), env(i)) == Err(r.error)
              && forall k :: 0 <= k < i ==>
                   StretchAudio(items[k].file, items[k].targetDuration, AlignedName(items[k].file), env(k)).Ok?)
  {
    var names: seq<string> := [];
    var i := 0;
    while i < |items|
      invariant 0 <= i <= |items|
      invariant |names| == i
      invariant forall k :: 0 <= k < i ==> names[k] == AlignedName(items[k].file)
      invariant forall k :: 0 <= k < i ==>
        StretchAudio(items[k].file, items[k].targetDuration, AlignedName(items[k].file), env(k)).Ok?
    {
      var outName := AlignedName(items[i].file);
      var stretched := StretchAudio(items[i].file, items[i].targetDuration, outName, env(i));
      if stretched.Err? {
        return Err(stretched.error);
      }
      names := names + [outName];
      i := i + 1;
    }
    return Ok(names);
  }
}
