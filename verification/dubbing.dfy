/**
 Steps 5 to 7 of `run_pipeline`: for every translated segment, synthesise
 speech with the speaker's reference, optionally refine it with RVC, and
 time-stretch it to the segment's length; then collect the clips for the
 timeline. The thread pool is modelled sequentially: alignment results are
 joined in submission order. What each engine does on segment `i` is an
 input (`SegmentEnv`); `present` says which files exist.
 */
module Dubbing {
  import opened Basics
  import opened Records
  import Aligner
  import VoiceCloner
  import Ranking
  import Seqs
  import Text

  /** `os.path.join(temp_dir, f"seg_{i}_dub_raw.wav")`. */
  function RawDubPath(temp: string, i: nat): string {
    Text.PathJoin(temp, "seg_" + Text.NatToString(i) + "_dub_raw.wav")
  }

  /** `os.path.join(temp_dir, f"seg_{i}_dub_aligned.wav")`. */
  function AlignedDubPath(temp: string, i: nat): string {
    Text.PathJoin(temp, "seg_" + Text.NatToString(i) + "_dub_aligned.wav")
  }

  /** What stays fixed across the loop. */
  datatype Settings = Settings(temp: string, language: string, tone: Option<string>,
                               rvcModel: Option<string>, refs: map<string, string>)

  /** How the engines behave on one segment: the voice cloner's engines,
      whether `RVCInference()` can be constructed, the path `infer` returns
      (`None` when it raises), and the alignment's probe and ffmpeg run. */
  datatype SegmentEnv = SegmentEnv(engines: VoiceCloner.Engines, rvcCreates: bool,
                                   rvcOutput: Option<string>, stretch: Aligner.StretchEnv)

  /** The voice cloner's handles and whether the RVC handler exists. */
  datatype State = State(cloner: VoiceCloner.Cloner, rvcReady: bool)

  /** The arguments `generate_speech` is called with. */
  datatype Synth = Synth(text: string, reference: string, language: string, output: string, emotion: string)

  /** What became of a segment: an aligned dub, the original clip as a
      fallback, nothing because the original clip is missing, or nothing
      because alignment raised. */
  datatype Fate = Aligned(file: string) | Fallback(file: string) | Skipped | Dropped

  datatype Processed = Processed(state: State, request: Synth, fate: Fate, start: real, end: real)

  /** A segment as the loop sees it: prepared and translated. */
  predicate Ready(seg: Segment) {
    seg.audioPath.Some? && seg.translated.Some?
  }

  /** `speaker_refs.get(speaker, seg['audio_path'])`. */
  function Reference(refs: map<string, string>, seg: Segment): string
    requires seg.audioPath.Some?
  {
    if SpeakerKey(seg) in refs then refs[SpeakerKey(seg)] else seg.audioPath.value
  }

  /** `seg.get('emotion', 'default')`, replaced by a truthy tone preference. */
  function EmotionTag(tone: Option<string>, seg: Segment): string {
    if Truthy(tone) then tone.value
    else if seg.stats.Some? then seg.stats.value.emotion
    else "default"
  }

  /** The original clip if it exists on disk, else nothing. */
  function FallbackFate(seg: Segment, present: string -> bool): Fate
    requires seg.audioPath.Some?
  {
    if present(seg.audioPath.value) then Fallback(seg.audioPath.value) else Skipped
  }

  /** One iteration of the loop. */
  function ProcessSegment(st: State, i: nat, seg: Segment, cfg: Settings, present: string -> bool, env: SegmentEnv): (r: Processed)
    requires Ready(seg)
    ensures r.start == seg.start && r.end == seg.end
  {
    var req := Synth(seg.translated.value, Reference(cfg.refs, seg), cfg.language,
                     RawDubPath(cfg.temp, i), EmotionTag(cfg.tone, seg));
    var call := VoiceCloner.GenerateSpeech(st.cloner, req.reference, present(req.reference),
                                           cfg.language, req.output, env.engines);
    var st1 := st.(cloner := call.cloner);
    var rvc := Truthy(cfg.rvcModel);
    if call.result.Err? || (rvc && !st.rvcReady && !env.rvcCreates) then
      Processed(st1, req, FallbackFate(seg, present), seg.start, seg.end)
    else
      var st2 := if rvc then st1.(rvcReady := true) else st1;
      var audio := if rvc && env.rvcOutput.Some? then env.rvcOutput.value else req.output;
      match Aligner.StretchAudio(audio, seg.end - seg.start, AlignedDubPath(cfg.temp, i), env.stretch)
      case Ok(s) => Processed(st2, req, Aligned(s.path), seg.start, seg.end)
      case Err(_) => Processed(st2, req, Dropped, seg.start, seg.end)
  }

  /** What one iteration asks of the voice cloner: the translated text,
      the speaker's reference (or the segment's own clip), the target
      language, the raw dub path of index `i` and the emotion tag. */
  lemma SegmentRequest(st: State, i: nat, seg: Segment, cfg: Settings, present: string -> bool, env: SegmentEnv)
    requires Ready(seg)
    ensures var r := ProcessSegment(st, i, seg, cfg, present, env);
            && r.request == Synth(seg.translated.value, Reference(cfg.refs, seg), cfg.language,
                                  RawDubPath(cfg.temp, i), EmotionTag(cfg.tone, seg))
            && r.state.cloner == VoiceCloner.GenerateSpeech(st.cloner, r.request.reference, present(r.request.reference),
                                                            cfg.language, r.request.output, env.engines).cloner
            && (st.rvcReady ==> r.state.rvcReady)
  {
  }

  /** The segment falls back to its original clip (or to nothing, when
      that clip is missing) exactly when synthesis fails or the RVC handler
      cannot be created. */
  lemma SegmentFallback(st: State, i: nat, seg: Segment, cfg: Settings, present: string -> bool, env: SegmentEnv)
    requires Ready(seg)
    ensures var r := ProcessSegment(st, i, seg, cfg, present, env);
            var reference := Reference(cfg.refs, seg);
            var call := VoiceCloner.GenerateSpeech(st.cloner, reference, present(reference),
                                                   cfg.language, RawDubPath(cfg.temp, i), env.engines);
            && ((call.result.Err? || (Truthy(cfg.rvcModel) && !st.rvcReady && !env.rvcCreates))
                <==> (r.fate.Fallback? || r.fate.Skipped?))
            && (r.fate.Fallback? ==> r.fate.file == seg.audioPath.value && present(seg.audioPath.value))
            && (r.fate.Skipped? ==> !present(seg.audioPath.value))
  {
  }

  /** Otherwise the dub (refined by RVC when it produced a file) is
      stretched to the segment's length, and the segment keeps the stretched
      file exactly when stretching succeeds. */
  lemma SegmentAligned(st: State, i: nat, seg: Segment, cfg: Settings, present: string -> bool, env: SegmentEnv)
    requires Ready(seg)
    ensures var r := ProcessSegment(st, i, seg, cfg, present, env);
            r.fate.Aligned? || r.fate.Dropped? ==>
              var audio := if Truthy(cfg.rvcModel) && env.rvcOutput.Some? then env.rvcOutput.value else RawDubPath(cfg.temp, i);
              var stretched := Aligner.StretchAudio(audio, seg.end - seg.start, AlignedDubPath(cfg.temp, i), env.stretch);
              && (r.fate.Aligned? <==> stretched.Ok?)
              && (r.fate.Aligned? ==> r.fate.file == stretched.value.path)
  {
  }

  datatype Run = Run(state: State, processed: seq<Processed>)

  /** The loop over the first `n` segments, threading the engine state. */
  function RunUpTo(st: State, segs: seq<Segment>, n: nat, cfg: Settings, present: string -> bool, env: nat -> SegmentEnv): (r: Run)
    requires n <= |segs|
    requires forall i :: 0 <= i < |segs| ==> Ready(segs[i])
    ensures |r.processed| == n
    ensures forall i :: 0 <= i < n ==> r.processed[i].start == segs[i].start && r.processed[i].end == segs[i].end
  {
    if n == 0 then Run(st, [])
    else
      var before := RunUpTo(st, segs, n - 1, cfg, present, env);
      var p := ProcessSegment(before.state, n - 1, segs[n - 1], cfg, present, env(n - 1));
      Run(p.state, before.processed + [p])
  }

  /** Later iterations do not change what an earlier one produced. */
  lemma {:induction false} RunPrefix(st: State, segs: seq<Segment>, n: nat, cfg: Settings, present: string -> bool,
                                     env: nat -> SegmentEnv, i: nat)
    requires n <= |segs|
    requires forall i :: 0 <= i < |segs| ==> Ready(segs[i])
    requires i < n
    ensures RunUpTo(st, segs, n, cfg, present, env).processed[i] == RunUpTo(st, segs, i + 1, cfg, present, env).processed[i]
    decreases n
  {
    var r := RunUpTo(st, segs, n, cfg, present, env);
    var before := RunUpTo(st, segs, n - 1, cfg, present, env);
    assert r.processed[..n - 1] == before.processed;
    if i < n - 1 {
      RunPrefix(st, segs, n - 1, cfg, present, env, i);
      assert r.processed[i] == before.processed[i];
    } else {
      assert i + 1 == n;
    }
  }

  /** Segment `i` is processed in the engine state the segments before it
      left behind. */
  lemma RunStep(st: State, segs: seq<Segment>, n: nat, cfg: Settings, present: string -> bool,
                env: nat -> SegmentEnv, i: nat)
    requires n <= |segs|
    requires forall i :: 0 <= i < |segs| ==> Ready(segs[i])
    requires i < n
    ensures RunUpTo(st, segs, n, cfg, present, env).processed[i]
            == ProcessSegment(RunUpTo(st, segs, i, cfg, present, env).state, i, segs[i], cfg, present, env(i))
  {
    RunPrefix(st, segs, n, cfg, present, env, i);
  }

  function ClipOf(p: Processed): Clip
    requires p.fate.Aligned? || p.fate.Fallback?
  {
    Clip(p.fate.file, p.start, p.end)
  }

  /** `generated_clips` after the loop: fallback clips, appended as the
      loop runs. */
  function FallbackClips(ps: seq<Processed>): seq<Clip> {
    if |ps| == 0 then []
    else FallbackClips(ps[..|ps| - 1]) + (if ps[|ps| - 1].fate.Fallback? then [ClipOf(ps[|ps| - 1])] else [])
  }

  /** The clips of the alignment futures that returned, in submission order. */
  function AlignedClips(ps: seq<Processed>): seq<Clip> {
    if |ps| == 0 then []
    else AlignedClips(ps[..|ps| - 1]) + (if ps[|ps| - 1].fate.Aligned? then [ClipOf(ps[|ps| - 1])] else [])
  }

  /** `generated_clips.sort(key=start)` over fallbacks then aligned clips. */
  function CollectClips(ps: seq<Processed>): (r: seq<Clip>)
    ensures Ranking.Ascending(r, ClipStart)
    ensures multiset(r) == multiset(FallbackClips(ps) + AlignedClips(ps))
  {
    Ranking.StableSort(FallbackClips(ps) + AlignedClips(ps), ClipStart)
  }

  function Span(c: Clip): (real, real) { (c.start, c.end) }

  function ProcessedSpan(p: Processed): (real, real) { (p.start, p.end) }

  function SegmentSpan(s: Segment): (real, real) { (s.start, s.end) }

  /** Segments that produced a clip. */
  predicate Produced(p: Processed) { p.fate.Aligned? || p.fate.Fallback? }

  /** Each segment contributes at most one clip, with its own span: the
      spans of the collected clips are those of the segments that produced
      a clip. */
  lemma {:induction false} CollectedSpans(ps: seq<Processed>)
    ensures SpansAgree(ps)
    decreases |ps|
  {
    if |ps| > 0 {
      CollectedSpans(ps[..|ps| - 1]);
      var p := ps[|ps| - 1];
      if p.fate.Fallback? {
        FallbackStep(ps);
      } else if p.fate.Aligned? {
        AlignedStep(ps);
      } else {
        SkippedStep(ps);
      }
    }
  }

  /** The spans of the collected clips are the spans of the segments that
      produced a clip. */
  predicate SpansAgree(ps: seq<Processed>) {
    Seqs.Image(FallbackClips(ps), Span) + Seqs.Image(AlignedClips(ps), Span)
    == Seqs.Image(Seqs.Filter(ps, Produced), ProcessedSpan)
  }

  lemma FallbackStep(ps: seq<Processed>)
    requires |ps| > 0 && ps[|ps| - 1].fate.Fallback?
    requires SpansAgree(ps[..|ps| - 1])
    ensures SpansAgree(ps)
  {
    var init, p := ps[..|ps| - 1], ps[|ps| - 1];
    assert ps == init + [p];
    Seqs.FilterAppend(init, p, Produced);
    var fb, kept := FallbackClips(init), Seqs.Filter(init, Produced);
    assert FallbackClips(ps) == fb + [ClipOf(p)];
    assert AlignedClips(ps) == AlignedClips(init);
    assert Seqs.Filter(ps, Produced) == kept + [p];
    SpanStep(fb, kept, p);
  }

  lemma AlignedStep(ps: seq<Processed>)
    requires |ps| > 0 && ps[|ps| - 1].fate.Aligned?
    requires SpansAgree(ps[..|ps| - 1])
    ensures SpansAgree(ps)
  {
    var init, p := ps[..|ps| - 1], ps[|ps| - 1];
    assert ps == init + [p];
    Seqs.FilterAppend(init, p, Produced);
    var al, kept := AlignedClips(init), Seqs.Filter(init, Produced);
    assert FallbackClips(ps) == FallbackClips(init);
    assert AlignedClips(ps) == al + [ClipOf(p)];
    assert Seqs.Filter(ps, Produced) == kept + [p];
    SpanStep(al, kept, p);
  }

  lemma SkippedStep(ps: seq<Processed>)
    requires |ps| > 0 && !Produced(ps[|ps| - 1])
    requires SpansAgree(ps[..|ps| - 1])
    ensures SpansAgree(ps)
  {
    var init, p := ps[..|ps| - 1], ps[|ps| - 1];
    assert ps == init + [p];
    Seqs.FilterAppend(init, p, Produced);
    assert FallbackClips(ps) == FallbackClips(init);
    assert AlignedClips(ps) == AlignedClips(init);
    assert Seqs.Filter(ps, Produced) == Seqs.Filter(init, Produced);
  }

  /** One produced segment adds its span on both sides. */
  lemma SpanStep(cs: seq<Clip>, kept: seq<Processed>, p: Processed)
    requires Produced(p)
    ensures Seqs.Image(cs + [ClipOf(p)], Span) == Seqs.Image(cs, Span) + multiset{ProcessedSpan(p)}
    ensures Seqs.Image(kept + [p], ProcessedSpan) == Seqs.Image(kept, ProcessedSpan) + multiset{ProcessedSpan(p)}
  {
    Seqs.ImageConcat(cs, [ClipOf(p)], Span);
    Seqs.ImageConcat(kept, [p], ProcessedSpan);
    Seqs.ImageSingle(ClipOf(p), Span);
    Seqs.ImageSingle(p, ProcessedSpan);
  }

  /** The clips handed to assembly are sorted by start, one per segment that
      produced a clip, and each carries the start and end of a distinct
      input segment. */
  lemma ClipsAreSortedSpans(st: State, segs: seq<Segment>, cfg: Settings, present: string -> bool, env: nat -> SegmentEnv)
    requires forall i :: 0 <= i < |segs| ==> Ready(segs[i])
    ensures var ps := RunUpTo(st, segs, |segs|, cfg, present, env).processed;
            var clips := CollectClips(ps);
            && Ranking.Ascending(clips, ClipStart)
            && |clips| == |Seqs.Filter(ps, Produced)|
            && Seqs.Image(clips, Span) <= Seqs.Image(segs, SegmentSpan)
  {
    var ps := RunUpTo(st, segs, |segs|, cfg, present, env).processed;
    var clips := CollectClips(ps);
    var collected := FallbackClips(ps) + AlignedClips(ps);
    Seqs.ImagePermutation(clips, collected, Span);
    Seqs.ImageConcat(FallbackClips(ps), AlignedClips(ps), Span);
    CollectedSpans(ps);
    assert |clips| == |multiset(clips)| == |Seqs.Image(clips, Span)| by {
      Seqs.ImageSize(clips, Span);
    }
    Seqs.ImageSize(Seqs.Filter(ps, Produced), ProcessedSpan);
    Seqs.FilteredImage(ps, Produced, ProcessedSpan);
    Seqs.ImagePointwise(ps, segs, ProcessedSpan, SegmentSpan);
  }
}
