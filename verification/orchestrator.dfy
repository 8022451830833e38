/**
 `Orchestrator.run_pipeline`: the ten steps from a video file to a dubbed
 video, with every engine replaced by its outcome in a `World`. A run is
 described by how many progress messages it logged and how it ended:
 with a video path, with nothing (no speech), or with an exception.
 */
module Orchestrator {
  import opened Basics
  import opened Records
  import Text
  import Seqs
  import Ranking
  import Diarizer
  import EmotionAnalyzer
  import References
  import Translator
  import VoiceCloner
  import Dubbing
  import VideoAssembler

  /** The arguments of `run_pipeline` (`rvc_index_path` only reaches the RVC
      engine, and the progress callback is the log). */
  datatype Options = Options(videoPath: string, language: string, tone: Option<string>, service: Option<string>,
                             lipSync: bool, rvcModel: Option<string>, keepBgm: bool)

  /** `Config.TEMP_DIR` and `Config.OUTPUT_DIR`. */
  datatype Folders = Folders(temp: string, output: string)

  /** One segment of Whisper's result. */
  datatype Utterance = Utterance(start: real, end: real, text: string)

  /** What the file system and the engines do during one run. */
  datatype World = World(
    present: string -> bool,                 // os.path.exists
    readable: string -> bool,                // os.access(path, os.R_OK)
    loadError: string -> Option<string>,     // AudioSegment.from_wav: None, or the message it raises
    extraction: Result<string, string>,      // extract_audio: the wav path, or the message it raises
    separation: Option<(string, string)>,    // demucs' vocals and BGM paths; None when it fails
    utterances: seq<Utterance>,              // Whisper's segments
    turns: seq<Turn>,                        // diarize (already [] on any pyannote failure)
    predictions: nat -> Option<seq<EmotionAnalyzer.Prediction>>,
    signals: nat -> Result<EmotionAnalyzer.Signal, string>,
    clean: string -> string,                 // clean_audio never raises
    config: Translator.Config,
    translatorInit: Option<string>,          // what Translator() raises (GoogleTranslator's constructor), if anything
    reply: Translator.Reply,
    parse: string -> Option<seq<string>>,
    google: string -> Option<string>,
    segEnv: nat -> Dubbing.SegmentEnv,
    assembly: Option<string>,                // the ffmpeg error of assemble_video, if any
    lipSyncs: bool)                          // sync_lips returns its output path rather than raising

  /** An exception escaping `run_pipeline`. */
  datatype Failure = VideoMissing(path: string) | VideoUnreadable(path: string)
                   | ExtractionFailed(cause: string) | Raised(message: string)

  datatype Outcome = Finished(video: string) | NoSpeech | Failed(failure: Failure)

  /** How many progress messages were logged, and how the run ended. */
  datatype Report = Report(logged: nat, outcome: Outcome)

  /** `str(e)` of the escaping exception. */
  function Describe(e: Failure): string {
    match e
    case VideoMissing(p) => "Video file not found: " + p
    case VideoUnreadable(p) => "Cannot read video file: " + p
    case ExtractionFailed(c) => "Failed to extract audio from video. Is ffmpeg installed? Error: " + c
    case Raised(m) => m
  }

  const SupportedLanguages: seq<string> := ["en", "hi", "ur", "es", "fr", "de", "ja", "zh", "ko", "it", "pt", "ru", "ar"]

  /** The language check only prints a warning. */
  predicate Warns(o: Options) {
    o.language !in SupportedLanguages
  }

  /** How many messages a complete run logs. */
  function StepCount(o: Options): nat {
    if o.lipSync then 13 else 12
  }

  /** The progress messages of a complete run, in order (step 1's message is
      logged twice). */
  function Messages(o: Options): (ms: seq<string>)
    ensures |ms| == StepCount(o)
  {
    ["Starting Studio-Level Dubbing Pipeline for " + o.videoPath + " -> " + o.language,
     "Step 1/10: Extracting Audio...",
     "Step 1/10: Extracting Audio...",
     "Step 1.5/10: Separating Vocals and BGM...",
     "Step 2/10: Transcribing...",
     "Step 2.5/10: Performing Speaker Diarization...",
     "Step 3/10: Analyzing Emotion & Preparing Reference Clips...",
     "Step 3.5/10: Creating Merged Voice References (Smart Cloning)...",
     "Step 4/10: Translating to " + o.language + "...",
     "Step 5-7/10: Generating Speech (Cloning + TTS + Align)...",
     "Step 8/10: Assembling Final Video (Merging Audio)...",
     "Step 9/10: QC Checks Passed."]
    + (if o.lipSync then ["Step 10/10: Morphing Lips (Wav2Lip) - This takes time..."] else [])
  }

  /** The messages a run logged. */
  function Log(o: Options, r: Report): seq<string>
    requires r.logged <= StepCount(o)
  {
    Messages(o)[..r.logged]
  }

  /** The separator's result: `(vocals, bgm)`, or `(original, None)` when
      separation fails; and the audio the later steps listen to, the vocals
      when that path is truthy, else the original. */
  function Separate(original: string, separation: Option<(string, string)>): (r: (string, Option<string>))
    ensures separation.None? ==> r == (original, None)
    ensures separation.Some? ==> r.1 == Some(separation.value.1)
    ensures r.0 == original || (separation.Some? && r.0 == separation.value.0 && r.0 != "")
    ensures separation.Some? && separation.value.0 != "" ==> r.0 == separation.value.0
    ensures separation.Some? && separation.value.0 == "" ==> r.0 == original
  {
    match separation
    case None => (original, None)
    case Some((vocals, bgm)) => (if vocals != "" then vocals else original, Some(bgm))
  }

  /** Whisper's segments as the transcriber returns them. */
  function Transcript(w: World): (segs: seq<Segment>)
    ensures |segs| == |w.utterances|
    ensures forall i :: 0 <= i < |segs| ==>
              segs[i].start == w.utterances[i].start && segs[i].end == w.utterances[i].end
    ensures forall i :: 0 <= i < |segs| ==>
              segs[i].text == Text.Strip(w.utterances[i].text) && segs[i].speaker == Some(TranscriberSpeaker)
    ensures forall i :: 0 <= i < |segs| ==>
              segs[i].audioPath.None? && segs[i].duration.None? && segs[i].stats.None? && segs[i].translated.None?
  {
    seq(|w.utterances|, i requires 0 <= i < |w.utterances| =>
      Transcribed(w.utterances[i].start, w.utterances[i].end, Text.Strip(w.utterances[i].text)))
  }

  function Loads(w: World): string -> bool {
    f => w.loadError(f).None?
  }

  /** `os.path.join(self.temp_dir, "full_dubbed_audio.wav")`. */
  function MergedAudioPath(f: Folders): string {
    Text.PathJoin(f.temp, "full_dubbed_audio.wav")
  }

  /** Step 3: the attributed segments with their clip paths, durations and
      emotion statistics. */
  function Prepared(f: Folders, w: World): Result<seq<Segment>, string> {
    References.PrepareSegments(Diarizer.AssignSpeakers(Transcript(w), w.turns), f.temp, w.predictions, w.signals)
  }

  /** Every prepared segment has its clip path. */
  lemma PreparedHaveClips(f: Folders, w: World)
    requires Prepared(f, w).Ok?
    ensures forall i :: 0 <= i < |Prepared(f, w).value| ==> Prepared(f, w).value[i].audioPath.Some?
  {
    var segs := Diarizer.AssignSpeakers(Transcript(w), w.turns);
    forall i | 0 <= i < |Prepared(f, w).value| ensures Prepared(f, w).value[i].audioPath.Some? {
      References.PreparedSegment(segs, f.temp, w.predictions, w.signals, i);
    }
  }

  /** Step 4: a fresh translator for the target language, the service left to
      the configuration unless overridden. */
  function Translated(o: Options, w: World, prepared: seq<Segment>): seq<Segment> {
    Translator.TranslateSegments(Translator.Init(o.language, o.service, w.config), prepared, w.reply, w.parse, w.google)
  }

  /** The settings of the step 5-7 loop, with the references of step 3.5. */
  function DubSettings(o: Options, f: Folders, w: World, prepared: seq<Segment>): Dubbing.Settings
    requires forall i :: 0 <= i < |prepared| ==> prepared[i].audioPath.Some?
  {
    Dubbing.Settings(f.temp, o.language, o.tone, o.rvcModel,
                     References.SpeakerRefs(prepared, f.temp, Loads(w), w.clean))
  }

  /** A new orchestrator has fresh engine handles and no RVC handler. */
  const FreshState := Dubbing.State(VoiceCloner.Fresh, false)

  /** Steps 4 to 7: translate the prepared segments, dub every one, and
      collect the clips. */
  function DubClips(o: Options, f: Folders, w: World): seq<Clip>
    requires Prepared(f, w).Ok?
  {
    PreparedHaveClips(f, w);
    var prepared := Prepared(f, w).value;
    var translated := Translated(o, w, prepared);
    Translator.TranslationOnlyAddsText(Translator.Init(o.language, o.service, w.config), prepared, w.reply, w.parse, w.google);
    var run := Dubbing.RunUpTo(FreshState, translated, |translated|, DubSettings(o, f, w, prepared), w.present, w.segEnv);
    Dubbing.CollectClips(run.processed)
  }

  /** Step 10: the Wav2Lip output next to the assembled video, or the
      assembled video when lip sync is off or fails. */
  function FinalVideo(o: Options, assembled: string, w: World): (video: string)
    ensures !o.lipSync || !w.lipSyncs ==> video == assembled
    ensures o.lipSync && w.lipSyncs ==> video == Text.ReplaceAll(assembled, ".mp4", "_lipsynced.mp4")
  {
    if o.lipSync && w.lipSyncs then Text.ReplaceAll(assembled, ".mp4", "_lipsynced.mp4") else assembled
  }

  /** The exception `merge_audio_segments` raises. */
  function MergeFailure(e: VideoAssembler.MergeError, w: World): Failure {
    match e
    case EmptyClipList => Raised("list index out of range")
    case ClipUnreadable(file) => Raised(w.loadError(file).GetOr(""))
  }

  /** Steps 8 to 10, once the clips are collected (eleven messages logged);
      `bgm` is the track to mix, already `None` unless BGM is kept. */
  function Finish(o: Options, f: Folders, w: World, clips: seq<Clip>, bgm: Option<string>): (r: Report)
    ensures r.logged == 11 || r.logged == StepCount(o)
    ensures r.outcome.Failed? ==> r.logged == 11 && r.outcome.failure.Raised?
    ensures !r.outcome.NoSpeech?
    ensures r.outcome.Finished? ==>
              r.logged == StepCount(o)
              && r.outcome.video == FinalVideo(o, Text.PathJoin(f.output, VideoAssembler.DefaultOutputName), w)
  {
    match VideoAssembler.MergeAudioSegments(clips, MergedAudioPath(f), Loads(w))
    case Err(e) => Report(11, Failed(MergeFailure(e, w)))
    case Ok(_) =>
      match VideoAssembler.AssembleVideo(o.videoPath, MergedAudioPath(f), bgm, w.present,
                                         f.output, VideoAssembler.DefaultOutputName, w.assembly)
      case Err(m) => Report(11, Failed(Raised(m)))
      case Ok(mux) => Report(StepCount(o), Finished(FinalVideo(o, mux.output, w)))
  }

  /** `run_pipeline(video_path, target_language, ...)`. */
  function RunPipeline(o: Options, f: Folders, w: World): (r: Report)
    ensures r.logged <= StepCount(o)
  {
    if !w.present(o.videoPath) then Report(1, Failed(VideoMissing(o.videoPath)))
    else if !w.readable(o.videoPath) then Report(1, Failed(VideoUnreadable(o.videoPath)))
    else
      match w.extraction
      case Err(m) => Report(3, Failed(ExtractionFailed(m)))
      case Ok(original) =>
        var (processing, bgm) := Separate(original, w.separation);
        if w.utterances == [] then Report(5, NoSpeech)
        else if w.loadError(processing).Some? then Report(7, Failed(Raised(w.loadError(processing).value)))
        else
          match Prepared(f, w)
          case Err(m) => Report(7, Failed(Raised(m)))
          case Ok(_) =>
            if w.translatorInit.Some? then Report(9, Failed(Raised(w.translatorInit.value)))
            else Finish(o, f, w, DubClips(o, f, w), if o.keepBgm then bgm else None)
  }

  // ----- properties of a run -----

  /** The input checks come before any stage: a missing or unreadable video
      ends the run after the first message, and an extraction failure is
      re-raised with the ffmpeg hint before separation starts. The language
      check never ends the run. */
  lemma ValidationComesFirst(o: Options, f: Folders, w: World)
    ensures var r := RunPipeline(o, f, w);
            && (!w.present(o.videoPath) ==>
                  r == Report(1, Failed(VideoMissing(o.videoPath)))
                  && Describe(r.outcome.failure) == "Video file not found: " + o.videoPath)
            && (w.present(o.videoPath) && !w.readable(o.videoPath) ==>
                  r == Report(1, Failed(VideoUnreadable(o.videoPath)))
                  && Describe(r.outcome.failure) == "Cannot read video file: " + o.videoPath)
            && (w.present(o.videoPath) && w.readable(o.videoPath) && w.extraction.Err? ==>
                  r == Report(3, Failed(ExtractionFailed(w.extraction.error)))
                  && Describe(r.outcome.failure)
                     == "Failed to extract audio from video. Is ffmpeg installed? Error: " + w.extraction.error)
            && (w.present(o.videoPath) && w.readable(o.videoPath) && w.extraction.Ok? ==> r.logged >= 5)
  {
    var r := RunPipeline(o, f, w);
    if w.present(o.videoPath) && w.readable(o.videoPath) && w.extraction.Ok? && w.utterances != [] {
      var (processing, bgm) := Separate(w.extraction.value, w.separation);
      if w.loadError(processing).None? && Prepared(f, w).Ok? && w.translatorInit.None? {
        var clips := DubClips(o, f, w);
        assert r == Finish(o, f, w, clips, if o.keepBgm then bgm else None);
      }
    }
  }

  /** No transcribed speech ends the run after the transcription message,
      with no result and before any later stage. */
  lemma NoSpeechStopsEarly(o: Options, f: Folders, w: World)
    requires w.present(o.videoPath) && w.readable(o.videoPath) && w.extraction.Ok?
    ensures var r := RunPipeline(o, f, w);
            && (w.utterances == [] <==> r.outcome.NoSpeech?)
            && (w.utterances == [] ==> r.logged == 5 && Log(o, r)[4] == "Step 2/10: Transcribing...")
  {
    var r := RunPipeline(o, f, w);
    if w.utterances != [] {
      var (processing, bgm) := Separate(w.extraction.value, w.separation);
      if w.loadError(processing).None? && Prepared(f, w).Ok? && w.translatorInit.None? {
        var clips := DubClips(o, f, w);
        assert r == Finish(o, f, w, clips, if o.keepBgm then bgm else None);
      }
    }
  }

  /** A complete run logged every message of the list. */
  lemma CompleteLog(o: Options, r: Report)
    requires r.logged == StepCount(o)
    ensures Log(o, r) == Messages(o)
  {
    var ms := Messages(o);
    assert ms[..|ms|] == ms;
  }

  /** A run that finishes logged every message (thirteen with lip sync,
      twelve without) and returns the assembled video, or its lip-synced
      sibling when Wav2Lip succeeded. */
  lemma FinishedRun(o: Options, f: Folders, w: World)
    ensures var r := RunPipeline(o, f, w);
            r.outcome.Finished? ==>
              && Log(o, r) == Messages(o)
              && r.logged == (if o.lipSync then 13 else 12)
              && var assembled := Text.PathJoin(f.output, VideoAssembler.DefaultOutputName);
                 r.outcome.video == (if o.lipSync && w.lipSyncs then Text.ReplaceAll(assembled, ".mp4", "_lipsynced.mp4")
                                     else assembled)
  {
    var r := RunPipeline(o, f, w);
    if r.outcome.Finished? {
      assert w.present(o.videoPath) && w.readable(o.videoPath) && w.extraction.Ok? && w.utterances != [];
      var (processing, bgm) := Separate(w.extraction.value, w.separation);
      assert w.loadError(processing).None? && Prepared(f, w).Ok? && w.translatorInit.None?;
      var clips := DubClips(o, f, w);
      assert r == Finish(o, f, w, clips, if o.keepBgm then bgm else None);
      CompleteLog(o, r);
    }
  }

  /** Every way a run can end, with the number of messages it logged:
      validation failures after one, extraction failure after three, no
      speech after five, an analysis failure after seven, a failure to
      build the translator after nine, a merge or
      assembly failure after eleven, and a finished run after all. */
  lemma LogMatchesOutcome(o: Options, f: Folders, w: World)
    ensures var r := RunPipeline(o, f, w);
            && (r.outcome.Finished? ==> r.logged == StepCount(o))
            && (r.outcome.NoSpeech? ==> r.logged == 5)
            && (r.outcome.Failed? ==> r.logged in {1, 3, 7, 9, 11})
            && (r.outcome.Failed? && r.outcome.failure.Raised? ==> r.logged in {7, 9, 11})
  {
    var r := RunPipeline(o, f, w);
    if w.present(o.videoPath) && w.readable(o.videoPath) && w.extraction.Ok? && w.utterances != [] {
      var (processing, bgm) := Separate(w.extraction.value, w.separation);
      if w.loadError(processing).None? && Prepared(f, w).Ok? && w.translatorInit.None? {
        var clips := DubClips(o, f, w);
        assert r == Finish(o, f, w, clips, if o.keepBgm then bgm else None);
      }
    }
  }

  /** A separation failure leaves the original audio for the later steps
      and no BGM; BGM reaches assembly only when it is kept. */
  lemma SeparationFallback(original: string, separation: Option<(string, string)>, keepBgm: bool)
    ensures var (processing, bgm) := Separate(original, separation);
            && (separation.None? ==> processing == original && bgm.None?)
            && ((if keepBgm then bgm else None).Some? <==> keepBgm && separation.Some?)
  {
  }

  /** The clips handed to assembly are sorted by start, at most one per
      transcribed segment, and each carries the start and end of a distinct
      segment of the transcript. */
  lemma ClipsComeFromTranscript(o: Options, f: Folders, w: World)
    requires Prepared(f, w).Ok?
    ensures var clips := DubClips(o, f, w);
            && Ranking.Ascending(clips, ClipStart)
            && |clips| <= |w.utterances|
            && Seqs.Image(clips, Dubbing.Span) <= Seqs.Image(Transcript(w), Dubbing.SegmentSpan)
  {
    PreparedHaveClips(f, w);
    var prepared := Prepared(f, w).value;
    var segs := Diarizer.AssignSpeakers(Transcript(w), w.turns);
    var t := Translator.Init(o.language, o.service, w.config);
    Translator.TranslationOnlyAddsText(t, prepared, w.reply, w.parse, w.google);
    var translated := Translated(o, w, prepared);
    var cfg := DubSettings(o, f, w, prepared);
    Dubbing.ClipsAreSortedSpans(FreshState, translated, cfg, w.present, w.segEnv);
    var ps := Dubbing.RunUpTo(FreshState, translated, |translated|, cfg, w.present, w.segEnv).processed;
    forall i | 0 <= i < |translated|
      ensures Dubbing.SegmentSpan(translated[i]) == Dubbing.SegmentSpan(Transcript(w)[i])
    {
      References.PreparedSegment(segs, f.temp, w.predictions, w.signals, i);
    }
    Seqs.ImagePointwise(translated, Transcript(w), Dubbing.SegmentSpan, Dubbing.SegmentSpan);
  }

  /** In an output folder without dots, the lip-synced video sits next to
      the assembled one: `<folder>/dubbed_video_lipsynced.mp4`. */
  lemma LipSyncedName(folder: string)
    requires folder != [] && folder[|folder| - 1] != '/'
    requires forall k :: 0 <= k < |folder| ==> folder[k] != '.'
    ensures var assembled := Text.PathJoin(folder, VideoAssembler.DefaultOutputName);
            && assembled == folder + "/dubbed_video.mp4"
            && Text.ReplaceAll(assembled, ".mp4", "_lipsynced.mp4") == folder + "/dubbed_video_lipsynced.mp4"
  {
    var stem := folder + "/dubbed_video";
    JoinedOutputName(folder);
    StemHasNoDot(folder);
    Text.ReplaceAtEnd(stem, ".mp4", "_lipsynced.mp4");
    assert stem + "_lipsynced.mp4" == folder + "/dubbed_video_lipsynced.mp4";
  }

  lemma JoinedOutputName(folder: string)
    requires folder != [] && folder[|folder| - 1] != '/'
    ensures Text.PathJoin(folder, VideoAssembler.DefaultOutputName) == folder + "/dubbed_video" + ".mp4"
  {
    assert !Text.StartsWith(VideoAssembler.DefaultOutputName, "/") by {
      assert VideoAssembler.DefaultOutputName[..1][0] == 'd';
    }
    assert folder + "/" + VideoAssembler.DefaultOutputName == folder + "/dubbed_video" + ".mp4";
  }

  lemma StemHasNoDot(folder: string)
    requires forall k :: 0 <= k < |folder| ==> folder[k] != '.'
    ensures var stem := folder + "/dubbed_video"; forall k :: 0 <= k < |stem| ==> stem[k] != '.'
  {
    var stem := folder + "/dubbed_video";
    forall k | 0 <= k < |stem| ensures stem[k] != '.' {
      if k >= |folder| {
        assert stem[k] == "/dubbed_video"[k - |folder|];
      }
    }
  }
}
