# Video dubber: the dubbing pipeline in Dafny

This project models the core of an automatic video-dubbing tool. The tool
takes a video and a target language and runs a fixed sequence of stages:

1. extract the audio;
2. separate vocals from background music (BGM);
3. transcribe the speech;
4. attribute each transcribed segment to a diarized speaker;
5. analyse each segment's emotion and prosody;
6. build one merged voice reference per speaker;
7. translate the segments;
8. synthesise, refine and time-stretch one dub per segment;
9. lay the dubs out on a silent timeline;
10. mux the result back into the video, optionally ducking the BGM and lip-syncing the output.

The web front end wraps the run in a ten-step progress bar.

The model is purely functional. Every engine the pipeline calls is an input of the model, fixed in advance:

- the speech recogniser, diarizer, separator, classifiers and TTS engines;
- ffmpeg, Wav2Lip and the RVC voice converter;
- the file system.

Each engine input says what the engine returns or which exception it raises on each call. On top of those inputs the model states how the code decides:

- which speaker a segment gets;
- which clips make up a speaker's reference;
- which rate the stretch runs at;
- which engine speaks a segment and what happens when it fails;
- which clips reach the timeline, and in what order;
- how many progress messages a run reports before it ends, and with what result.

Modules follow the source files:

- `Diarizer`: `src/modules/diarizer.py`.
- `Aligner`: `src/modules/aligner.py`.
- `VideoAssembler`: `src/modules/video_assembler.py`.
- `Translator`: `src/modules/translator.py`.
- `VoiceCloner`: `src/modules/voice_cloner.py`.
- `EmotionAnalyzer`: `src/modules/emotion_analyzer.py`.
- `Orchestrator`: `run_pipeline` in `src/orchestrator.py`.
  - `References` holds its reference-building loop.
  - `Dubbing` holds its per-segment dubbing loop.
- `App`: `run_dubbing` in `app.py`.

Four modules hold shared helpers:

- `Records`: the segment record.
- `Text`: `str.replace`, `str.strip`, slicing and `os.path.join`.
- `Ranking`: `max` with a key and the stable `sorted`.
- `Seqs`: list comprehensions and multisets of images.

Two behaviours of the code are worth knowing when reading the model:

- `merge_audio_segments` sizes the canvas from the end of the clip that starts last, plus one second. A long clip that starts early can therefore end after the canvas does. `VideoAssembler.CanvasMissesLongEarlyClip` shows this with a concrete pair of clips. `VideoAssembler.CanvasCoversMonotoneEnds` shows the canvas is long enough whenever the ends grow with the starts.
- A run with no transcribed speech returns nothing rather than raising, and the front end then reports success with no video.

## Model

| member | source | states |
|---|---|---|
| Text.ReplaceAbsent | src/orchestrator.py:288 | replacing a pattern that does not occur leaves the string unchanged |
| Text.ReplaceAtEnd | src/modules/aligner.py:54 | when only the final suffix can start a match, replacing that suffix changes just the ending |
| Text.StripIsTrimmedSlice | src/modules/translator.py:100 | `strip()` returns a contiguous slice of its input; everything cut off either side is white space; the slice neither starts nor ends with white space |
| Text.SliceIndex | src/modules/translator.py:103-105 | a Python slice bound is clipped into the string: a bound beyond the length becomes the length, a bound below minus the length becomes 0, and other negative bounds count from the end |
| Text.NatToString | src/orchestrator.py:116 | the decimal rendering of an index is a non-empty string of digits |
| Text.NatToStringValue | src/orchestrator.py:116 | reading the rendered digits back in base ten gives the index again |
| Text.NatToStringInjective | src/orchestrator.py:116 | distinct indices get distinct renderings, so the clip names `seg_i_orig.wav` never collide |
| Text.PathJoin | src/modules/video_assembler.py:14 | `os.path.join` ends with its second part; an absolute second part replaces the first; otherwise exactly one separator is inserted |
| Ranking.ArgMaxFirst | src/modules/diarizer.py:107 | `max` with a key returns an element of maximal key that beats every element before it, i.e. the first maximum |
| Ranking.ArgMaxFirstUnique | src/modules/diarizer.py:107 | those two properties determine the chosen index, so any index with them is the one `max` returns |
| Ranking.StableSort | src/orchestrator.py:268 | `sorted` with a key returns a permutation of its input, ascending by key |
| Ranking.StableSortKeepsTies | src/orchestrator.py:142 | sorting keeps elements with equal keys in their input order (stability) |
| Ranking.StableSortOfAscending | src/modules/video_assembler.py:91 | sorting a list already ascending by key returns it unchanged |
| Seqs.Filter | src/orchestrator.py:137 | a comprehension with a condition keeps only qualifying elements, taken from the input and no more often than they occur there |
| Seqs.FilterMembers | src/orchestrator.py:137 | a value is kept exactly when it occurs in the input and qualifies |
| Seqs.FilterEmpty | src/orchestrator.py:138-139 | the comprehension is empty exactly when no element qualifies |
| Diarizer.Overlap | src/modules/diarizer.py:90-92 | the overlap of a segment with a turn is never negative, and is positive exactly when the two intervals intersect |
| Diarizer.AddKeys | src/modules/diarizer.py:102-104 | adding to a speaker's total keeps the dictionary's key order and appends a new speaker at the end |
| Diarizer.AddLookup | src/modules/diarizer.py:104 | `totals.get(spk, 0) + duration`: only that speaker's total changes, by the added duration |
| Diarizer.TotalsKeys | src/modules/diarizer.py:87-104 | the totals name each speaker with an overlapping turn exactly once and no other speaker |
| Diarizer.TotalsSums | src/modules/diarizer.py:87-104 | each speaker's total equals the sum of the overlaps of that speaker's turns with the segment |
| Diarizer.TotalsOrder | src/modules/diarizer.py:88-104 | the totals list speakers in the order of their first overlapping turn |
| Diarizer.AssignSpeakers | src/modules/diarizer.py:68-112 | one copy of every segment, in order, with only the speaker changed: `SPEAKER_00` for all when diarization is empty, otherwise the best-overlapping speaker |
| Diarizer.FallbackLabels | src/modules/diarizer.py:73-98 | with no turns every segment is `SPEAKER_00`; with turns, a segment that no turn overlaps is `UNKNOWN`, not the mono-speaker label |
| Diarizer.AttributionIsBest | src/modules/diarizer.py:94-108 | an attributed speaker overlaps the segment, its summed overlap is maximal among all speakers, and a tie goes to the speaker whose first overlapping turn comes earliest |
| Diarizer.SingleTurnScenario | src/modules/diarizer.py:81-108 | segments 0-2 s and 2-5 s with a single turn 0-5 s by `A` are both attributed to `A` |
| EmotionAnalyzer.AnalyzeEmotion | src/modules/emotion_analyzer.py:13-27 | a classifier failure or empty prediction list gives `neutral` at confidence 0; otherwise the label and score of the first top-scoring prediction |
| EmotionAnalyzer.EnergyLevel | src/modules/emotion_analyzer.py:39-41 | `low` exactly below 0.01, `high` exactly above 0.05, else `medium` |
| EmotionAnalyzer.PitchLevel | src/modules/emotion_analyzer.py:49-52 | `low` exactly below 150 Hz, `high` exactly above 250 Hz, else `mid` |
| EmotionAnalyzer.LevelsMonotone | src/modules/emotion_analyzer.py:39-52 | louder or higher input never yields a lower energy or pitch level |
| EmotionAnalyzer.Voiced | src/modules/emotion_analyzer.py:46 | dropping unvoiced (NaN) frames never adds frames, and leaves none when no frame is voiced |
| EmotionAnalyzer.VoicedMembers | src/modules/emotion_analyzer.py:46 | a pitch is kept exactly when some frame is voiced at that pitch |
| EmotionAnalyzer.VoicedAppend | src/modules/emotion_analyzer.py:46 | one more frame adds its pitch at the end when voiced and nothing otherwise, so the voiced pitches keep frame order |
| EmotionAnalyzer.Mean | src/modules/emotion_analyzer.py:47 | `np.mean`: 0 for no values, otherwise the value that times the count gives the sum |
| EmotionAnalyzer.AveragePitch | src/modules/emotion_analyzer.py:46-47 | the average pitch is 0 when no frame is voiced, and otherwise the mean of the voiced pitches |
| EmotionAnalyzer.SteadyPitch | src/modules/emotion_analyzer.py:46-47 | when every voiced frame has the same pitch, that pitch is the average |
| EmotionAnalyzer.AveragePitchWithin | src/modules/emotion_analyzer.py:46-47 | when every voiced frame lies within a band, so does the average pitch |
| EmotionAnalyzer.AnalyzeProsody | src/modules/emotion_analyzer.py:29-59 | the prosody levels are the threshold levels of the clip's energy and average pitch; a clip with no voiced frame has `low` pitch |
| EmotionAnalyzer.AnalyzeSegment | src/modules/emotion_analyzer.py:61-69 | an unloadable clip raises; otherwise the emotion and prosody fields are merged into one record |
| References.Prepare | src/orchestrator.py:116-122 | a prepared segment has its clip path, duration and emotion statistics set |
| References.PrepareUpTo | src/orchestrator.py:111-129 | the preparation loop succeeds exactly when every analysed clip loads; on success it keeps every segment, in order; on failure it raises a clip's error |
| References.PreparedSegment | src/orchestrator.py:111-122 | prepared segment `i` keeps segment `i`'s times, text and speaker, and its clip is `seg_i_orig.wav` in the temp folder |
| References.SpeakerSegmentsMembers | src/orchestrator.py:124-127 | a speaker's list holds exactly the segments whose speaker key is that speaker |
| References.GroupIsBySpeaker | src/orchestrator.py:109-127 | the grouping has one entry per speaker key that occurs, holding that speaker's segments in order |
| References.ExactlyOneGroup | src/orchestrator.py:124-127 | every segment lands in the group of its own speaker and in no other |
| References.Candidates | src/orchestrator.py:137-139 | candidate clips are the segments over 1 s when there are any, otherwise all of the speaker's segments |
| References.CandidatesKeepOrder | src/orchestrator.py:137-139 | when some segment is over 1 s the candidates are exactly the comprehension over the speaker's list, in transcript order |
| References.TopClips | src/orchestrator.py:142 | the reference clips are the first five of the candidates sorted longest first |
| References.TopClipsBounds | src/orchestrator.py:137-142 | a speaker's reference uses between one and five of that speaker's own segments |
| References.TopClipsAreLongest | src/orchestrator.py:142 | no candidate left out is longer than a chosen clip, and the chosen clips run longest first |
| References.TopClipsStable | src/orchestrator.py:142 | candidates of equal duration keep their transcript order |
| References.ReferenceFor | src/orchestrator.py:146-167 | the chosen clips are the speaker's own; when they all load the reference is the cleaned merged file, otherwise the cleaned clip of the speaker's first longest segment |
| References.SpeakerRefs | src/orchestrator.py:134-167 | the reference map has exactly one entry per speaker that occurs, built from that speaker's segments |
| References.EverySpeakerHasReference | src/orchestrator.py:188-189 | every segment's speaker has a reference in the map |
| Translator.Init | src/modules/translator.py:10-49 | a truthy override selects the service, else the configured one; a client exists exactly for Mistral or OpenRouter with a key set, with that service's URL and key; the model is set for those two services only |
| Translator.StripFences | src/modules/translator.py:100-105 | the reply is stripped, then a leading JSON or plain code fence and the last three characters are cut off |
| Translator.StripJsonFence | src/modules/translator.py:102-103 | a reply fenced as a JSON block yields exactly its body |
| Translator.StripPlainFence | src/modules/translator.py:104-105 | a plain fence yields its body, unless the body starts with `json` |
| Translator.StripUnfenced | src/modules/translator.py:100-105 | a reply without a fence is only stripped of surrounding white space |
| Translator.MapTranslations | src/modules/translator.py:112-121 | one copy per segment in order, taking entry `i` as segment `i`'s translation, or the original text past the list's end; nothing else changes |
| Translator.MapExactList | src/modules/translator.py:109-121 | a list of the right length becomes the translations entry for entry |
| Translator.MapIgnoresExtra | src/modules/translator.py:115-116 | entries beyond the segment count are ignored |
| Translator.Fallback | src/modules/translator.py:51-64 | each segment gets Google's translation, or its own text where Google raises; nothing else changes |
| Translator.TranslateSegments | src/modules/translator.py:66-131 | with no client, an exception from the call or a reply that does not parse, the result is the fallback; otherwise the parsed list is mapped onto the segments |
| Translator.TranslationOnlyAddsText | src/modules/translator.py:51-131 | every path returns one copy per segment, in order, differing only in having a translation |
| VoiceCloner.LoadChatterbox | src/modules/voice_cloner.py:41-57 | only an unloaded handle is loaded; it becomes ready exactly when loading succeeds, and is otherwise marked failed for good |
| VoiceCloner.RunCoqui | src/modules/voice_cloner.py:77-100 | Coqui is loaded once and kept; speech is produced exactly when it is loaded and synthesis succeeds; a missing library is reported only on a first load |
| VoiceCloner.GenerateSpeech | src/modules/voice_cloner.py:22-100 | a missing reference raises before any engine is touched; English loads Chatterbox first and is spoken by it exactly when it is ready and generates; every other call falls through to the Coqui section, whose handle and result it returns; other languages never touch Chatterbox; output goes to the given path |
| VoiceCloner.HandlesOnlyAdvance | src/modules/voice_cloner.py:41-83 | a call moves Chatterbox only from unloaded to ready or failed, and Coqui only from unloaded to loaded |
| VoiceCloner.ChatterboxLoadedAtMostOnce | src/modules/voice_cloner.py:41-57 | over any sequence of calls Chatterbox is loaded at most once, and never once its handle is set |
| VoiceCloner.FailedIsPermanent | src/modules/voice_cloner.py:56-73 | once Chatterbox failed to load it stays failed, and every later success comes from Coqui |
| VoiceCloner.FallbackScenario | src/modules/voice_cloner.py:39-93 | when Chatterbox cannot load, the first English call loads Coqui and speaks with it, and the second speaks with Coqui without retrying Chatterbox |
| Aligner.ClampRate | src/modules/aligner.py:28-29 | the clamped rate lies in [0.5, 2.0], equals the rate when inside, and the nearest bound when outside; nothing is rejected |
| Aligner.ClampRateOrdered | src/modules/aligner.py:28-29 | clamping is monotone and idempotent |
| Aligner.StretchedLength | src/modules/aligner.py:21-29 | the stretched clip lasts exactly the target when the rate needed no clamping, longer than the target beyond 2x compression, shorter beyond 2x stretching |
| Aligner.StretchAudio | src/modules/aligner.py:9-45 | a zero-length clip is returned as is; a zero target raises; ffmpeg runs at an in-range rate; an ffmpeg error falls back to the input path; the result is always the output or the input path |
| Aligner.AlignedNameOfWav | src/modules/aligner.py:54 | `stem.wav` with no dot in the stem is reported as `stem_aligned.wav` |
| Aligner.AlignSegments | src/modules/aligner.py:47-57 | succeeds exactly when every stretch returns, with the aligned name of every item in order; otherwise raises the exception of the first item whose stretch raises |
| Dubbing.ProcessSegment | src/orchestrator.py:184-251 | a processed segment keeps its segment's start and end |
| Dubbing.SegmentRequest | src/orchestrator.py:185-217 | synthesis gets the translated text, the speaker's reference or else the segment's own clip, the target language, `seg_i_dub_raw.wav` and the tone preference or the segment's emotion |
| Dubbing.SegmentFallback | src/orchestrator.py:209-251 | a segment falls back exactly when synthesis raises or the RVC handler cannot be built; it then keeps its original clip if that file exists, and nothing otherwise |
| Dubbing.SegmentAligned | src/orchestrator.py:219-236 | otherwise the dub (the RVC output when RVC produced one) is stretched to the segment's length, and a clip is kept exactly when stretching returns |
| Dubbing.RunUpTo | src/orchestrator.py:184-251 | the loop yields one outcome per segment, carrying that segment's start and end |
| Dubbing.RunPrefix | src/orchestrator.py:184-251 | a segment's outcome does not depend on the segments after it |
| Dubbing.RunStep | src/orchestrator.py:184-236 | segment `i` is processed with the engine state the earlier segments left behind |
| Dubbing.CollectClips | src/orchestrator.py:245-268 | the collected clips are the fallback clips and the aligned clips, reordered ascending by start |
| Dubbing.CollectedSpans | src/orchestrator.py:236-262 | the collected clips carry exactly the spans of the segments that produced a clip |
| Dubbing.ClipsAreSortedSpans | src/orchestrator.py:236-268 | the clips are sorted by start, one per segment that produced one, each carrying the span of a distinct input segment |
| VideoAssembler.Trunc | src/modules/video_assembler.py:93 | `int()` of a non-negative real is its floor |
| VideoAssembler.FirstUnreadable | src/modules/video_assembler.py:95-100 | the first clip of the list that does not load, if any |
| VideoAssembler.MergeAudioSegments | src/modules/video_assembler.py:75-106 | an empty list raises; a clip that does not load raises its own error, and it is the first unloadable clip in start order; otherwise the clips are sorted by start and placed at their start offsets on a canvas of the last-starting clip's end plus one second |
| VideoAssembler.MergeNamesFirstUnreadable | src/modules/video_assembler.py:91-100 | a load failure names a clip that does not load, and every clip placed before it in start order loads |
| VideoAssembler.CanvasCoversMonotoneEnds | src/modules/video_assembler.py:93 | when ends grow with starts, every clip ends within the canvas |
| VideoAssembler.CanvasMissesLongEarlyClip | src/modules/video_assembler.py:91-93 | a clip 0-10 s followed by a clip 1-2 s gives a 3 s canvas, shorter than the first clip |
| VideoAssembler.AssembleVideo | src/modules/video_assembler.py:9-73 | output is the output folder joined with the file name; video is copied and audio encoded as AAC; BGM is ducked in exactly when its path is truthy and exists; an ffmpeg error is re-raised |
| VideoAssembler.AssembledLengthIsDubLength | src/modules/video_assembler.py:52 | the mixed track lasts as long as the dub, whatever the BGM's length (a direct consequence of `duration=first` with the dub first) |
| Orchestrator.Messages | src/orchestrator.py:52-287 | a complete run reports twelve progress messages, thirteen with lip sync |
| Orchestrator.Separate | src/orchestrator.py:79-87 | a separation failure leaves the original audio and no BGM; otherwise the BGM is the separator's, and processing uses the vocals exactly when that path is non-empty, else the original |
| Orchestrator.Transcript | src/modules/transcriber.py:20-29 | one segment per recognised utterance, in order, with its times, its stripped text and the speaker `Speaker 0`, and no later-stage field set |
| Orchestrator.PreparedHaveClips | src/orchestrator.py:116-118 | every prepared segment has a clip path |
| Orchestrator.FinalVideo | src/orchestrator.py:286-298 | without lip sync, or when Wav2Lip raises, the assembled video is returned; otherwise its `_lipsynced` sibling |
| Orchestrator.Finish | src/orchestrator.py:270-298 | a merge or assembly failure raises after eleven messages; otherwise the run ends with every message logged and returns the final video |
| Orchestrator.RunPipeline | src/orchestrator.py:46-298 | a run never reports more messages than a complete run |
| Orchestrator.ValidationComesFirst | src/orchestrator.py:52-75 | a missing or unreadable video raises after one message with its own text; an extraction failure raises after three with the ffmpeg hint; the language check never stops the run |
| Orchestrator.NoSpeechStopsEarly | src/orchestrator.py:89-94 | no transcribed speech is exactly the case where the run returns nothing, after the transcription message |
| Orchestrator.CompleteLog | src/orchestrator.py:47-50 | a run that logged all its messages reported the whole message list in order |
| Orchestrator.FinishedRun | src/orchestrator.py:284-298 | a finished run reported every message and returns the assembled video, or its lip-synced sibling when Wav2Lip succeeded |
| Orchestrator.LogMatchesOutcome | src/orchestrator.py:52-298 | how a run ends fixes how many messages it reported: 1 or 3 for validation and extraction, 5 for no speech, 7 for analysis, 9 for building the translator, 11 for assembly, all for success |
| Orchestrator.SeparationFallback | src/orchestrator.py:77-87 | after a separation failure processing uses the original audio, and BGM reaches assembly exactly when separation succeeded and BGM is kept |
| Orchestrator.ClipsComeFromTranscript | src/orchestrator.py:184-268 | the clips handed to assembly are sorted by start, no more than the transcribed segments, each carrying the times of a distinct transcript segment |
| Orchestrator.LipSyncedName | src/orchestrator.py:288 | for an output folder without dots the lip-synced video is `<folder>/dubbed_video_lipsynced.mp4` |
| App.RunDubbing | app.py:11-68 | without an upload the prompt is shown and nothing runs; a failing `Orchestrator()` is reported as an error; otherwise a failed run reports its exception after exactly its pipeline updates, any other run reports success after those updates and `Complete!`, and a video is shown exactly when the run finished, and it is the run's video |
| App.Updates | app.py:34-37 | the progress bar is called once per pipeline message |
| App.NoUploadGuard | app.py:12-13 | without an upload nothing runs: no progress, no video, the upload prompt |
| App.FractionMonotone | app.py:36 | the progress fraction never decreases as the counter grows |
| App.FractionCapped | app.py:36 | the fraction is the counter over ten up to nine steps and 0.95 from then on |
| App.CounterStepsByOne | app.py:34-37 | the `i`-th update shows `[i+1/10]`, the `i`-th message and the fraction for `i + 1` |
| App.UpdatesMonotone | app.py:34-37 | the updates' fractions never decrease and stay at most 0.95 |
| App.ProgressMonotone | app.py:31-51 | across a run the bar only moves forward and passes 0.95 only with the final `Complete!` |
| App.ErrorsAreReported | app.py:58-68 | a failed run shows no video and a message that carries the exception's text right after the error marker |
| App.ErrorMessageCarriesCause | app.py:58-68 | the error text starts with the error marker and carries the exception's text right after it |
| App.SuccessIsReported | app.py:51-56 | a finished run shows its video and the success text after a final `1.0`; a run without speech reports success with no video after six updates |

## Left out

- The engines are inputs, fixed per call, rather than models: Whisper, pyannote, demucs, the emotion classifier, librosa, Chatterbox, Coqui, RVC, ffmpeg, pydub and Wav2Lip.
- Audio samples and their mixing are not modelled. Overlaying, exporting and concatenating clips only track paths, offsets and lengths.
- `AudioCleaner.clean_audio` is a function from path to path, and its filtering is not part of this model.
- The alignment thread pool is modelled sequentially. Futures are collected in submission order, so completion order cannot affect the result.
- `cleanup_temp_files`, the command-line entry point, the Gradio layout and `Config.setup_dirs` are not modelled, because they only manage files or the user interface.
- The `Orchestrator()` constructor is the `startup` parameter of `App.RunDubbing`: the exception it raises, if any.
- Building `Translator(...)` in step 4 is the `translatorInit` input of the run: the exception `GoogleTranslator`'s constructor raises, if any. Which inputs make it raise is not modelled.
- The separator is an input: it returns a vocals path and a BGM path, or fails. Where it writes the BGM copy is not modelled.
- The transcriber is modelled only as the segment list it returns. A recogniser that raises is not modelled.
- `json.loads` is a parsing function given as an input. The prompt text and the transcript payload sent to the LLM are not modelled.
- The exception classes caught by `translate_segments` are one case. Both handlers fall back the same way.
- The `rvc_index_path` argument is not modelled, because the front end never sets it.
- The RVC refinement is an input that returns a path or raises.
- Exports of segment clips and merged references are assumed to succeed. Only loading a clip can fail.
- Console printing is not modelled, including the unsupported-language warning. The warning is printed only and never changes a run.
- Floating-point arithmetic is modelled with exact reals. Millisecond conversions are modelled with an explicit floor.
- The error text of a failed merge of an empty clip list is modelled as Python's `list index out of range`. A clip that fails to load raises the loader's own message.
- Orchestrator.RunPipeline: its contract only bounds the message count. The full behaviour of a run is stated by the lemmas about it.
- Dubbing.ProcessSegment: its contract states only that start and end are kept. The request, fallback and alignment behaviour is stated by the three lemmas after it.
