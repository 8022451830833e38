/**
 Timeline reconstruction and muxing (`VideoAssembler`). The pydub canvas is
 modelled by its length and the list of overlay placements; the ffmpeg
 command by the filter graph and output options it is built from. Sample
 mixing itself is not modelled.
 */
module VideoAssembler {
  import opened Basics
  import opened Records
  import Ranking
  import Text

  /** Python's `int(x)` on a float: truncation toward zero. */
  function Trunc(x: real): (r: int)
    ensures x >= 0.0 ==> r == x.Floor
    ensures r as real <= x + 1.0 && x - 1.0 < r as real
  {
    if x >= 0.0 then x.Floor else -((-x).Floor)
  }

  datatype Placement = Placement(file: string, positionMs: real)

  /** The exported track: a silent canvas of `canvasMs` milliseconds with the
      clips overlaid in this order. */
  datatype Timeline = Timeline(canvasMs: int, placements: seq<Placement>, output: string)

  datatype MergeError = EmptyClipList | ClipUnreadable(file: string)

  /** The caller's list after the in-place sort, and the track built from it. */
  datatype Merged = Merged(sorted: seq<Clip>, timeline: Timeline)

  /** `int(last['end'] * 1000) + 1000` for the last clip of the sorted list. */
  function CanvasMs(sorted: seq<Clip>): int
    requires |sorted| > 0
  {
    Trunc(sorted[|sorted| - 1].end * 1000.0) + 1000
  }

  function Place(c: Clip): Placement {
    Placement(c.file, c.start * 1000.0)
  }

  /** The first clip, in sorted order, that cannot be loaded. */
  function FirstUnreadable(sorted: seq<Clip>, loads: string -> bool): (r: Option<nat>)
    ensures r.Some? ==> r.value < |sorted| && !loads(sorted[r.value].file)
                        && forall k :: 0 <= k < r.value ==> loads(sorted[k].file)
    ensures r.None? ==> forall k :: 0 <= k < |sorted| ==> loads(sorted[k].file)
  {
    if |sorted| == 0 then None
    else if !loads(sorted[0].file) then Some(0)
    else
      match FirstUnreadable(sorted[1..], loads)
      case None => None
      case Some(k) => Some(k + 1)
  }

  /** `merge_audio_segments(segment_files, silence_gaps, output_path)`:
      sorts the list by `start` (stably, in place), sizes the canvas from the
      last clip of that order, and overlays every clip at `start * 1000` ms.
      An empty list fails on `segment_files[-1]`; `loads` says which clip
      files `AudioSegment.from_wav` can read. */
  function MergeAudioSegments(clips: seq<Clip>, outputPath: string, loads: string -> bool): (r: Result<Merged, MergeError>)
    ensures clips == [] <==> r == Err(EmptyClipList)
    ensures r.Ok? ==> forall k :: 0 <= k < |clips| ==> loads(clips[k].file)
    ensures r.Err? && r.error.ClipUnreadable? ==> !loads(r.error.file) && exists k :: 0 <= k < |clips| && clips[k].file == r.error.file
    ensures r.Err? && r.error.ClipUnreadable? ==>
              var sorted := Ranking.StableSort(clips, ClipStart);
              FirstUnreadable(sorted, loads).Some? && r.error.file == sorted[FirstUnreadable(sorted, loads).value].file
    ensures r.Ok? ==>
      var m := r.value;
      && m.sorted == Ranking.StableSort(clips, ClipStart)
      && Ranking.Ascending(m.sorted, ClipStart)
      && multiset(m.sorted) == multiset(clips)
      && m.timeline.output == outputPath
      && m.timeline.canvasMs == CanvasMs(m.sorted)
      && |m.timeline.placements| == |clips|
      && forall k :: 0 <= k < |clips| ==> m.timeline.placements[k] == Place(m.sorted[k])
  {
    if clips == [] then Err(EmptyClipList)
    else
      var sorted := Ranking.StableSort(clips, ClipStart);
      match FirstUnreadable(sorted, loads)
      case Some(k) =>
        assert sorted[k] in multiset(clips);
        Err(ClipUnreadable(sorted[k].file))
      case None =>
        assert forall k :: 0 <= k < |clips| ==> loads(clips[k].file) by {
          forall k | 0 <= k < |clips| ensures loads(clips[k].file) {
            assert clips[k] in multiset(sorted);
          }
        }
        var placements := seq(|sorted|, k requires 0 <= k < |sorted| => Place(sorted[k]));
        Ok(Merged(sorted, Timeline(CanvasMs(sorted), placements, outputPath)))
  }

  /** An unreadable clip is reported in start order: the clip named is one
      that does not load, and every clip placed before it loads. */
  lemma MergeNamesFirstUnreadable(clips: seq<Clip>, outputPath: string, loads: string -> bool)
    requires MergeAudioSegments(clips, outputPath, loads).Err?
    requires MergeAudioSegments(clips, outputPath, loads).error.ClipUnreadable?
    ensures !loads(MergeAudioSegments(clips, outputPath, loads).error.file)
    ensures exists k :: 0 <= k < |Ranking.StableSort(clips, ClipStart)|
                        && Ranking.StableSort(clips, ClipStart)[k].file == MergeAudioSegments(clips, outputPath, loads).error.file
                        && AllLoad(Ranking.StableSort(clips, ClipStart)[..k], loads)
  {
    var sorted := Ranking.StableSort(clips, ClipStart);
    var k := FirstUnreadable(sorted, loads).value;
    assert AllLoad(sorted[..k], loads);
  }

  /** Every clip of the list loads. */
  predicate AllLoad(clips: seq<Clip>, loads: string -> bool) {
    forall j :: 0 <= j < |clips| ==> loads(clips[j].file)
  }

  /** Clips whose ends grow with their starts (non-overlapping clips, say)
      all end on the canvas, with a second to spare. */
  lemma CanvasCoversMonotoneEnds(clips: seq<Clip>, outputPath: string, loads: string -> bool)
    requires MergeAudioSegments(clips, outputPath, loads).Ok?
    requires var s := MergeAudioSegments(clips, outputPath, loads).value.sorted;
             forall i, j :: 0 <= i < j < |s| ==> s[i].end <= s[j].end
    ensures var m := MergeAudioSegments(clips, outputPath, loads).value;
            forall k :: 0 <= k < |clips| ==> clips[k].end * 1000.0 + 999.0 < m.timeline.canvasMs as real
  {
    var m := MergeAudioSegments(clips, outputPath, loads).value;
    var s := m.sorted;
    forall k | 0 <= k < |clips| ensures clips[k].end * 1000.0 + 999.0 < m.timeline.canvasMs as real {
      assert clips[k] in multiset(s);
      var j :| 0 <= j < |s| && s[j] == clips[k];
      assert s[j].end <= s[|s| - 1].end;
    }
  }

  /** The canvas follows the last clip by start, not the latest end: a long
      clip that starts first is cut at the canvas end. */
  lemma CanvasMissesLongEarlyClip()
    ensures var clips := [Clip("a.wav", 0.0, 10.0), Clip("b.wav", 1.0, 2.0)];
            var r := MergeAudioSegments(clips, "full.wav", _ => true);
            r.Ok? && r.value.timeline.canvasMs == 3000 && r.value.timeline.canvasMs as real < clips[0].end * 1000.0
  {
    var clips := [Clip("a.wav", 0.0, 10.0), Clip("b.wav", 1.0, 2.0)];
    assert Ranking.Ascending(clips, ClipStart);
    Ranking.StableSortOfAscending(clips, ClipStart);
    assert (2.0 * 1000.0).Floor == 2000;
  }

  // ----- muxing -----

  /** `sidechaincompress` parameters: threshold, ratio, attack and release (ms). */
  datatype Sidechain = Sidechain(threshold: real, ratio: int, attack: int, release: int)

  /** The audio stream fed to the muxer. */
  datatype AudioGraph =
    | DubOnly(dub: string)
      /** `amix` of the dub and the BGM ducked under it. */
    | Ducked(dub: string, bgm: string, compressor: Sidechain, mixInputs: nat, mixDuration: string)

  /** One ffmpeg output: the original video stream, an audio graph, codecs. */
  datatype Mux = Mux(video: string, audio: AudioGraph, output: string, vcodec: string, acodec: string)

  const Ducking := Sidechain(0.05, 8, 50, 800)

  const DefaultOutputName := "dubbed_video.mp4"

  /** `assemble_video`: BGM is mixed only when its path is truthy and the file
      exists; the video stream is copied and the audio encoded as AAC; an
      ffmpeg failure (`failure`) propagates. */
  function AssembleVideo(videoPath: string, dubPath: string, bgm: Option<string>, present: string -> bool,
                         outputDir: string, outputName: string, failure: Option<string>): (r: Result<Mux, string>)
    ensures failure.Some? <==> r.Err?
    ensures r.Ok? ==>
      && r.value.output == Text.PathJoin(outputDir, outputName)
      && r.value.video == videoPath
      && r.value.vcodec == "copy" && r.value.acodec == "aac"
      && (r.value.audio.Ducked? <==> Truthy(bgm) && present(bgm.value))
      && (r.value.audio.DubOnly? ==> r.value.audio.dub == dubPath)
      && (r.value.audio.Ducked? ==> r.value.audio == Ducked(dubPath, bgm.value, Ducking, 2, "first"))
  {
    var output := Text.PathJoin(outputDir, outputName);
    var audio := if Truthy(bgm) && present(bgm.value) then Ducked(dubPath, bgm.value, Ducking, 2, "first")
                 else DubOnly(dubPath);
    match failure
    case Some(e) => Err(e)
    case None => Ok(Mux(videoPath, audio, output, "copy", "aac"))
  }

  function MinReal(a: real, b: real): real { if a <= b then a else b }
  function MaxReal(a: real, b: real): real { if a >= b then a else b }

  /** Length of an `amix` of two inputs under its `duration` option
      (`longest` is ffmpeg's default). */
  function AmixLength(mode: string, first: real, second: real): real {
    if mode == "first" then first
    else if mode == "shortest" then MinReal(first, second)
    else MaxReal(first, second)
  }

  /** Length of the muxed audio stream; `sidechaincompress` keeps the length
      of its main (BGM) input. */
  function AudioLength(g: AudioGraph, dubLength: real, bgmLength: real): real {
    match g
    case DubOnly(_) => dubLength
    case Ducked(_, _, _, _, mode) => AmixLength(mode, dubLength, bgmLength)
  }

  /** The assembled audio always lasts as long as the dub track, however long
      the BGM is. This follows from the graph `AssembleVideo` builds alone:
      the dub is `amix`'s first input and the mix runs with `duration=first`,
      so the lemma records a consequence of that choice, not a deeper fact. */
  lemma AssembledLengthIsDubLength(videoPath: string, dubPath: string, bgm: Option<string>, present: string -> bool,
                                   outputDir: string, outputName: string, dubLength: real, bgmLength: real)
    requires AssembleVideo(videoPath, dubPath, bgm, present, outputDir, outputName, None).Ok?
    ensures AudioLength(AssembleVideo(videoPath, dubPath, bgm, present, outputDir, outputName, None).value.audio,
                        dubLength, bgmLength) == dubLength
  {
  }
}
