/**
 Steps 3 and 3.5 of `run_pipeline`: every segment gets its own clip path,
 its duration and its emotion/prosody stats; segments are grouped by
 speaker; each speaker gets one voice reference, merged from its longest
 clips or, when merging fails, its single longest clip. Cutting and
 exporting audio, the merge itself and the cleaner are inputs: `loads`
 says which clip files can be read, `clean` is what `clean_audio` returns
 for a path (it never raises).
 */
module References {
  import opened Basics
  import opened Records
  import EmotionAnalyzer
  import Ranking
  import Seqs
  import Text

  /** `os.path.join(temp_dir, f"seg_{i}_orig.wav")`. */
  function OrigClipPath(temp: string, i: nat): string {
    Text.PathJoin(temp, "seg_" + Text.NatToString(i) + "_orig.wav")
  }

  /** `os.path.join(temp_dir, f"ref_{spk}_merged.wav")`. */
  function MergedRefPath(temp: string, speaker: string): string {
    Text.PathJoin(temp, "ref_" + speaker + "_merged.wav")
  }

  /** `seg['end'] - seg['start']`, stored as the segment's `duration`. */
  function Duration(s: Segment): real { s.end - s.start }

  /** What step 3 stores in a segment. */
  predicate Prepared(s: Segment) {
    s.audioPath.Some? && s.duration == Some(Duration(s)) && s.stats.Some?
  }

  function Prepare(seg: Segment, path: string, stats: EmotionAnalyzer.SegmentStats): (r: Segment)
    ensures Prepared(r)
  {
    seg.(audioPath := Some(path), duration := Some(Duration(seg)), stats := Some(stats))
  }

  /** `analyze_segment` on the clip of segment `i`, from the classifier's
      predictions and the clip's signal features. */
  function Analysis(predictions: nat -> Option<seq<EmotionAnalyzer.Prediction>>,
                    signals: nat -> Result<EmotionAnalyzer.Signal, string>, i: nat): Result<EmotionAnalyzer.SegmentStats, string> {
    EmotionAnalyzer.AnalyzeSegment(predictions(i), signals(i))
  }

  /** The step-3 loop over the first `n` segments; the first analysis
      failure escapes and stops the pipeline. */
  function PrepareUpTo(segs: seq<Segment>, n: nat, temp: string,
                       predictions: nat -> Option<seq<EmotionAnalyzer.Prediction>>,
                       signals: nat -> Result<EmotionAnalyzer.Signal, string>): (r: Result<seq<Segment>, string>)
    requires n <= |segs|
    ensures r.Ok? <==> forall i :: 0 <= i < n ==> Analysis(predictions, signals, i).Ok?
    ensures r.Ok? ==> |r.value| == n
    ensures r.Ok? ==> forall i :: 0 <= i < n ==>
              Analysis(predictions, signals, i).Ok? &&
              r.value[i] == Prepare(segs[i], OrigClipPath(temp, i), Analysis(predictions, signals, i).value)
    ensures r.Err? ==> exists i :: (0 <= i < n && Analysis(predictions, signals, i) == Err(r.error)
                                    && forall j :: 0 <= j < i ==> Analysis(predictions, signals, j).Ok?)
  {
    if n == 0 then Ok([])
    else
      match PrepareUpTo(segs, n - 1, temp, predictions, signals)
      case Err(e) => Err(e)
      case Ok(done) =>
        match Analysis(predictions, signals, n - 1)
        case Err(e) => Err(e)
        case Ok(stats) => Ok(done + [Prepare(segs[n - 1], OrigClipPath(temp, n - 1), stats)])
  }

  function PrepareSegments(segs: seq<Segment>, temp: string,
                           predictions: nat -> Option<seq<EmotionAnalyzer.Prediction>>,
                           signals: nat -> Result<EmotionAnalyzer.Signal, string>): Result<seq<Segment>, string> {
    PrepareUpTo(segs, |segs|, temp, predictions, signals)
  }

  /** Step 3 keeps each segment's fields, adding the clip path
      `seg_i_orig.wav`, the duration `end - start` and the stats. */
  lemma PreparedSegment(segs: seq<Segment>, temp: string,
                        predictions: nat -> Option<seq<EmotionAnalyzer.Prediction>>,
                        signals: nat -> Result<EmotionAnalyzer.Signal, string>, i: nat)
    requires PrepareSegments(segs, temp, predictions, signals).Ok?
    requires i < |segs|
    ensures var r := PrepareSegments(segs, temp, predictions, signals).value;
            && |r| == |segs|
            && Prepared(r[i])
            && r[i].audioPath == Some(OrigClipPath(temp, i))
            && r[i].duration == Some(segs[i].end - segs[i].start)
            && r[i] == segs[i].(audioPath := r[i].audioPath, duration := r[i].duration, stats := r[i].stats)
  {
  }

  // ----- grouping by speaker -----

  /** The segments of speaker `k`, in list order (the reference definition
      of a group). */
  function SpeakerSegments(segs: seq<Segment>, k: string): seq<Segment> {
    if |segs| == 0 then []
    else SpeakerSegments(segs[..|segs| - 1], k) + (if SpeakerKey(segs[|segs| - 1]) == k then [segs[|segs| - 1]] else [])
  }

  lemma {:induction false} SpeakerSegmentsMembers(segs: seq<Segment>, k: string, x: Segment)
    ensures x in SpeakerSegments(segs, k) <==> x in segs && SpeakerKey(x) == k
    decreases |segs|
  {
    if |segs| > 0 {
      var init := segs[..|segs| - 1];
      SpeakerSegmentsMembers(init, k, x);
      assert segs == init + [segs[|segs| - 1]];
    }
  }

  /** `speaker_segments_map`, built by appending each segment to the list of
      its speaker key. */
  function Group(segs: seq<Segment>): map<string, seq<Segment>> {
    if |segs| == 0 then map[]
    else
      var g := Group(segs[..|segs| - 1]);
      var last := segs[|segs| - 1];
      var k := SpeakerKey(last);
      g[k := (if k in g then g[k] else []) + [last]]
  }

  /** The map has one key per speaker key that occurs, and each key holds
      exactly that speaker's segments, in order. */
  lemma {:induction false} GroupIsBySpeaker(segs: seq<Segment>)
    ensures forall k :: k in Group(segs) <==> exists i :: 0 <= i < |segs| && SpeakerKey(segs[i]) == k
    ensures forall k :: k in Group(segs) ==> Group(segs)[k] == SpeakerSegments(segs, k)
    decreases |segs|
  {
    if |segs| > 0 {
      var init := segs[..|segs| - 1];
      GroupIsBySpeaker(init);
      forall k | k !in Group(init)
        ensures SpeakerSegments(init, k) == []
      {
        if SpeakerSegments(init, k) != [] {
          SpeakerSegmentsMembers(init, k, SpeakerSegments(init, k)[0]);
        }
      }
      assert forall i :: 0 <= i < |init| ==> init[i] == segs[i];
    }
  }

  /** Every segment lies in exactly one group: its own speaker's. */
  lemma ExactlyOneGroup(segs: seq<Segment>, i: nat)
    requires i < |segs|
    ensures SpeakerKey(segs[i]) in Group(segs)
    ensures forall k :: k in Group(segs) ==> (segs[i] in Group(segs)[k] <==> k == SpeakerKey(segs[i]))
  {
    GroupIsBySpeaker(segs);
    forall k | k in Group(segs) ensures segs[i] in Group(segs)[k] <==> k == SpeakerKey(segs[i]) {
      SpeakerSegmentsMembers(segs, k, segs[i]);
    }
  }

  // ----- reference selection -----

  predicate IsLong(s: Segment) { Duration(s) > 1.0 }

  function NegDuration(s: Segment): real { -Duration(s) }

  /** Clips longer than one second, or all clips when none is. */
  function Candidates(group: seq<Segment>): (r: seq<Segment>)
    ensures group != [] ==> r != []
    ensures multiset(r) <= multiset(group)
    ensures (exists k :: 0 <= k < |group| && IsLong(group[k])) ==>
              && (forall k :: 0 <= k < |r| ==> IsLong(r[k]))
              && (forall k :: 0 <= k < |group| && IsLong(group[k]) ==> group[k] in r)
    ensures (forall k :: 0 <= k < |group| ==> !IsLong(group[k])) ==> r == group
  {
    var long := Seqs.Filter(group, IsLong);
    Seqs.FilterEmpty(group, IsLong);
    assert forall k :: 0 <= k < |group| && IsLong(group[k]) ==> group[k] in long by {
      forall k | 0 <= k < |group| && IsLong(group[k]) ensures group[k] in long {
        Seqs.FilterMembers(group, IsLong, group[k]);
      }
    }
    if long != [] then long else group
  }

  /** The long candidates are the comprehension over the group, so they keep
      the transcript order. */
  lemma CandidatesKeepOrder(group: seq<Segment>)
    ensures (exists k :: 0 <= k < |group| && IsLong(group[k])) ==> Candidates(group) == Seqs.Filter(group, IsLong)
  {
    Seqs.FilterEmpty(group, IsLong);
  }

  function Min(a: int, b: int): int { if a <= b then a else b }

  /** `sorted(valid_segs, key=duration, reverse=True)[:5]`. */
  function TopClips(group: seq<Segment>): (r: seq<Segment>)
    ensures var sorted := Ranking.StableSort(Candidates(group), NegDuration);
            && |r| == Min(5, |Candidates(group)|)
            && r == sorted[..|r|]
  {
    var sorted := Ranking.StableSort(Candidates(group), NegDuration);
    sorted[..Min(5, |sorted|)]
  }

  /** At most five clips are chosen, all of them candidates, and a
      speaker with segments always gets at least one. */
  lemma TopClipsBounds(group: seq<Segment>)
    ensures var top := TopClips(group);
            && |top| <= 5
            && (group != [] ==> top != [])
            && multiset(top) <= multiset(Candidates(group))
  {
    var c := Candidates(group);
    var sorted := Ranking.StableSort(c, NegDuration);
    var top := TopClips(group);
    assert group != [] ==> c != [];
    assert sorted == top + sorted[|top|..];
    assert multiset(sorted) == multiset(top) + multiset(sorted[|top|..]);
    assert multiset(top) <= multiset(c);
  }

  /** The chosen clips come longest first, and no candidate left out is
      longer than any chosen one. */
  lemma TopClipsAreLongest(group: seq<Segment>)
    ensures var top := TopClips(group);
            var sorted := Ranking.StableSort(Candidates(group), NegDuration);
            && (forall i, j :: 0 <= i < j < |top| ==> Duration(top[j]) <= Duration(top[i]))
            && (forall j, k :: 0 <= j < |top| <= k < |sorted| ==> Duration(sorted[k]) <= Duration(top[j]))
  {
    var sorted := Ranking.StableSort(Candidates(group), NegDuration);
    var top := TopClips(group);
    assert forall i, j :: 0 <= i < j < |sorted| ==> NegDuration(sorted[i]) <= NegDuration(sorted[j]);
  }

  /** Clips of equal length keep their list order in the ranking. */
  lemma TopClipsStable(group: seq<Segment>, v: real)
    ensures Ranking.Ties(Ranking.StableSort(Candidates(group), NegDuration), NegDuration, v)
            == Ranking.Ties(Candidates(group), NegDuration, v)
  {
    Ranking.StableSortKeepsTies(Candidates(group), NegDuration, v);
  }

  /** Merging reads every chosen clip; it fails when one cannot be read. */
  predicate MergeSucceeds(top: seq<Segment>, loads: string -> bool)
    requires forall k :: 0 <= k < |top| ==> top[k].audioPath.Some?
  {
    forall k :: 0 <= k < |top| ==> loads(top[k].audioPath.value)
  }

  /** The reference of one speaker: the cleaned merge of the chosen clips,
      or, when merging fails, the cleaned clip of the first longest segment
      among ALL of the speaker's segments. */
  function ReferenceFor(speaker: string, group: seq<Segment>, temp: string,
                        loads: string -> bool, clean: string -> string): (r: string)
    requires group != []
    requires forall k :: 0 <= k < |group| ==> group[k].audioPath.Some?
    ensures var top := TopClips(group);
            (forall k :: 0 <= k < |top| ==> top[k] in group) &&
            (MergeSucceeds(top, loads) ==> r == clean(MergedRefPath(temp, speaker))) &&
            (!MergeSucceeds(top, loads) ==>
               exists i :: (0 <= i < |group| && r == clean(group[i].audioPath.value)
                            && (forall j :: 0 <= j < |group| ==> Duration(group[j]) <= Duration(group[i]))
                            && (forall j :: 0 <= j < i ==> Duration(group[j]) < Duration(group[i]))))
  {
    var top := TopClips(group);
    assert forall k :: 0 <= k < |top| ==> top[k] in group by {
      forall k | 0 <= k < |top| ensures top[k] in group {
        TopClipsBounds(group);
        assert top[k] in multiset(top);
      }
    }
    if MergeSucceeds(top, loads) then clean(MergedRefPath(temp, speaker))
    else clean(group[Ranking.ArgMaxFirst(group, Duration)].audioPath.value)
  }

  /** `speaker_refs`: one reference per speaker key of the list. */
  function SpeakerRefs(segs: seq<Segment>, temp: string, loads: string -> bool, clean: string -> string): (refs: map<string, string>)
    requires forall i :: 0 <= i < |segs| ==> segs[i].audioPath.Some?
    ensures forall k :: k in refs <==> exists i :: 0 <= i < |segs| && SpeakerKey(segs[i]) == k
    ensures forall k :: k in refs ==>
              && SpeakerSegments(segs, k) != []
              && (forall j :: 0 <= j < |SpeakerSegments(segs, k)| ==> SpeakerSegments(segs, k)[j].audioPath.Some?)
              && refs[k] == ReferenceFor(k, SpeakerSegments(segs, k), temp, loads, clean)
  {
    var g := Group(segs);
    GroupIsBySpeaker(segs);
    assert forall k :: k in g ==> g[k] != [] && forall j :: 0 <= j < |g[k]| ==> g[k][j].audioPath.Some? by {
      forall k | k in g ensures g[k] != [] && forall j :: 0 <= j < |g[k]| ==> g[k][j].audioPath.Some? {
        var i :| 0 <= i < |segs| && SpeakerKey(segs[i]) == k;
        SpeakerSegmentsMembers(segs, k, segs[i]);
        forall j | 0 <= j < |g[k]| ensures g[k][j].audioPath.Some? {
          SpeakerSegmentsMembers(segs, k, g[k][j]);
        }
      }
    }
    map k | k in g :: ReferenceFor(k, g[k], temp, loads, clean)
  }

  /** `speaker_refs.get(speaker, seg['audio_path'])` never needs its default
      for a segment of the list the references were built from. */
  lemma EverySpeakerHasReference(segs: seq<Segment>, temp: string, loads: string -> bool, clean: string -> string, i: nat)
    requires forall i :: 0 <= i < |segs| ==> segs[i].audioPath.Some?
    requires i < |segs|
    ensures SpeakerKey(segs[i]) in SpeakerRefs(segs, temp, loads, clean)
  {
  }
}
