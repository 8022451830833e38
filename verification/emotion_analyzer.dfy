/**
 The decision rules of the emotion analyzer. The classifier and the signal
 features (RMS energy, pyin pitch track) are inputs: the classifier's
 prediction list, or `None` when it raised; the mean RMS energy and the
 per-frame pitch track, with `None` for an unvoiced (NaN) frame.
 */
module EmotionAnalyzer {
  import opened Basics
  import Ranking

  datatype Prediction = Prediction(emotion: string, score: real)

  datatype Emotion = Emotion(name: string, confidence: real)

  /** Features of one loaded clip. */
  datatype Signal = Signal(avgEnergy: real, f0: seq<Option<real>>)

  datatype Prosody = Prosody(energy: string, pitch: string, avgPitchHz: real, avgEnergyVal: real)

  /** What `analyze_segment` merges into a segment dict: `emotion`,
      `confidence` and the four prosody keys. */
  datatype SegmentStats = SegmentStats(emotion: string, confidence: real, prosody: Prosody)

  const Neutral := Emotion("neutral", 0.0)

  function Score(p: Prediction): real { p.score }

  /** `analyze_emotion`: the highest-scoring prediction, the first one on a
      tie; any failure, an empty list included, gives neutral with 0.0. */
  function AnalyzeEmotion(predictions: Option<seq<Prediction>>): (r: Emotion)
    ensures predictions.None? || predictions.value == [] ==> r == Neutral
    ensures predictions.Some? && predictions.value != [] ==>
      var ps := predictions.value;
      exists i :: 0 <= i < |ps| && r == Emotion(ps[i].emotion, ps[i].score)
                  && (forall j :: 0 <= j < |ps| ==> ps[j].score <= ps[i].score)
                  && (forall j :: 0 <= j < i ==> ps[j].score < ps[i].score)
  {
    match predictions
    case None => Neutral
    case Some(ps) =>
      if ps == [] then Neutral
      else
        var i := Ranking.ArgMaxFirst(ps, Score);
        Emotion(ps[i].emotion, ps[i].score)
  }

  /** Bucket order low < medium/mid < high, to compare levels. */
  function LevelRank(level: string): nat {
    if level == "low" then 0 else if level == "high" then 2 else 1
  }

  function EnergyLevel(avg: real): (r: string)
    ensures r == "low" <==> avg < 0.01
    ensures r == "high" <==> avg > 0.05
    ensures r == "medium" <==> 0.01 <= avg <= 0.05
  {
    if avg < 0.01 then "low" else if avg > 0.05 then "high" else "medium"
  }

  function PitchLevel(avg: real): (r: string)
    ensures r == "low" <==> avg < 150.0
    ensures r == "high" <==> avg > 250.0
    ensures r == "mid" <==> 150.0 <= avg <= 250.0
  {
    if avg < 150.0 then "low" else if avg > 250.0 then "high" else "mid"
  }

  /** Both bucketings are monotone: a larger value never lands in a lower bucket. */
  lemma LevelsMonotone(a: real, b: real)
    requires a <= b
    ensures LevelRank(EnergyLevel(a)) <= LevelRank(EnergyLevel(b))
    ensures LevelRank(PitchLevel(a)) <= LevelRank(PitchLevel(b))
  {
  }

  /** The voiced frames of a pitch track (`f0[~np.isnan(f0)]`). */
  function Voiced(f0: seq<Option<real>>): (r: seq<real>)
    ensures |r| <= |f0|
    ensures (forall k :: 0 <= k < |f0| ==> f0[k].None?) ==> r == []
  {
    if |f0| == 0 then []
    else Voiced(f0[..|f0| - 1]) + (if f0[|f0| - 1].Some? then [f0[|f0| - 1].value] else [])
  }

  /** A pitch is among the voiced frames exactly when some frame carries it. */
  lemma {:induction false} VoicedMembers(f0: seq<Option<real>>, x: real)
    ensures x in Voiced(f0) <==> Some(x) in f0
    decreases |f0|
  {
    if |f0| > 0 {
      var init := f0[..|f0| - 1];
      VoicedMembers(init, x);
      assert f0 == init + [f0[|f0| - 1]];
    }
  }

  /** The voiced frames keep their order: a further frame adds its pitch at
      the end when it is voiced, and nothing otherwise. */
  lemma VoicedAppend(f0: seq<Option<real>>, frame: Option<real>)
    ensures Voiced(f0 + [frame]) == Voiced(f0) + (if frame.Some? then [frame.value] else [])
  {
    assert (f0 + [frame])[..|f0|] == f0;
  }

  function Sum(s: seq<real>): real {
    if |s| == 0 then 0.0 else Sum(s[..|s| - 1]) + s[|s| - 1]
  }

  lemma {:induction false} SumBounds(s: seq<real>, lo: real, hi: real)
    requires forall k :: 0 <= k < |s| ==> lo <= s[k] <= hi
    ensures lo * |s| as real <= Sum(s) <= hi * |s| as real
    decreases |s|
  {
    if |s| > 0 {
      SumBounds(s[..|s| - 1], lo, hi);
    }
  }

  lemma {:induction false} VoicedWithin(f0: seq<Option<real>>, lo: real, hi: real)
    requires forall k :: 0 <= k < |f0| && f0[k].Some? ==> lo <= f0[k].value <= hi
    ensures forall k :: 0 <= k < |Voiced(f0)| ==> lo <= Voiced(f0)[k] <= hi
    decreases |f0|
  {
    if |f0| > 0 {
      VoicedWithin(f0[..|f0| - 1], lo, hi);
    }
  }

  /** `np.mean`, taken as 0 for an empty list as the source does. */
  function Mean(v: seq<real>): (r: real)
    ensures v == [] ==> r == 0.0
    ensures v != [] ==> r * |v| as real == Sum(v)
  {
    if |v| > 0 then QuotientTimes(Sum(v), |v| as real); Sum(v) / |v| as real else 0.0
  }

  lemma QuotientTimes(total: real, n: real)
    requires n > 0.0
    ensures (total / n) * n == total
  {
  }

  /** Mean pitch over voiced frames, 0 when there are none. */
  function AveragePitch(f0: seq<Option<real>>): (r: real)
    ensures Voiced(f0) == [] ==> r == 0.0
    ensures Voiced(f0) != [] ==> r * |Voiced(f0)| as real == Sum(Voiced(f0))
  {
    Mean(Voiced(f0))
  }

  lemma QuotientWithin(total: real, n: real, lo: real, hi: real)
    requires n > 0.0
    requires lo * n <= total <= hi * n
    ensures lo <= total / n <= hi
  {
  }

  lemma MeanWithin(v: seq<real>, lo: real, hi: real)
    requires |v| > 0
    requires forall k :: 0 <= k < |v| ==> lo <= v[k] <= hi
    ensures lo <= Mean(v) <= hi
  {
    SumBounds(v, lo, hi);
    QuotientWithin(Sum(v), |v| as real, lo, hi);
  }

  /** The mean lies between the smallest and largest voiced pitch. */
  lemma AveragePitchWithin(f0: seq<Option<real>>, lo: real, hi: real)
    requires Voiced(f0) != []
    requires forall k :: 0 <= k < |f0| && f0[k].Some? ==> lo <= f0[k].value <= hi
    ensures lo <= AveragePitch(f0) <= hi
  {
    VoicedWithin(f0, lo, hi);
    MeanWithin(Voiced(f0), lo, hi);
  }

  /** A steady voiced pitch is its own average, whatever the unvoiced frames. */
  lemma SteadyPitch(f0: seq<Option<real>>, p: real)
    requires Voiced(f0) != []
    requires forall k :: 0 <= k < |f0| && f0[k].Some? ==> f0[k].value == p
    ensures AveragePitch(f0) == p
  {
    AveragePitchWithin(f0, p, p);
  }

  /** `analyze_prosody` on an already loaded clip. */
  function AnalyzeProsody(sig: Signal): (r: Prosody)
    ensures r.avgEnergyVal == sig.avgEnergy && r.avgPitchHz == AveragePitch(sig.f0)
    ensures r.energy == EnergyLevel(sig.avgEnergy) && r.pitch == PitchLevel(AveragePitch(sig.f0))
    ensures Voiced(sig.f0) == [] ==> r.pitch == "low"
  {
    var pitch := AveragePitch(sig.f0);
    Prosody(EnergyLevel(sig.avgEnergy), PitchLevel(pitch), pitch, sig.avgEnergy)
  }

  /** `analyze_segment`: the emotion never fails, a prosody failure propagates. */
  function AnalyzeSegment(predictions: Option<seq<Prediction>>, signal: Result<Signal, string>): (r: Result<SegmentStats, string>)
    ensures signal.Err? <==> r.Err?
    ensures signal.Err? ==> r.error == signal.error
    ensures r.Ok? ==> r.value.emotion == AnalyzeEmotion(predictions).name
                      && r.value.confidence == AnalyzeEmotion(predictions).confidence
                      && r.value.prosody == AnalyzeProsody(signal.value)
  {
    match signal
    case Err(e) => Err(e)
    case Ok(sig) =>
      var emo := AnalyzeEmotion(predictions);
      Ok(SegmentStats(emo.name, emo.confidence, AnalyzeProsody(sig)))
  }
}
