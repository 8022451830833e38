/**
 Speaker attribution (`assign_speakers_to_segments`): each transcript segment
 gets the diarization speaker with the largest summed time overlap. The
 per-speaker sums live in an association list that keeps Python's dict
 insertion order, so ties go to the speaker whose first overlapping turn
 comes first. Loading and running the diarization engine is not modelled:
 its turns are the input.
 */
module Diarizer {
  import opened Basics
  import opened Records
  import Ranking

  /** Label of every segment when there are no turns at all. */
  const MonoSpeaker := "SPEAKER_00"

  /** Label of a segment no turn overlaps. */
  const UnknownSpeaker := "UNKNOWN"

  function Max(a: real, b: real): real { if a >= b then a else b }
  function Min(a: real, b: real): real { if a <= b then a else b }

  /** `max(0, min(seg.end, turn.end) - max(seg.start, turn.start))`. */
  function Overlap(seg: Segment, t: Turn): (r: real)
    ensures r >= 0.0
    ensures r > 0.0 <==> Max(seg.start, t.start) < Min(seg.end, t.end)
  {
    var amount := Min(seg.end, t.end) - Max(seg.start, t.start);
    if amount > 0.0 then amount else 0.0
  }

  /** The `(speaker, overlap)` list of turns with strictly positive overlap, in turn order. */
  function Overlaps(seg: Segment, turns: seq<Turn>): seq<(string, real)> {
    if |turns| == 0 then []
    else
      var t := turns[|turns| - 1];
      Overlaps(seg, turns[..|turns| - 1]) + (if Overlap(seg, t) > 0.0 then [(t.speaker, Overlap(seg, t))] else [])
  }

  // ----- the insertion-ordered dict of per-speaker totals -----

  function Keys(tally: seq<(string, real)>): (ks: seq<string>)
    ensures |ks| == |tally|
    ensures forall i :: 0 <= i < |tally| ==> ks[i] == tally[i].0
  {
    seq(|tally|, i requires 0 <= i < |tally| => tally[i].0)
  }

  ghost predicate Distinct(ks: seq<string>) {
    forall i, j :: 0 <= i < j < |ks| ==> ks[i] != ks[j]
  }

  /** `tally.get(k, 0)`. */
  function Lookup(tally: seq<(string, real)>, k: string): real {
    if |tally| == 0 then 0.0
    else if tally[0].0 == k then tally[0].1
    else Lookup(tally[1..], k)
  }

  /** `tally[k] = tally.get(k, 0) + d`: an existing key keeps its position,
      a new key goes last. */
  function Add(tally: seq<(string, real)>, k: string, d: real): seq<(string, real)> {
    if |tally| == 0 then [(k, d)]
    else if tally[0].0 == k then [(k, tally[0].1 + d)] + tally[1..]
    else [tally[0]] + Add(tally[1..], k, d)
  }

  lemma KeysCons(x: (string, real), rest: seq<(string, real)>)
    ensures Keys([x] + rest) == [x.0] + Keys(rest)
  {
    assert Keys([x] + rest)[0] == x.0;
  }

  lemma {:induction false} AddKeys(tally: seq<(string, real)>, k: string, d: real)
    ensures Keys(Add(tally, k, d)) == if k in Keys(tally) then Keys(tally) else Keys(tally) + [k]
    decreases |tally|
  {
    if |tally| == 0 {
      assert Keys([(k, d)]) == [k];
    } else {
      var x, tail := tally[0], tally[1..];
      assert tally == [x] + tail;
      KeysCons(x, tail);
      if x.0 == k {
        KeysCons((k, x.1 + d), tail);
      } else {
        AddKeys(tail, k, d);
        KeysCons(x, Add(tail, k, d));
        assert k in Keys(tally) <==> k in Keys(tail);
      }
    }
  }

  lemma {:induction false} AddLookup(tally: seq<(string, real)>, k: string, d: real, j: string)
    ensures Lookup(Add(tally, k, d), j) == Lookup(tally, j) + (if j == k then d else 0.0)
    decreases |tally|
  {
    if |tally| > 0 && tally[0].0 != k {
      AddLookup(tally[1..], k, d, j);
    }
  }

  /** The per-speaker sums over an overlap list, accumulated left to right. */
  function Tally(ovs: seq<(string, real)>): seq<(string, real)> {
    if |ovs| == 0 then []
    else Add(Tally(ovs[..|ovs| - 1]), ovs[|ovs| - 1].0, ovs[|ovs| - 1].1)
  }

  function Total(entry: (string, real)): real { entry.1 }

  /** The label of one segment when turns exist. */
  function Attribute(seg: Segment, turns: seq<Turn>): string {
    var ovs := Overlaps(seg, turns);
    if ovs == [] then UnknownSpeaker
    else
      var tally := Tally(ovs);
      TallyNonEmpty(ovs);
      tally[Ranking.ArgMaxFirst(tally, Total)].0
  }

  /** `assign_speakers_to_segments`: every segment gets a label, nothing else changes. */
  function AssignSpeakers(segs: seq<Segment>, turns: seq<Turn>): (r: seq<Segment>)
    ensures |r| == |segs|
    ensures forall i :: 0 <= i < |segs| ==>
      r[i].speaker.Some? && r[i] == segs[i].(speaker := r[i].speaker)
    ensures turns == [] ==> forall i :: 0 <= i < |r| ==> r[i].speaker == Some(MonoSpeaker)
    ensures turns != [] ==> forall i :: 0 <= i < |r| ==> r[i].speaker == Some(Attribute(segs[i], turns))
  {
    if turns == [] then seq(|segs|, i requires 0 <= i < |segs| => segs[i].(speaker := Some(MonoSpeaker)))
    else seq(|segs|, i requires 0 <= i < |segs| => segs[i].(speaker := Some(Attribute(segs[i], turns))))
  }

  // ----- reference definitions over the turn list -----

  /** Summed overlap of speaker `k`'s turns with the segment. */
  function SpeakerOverlap(seg: Segment, turns: seq<Turn>, k: string): (r: real)
    ensures r >= 0.0
  {
    if |turns| == 0 then 0.0
    else
      var t := turns[|turns| - 1];
      SpeakerOverlap(seg, turns[..|turns| - 1], k) + (if t.speaker == k then Overlap(seg, t) else 0.0)
  }

  /** Some turn of speaker `k` overlaps the segment. */
  ghost predicate OverlapsSpeaker(seg: Segment, turns: seq<Turn>, k: string) {
    exists i :: 0 <= i < |turns| && turns[i].speaker == k && Overlap(seg, turns[i]) > 0.0
  }

  /** Index of speaker `k`'s first turn that overlaps the segment. */
  ghost function FirstTurn(seg: Segment, turns: seq<Turn>, k: string): (r: nat)
    requires OverlapsSpeaker(seg, turns, k)
    ensures r < |turns| && turns[r].speaker == k && Overlap(seg, turns[r]) > 0.0
    ensures forall i :: 0 <= i < r ==> !(turns[i].speaker == k && Overlap(seg, turns[i]) > 0.0)
  {
    var pre := turns[..|turns| - 1];
    if OverlapsSpeaker(seg, pre, k) then FirstTurn(seg, pre, k)
    else |turns| - 1
  }

  // ----- lemmas -----

  lemma TallyNonEmpty(ovs: seq<(string, real)>)
    requires ovs != []
    ensures |Tally(ovs)| > 0
  {
  }

  lemma {:induction false} LookupAbsent(tally: seq<(string, real)>, k: string)
    requires k !in Keys(tally)
    ensures Lookup(tally, k) == 0.0
    decreases |tally|
  {
    if |tally| > 0 {
      assert Keys(tally) == [tally[0].0] + Keys(tally[1..]);
      LookupAbsent(tally[1..], k);
    }
  }

  lemma {:induction false} LookupAt(tally: seq<(string, real)>, i: nat)
    requires i < |tally|
    requires Distinct(Keys(tally))
    ensures Lookup(tally, tally[i].0) == tally[i].1
    decreases |tally|
  {
    if i > 0 {
      assert Keys(tally) == [tally[0].0] + Keys(tally[1..]);
      assert Keys(tally)[0] != Keys(tally)[i];
      LookupAt(tally[1..], i - 1);
    }
  }

  /** One more turn either adds its overlap to the totals or leaves them alone. */
  lemma TotalsStep(seg: Segment, turns: seq<Turn>)
    requires |turns| > 0
    ensures var pre := turns[..|turns| - 1];
            var t := turns[|turns| - 1];
            Tally(Overlaps(seg, turns)) ==
              if Overlap(seg, t) > 0.0 then Add(Tally(Overlaps(seg, pre)), t.speaker, Overlap(seg, t))
              else Tally(Overlaps(seg, pre))
  {
    var pre := turns[..|turns| - 1];
    var t := turns[|turns| - 1];
    var ovs := Overlaps(seg, pre);
    if Overlap(seg, t) > 0.0 {
      assert (ovs + [(t.speaker, Overlap(seg, t))])[..|ovs|] == ovs;
    } else {
      assert ovs + [] == ovs;
    }
  }

  /** Speakers overlapping the whole list: those overlapping the prefix, plus
      the last turn's speaker when it overlaps. */
  lemma OverlapsSpeakerStep(seg: Segment, turns: seq<Turn>, k: string)
    requires |turns| > 0
    ensures var pre := turns[..|turns| - 1];
            var t := turns[|turns| - 1];
            OverlapsSpeaker(seg, turns, k) <==>
              OverlapsSpeaker(seg, pre, k) || (k == t.speaker && Overlap(seg, t) > 0.0)
    ensures var pre := turns[..|turns| - 1];
            OverlapsSpeaker(seg, pre, k) ==> FirstTurn(seg, turns, k) == FirstTurn(seg, pre, k)
  {
    var pre := turns[..|turns| - 1];
    if OverlapsSpeaker(seg, pre, k) {
      var i :| 0 <= i < |pre| && pre[i].speaker == k && Overlap(seg, pre[i]) > 0.0;
      assert turns[i] == pre[i];
    }
    if OverlapsSpeaker(seg, turns, k) {
      var i :| 0 <= i < |turns| && turns[i].speaker == k && Overlap(seg, turns[i]) > 0.0;
      if i < |pre| {
        assert pre[i] == turns[i];
      }
    }
  }

  /** The totals hold each overlapping speaker exactly once, and nothing else. */
  lemma {:induction false} TotalsKeys(seg: Segment, turns: seq<Turn>)
    ensures var tally := Tally(Overlaps(seg, turns));
            && Distinct(Keys(tally))
            && (forall k :: k in Keys(tally) <==> OverlapsSpeaker(seg, turns, k))
    decreases |turns|
  {
    if |turns| == 0 {
      assert forall k :: !OverlapsSpeaker(seg, turns, k);
    } else {
      var pre := turns[..|turns| - 1];
      var t := turns[|turns| - 1];
      TotalsKeys(seg, pre);
      TotalsStep(seg, turns);
      AddKeys(Tally(Overlaps(seg, pre)), t.speaker, Overlap(seg, t));
      forall k ensures k in Keys(Tally(Overlaps(seg, turns))) <==> OverlapsSpeaker(seg, turns, k) {
        OverlapsSpeakerStep(seg, turns, k);
      }
    }
  }

  /** Each speaker's total is its summed overlap. */
  lemma {:induction false} TotalsSums(seg: Segment, turns: seq<Turn>, k: string)
    ensures Lookup(Tally(Overlaps(seg, turns)), k) == SpeakerOverlap(seg, turns, k)
    decreases |turns|
  {
    if |turns| > 0 {
      var pre := turns[..|turns| - 1];
      var t := turns[|turns| - 1];
      TotalsSums(seg, pre, k);
      TotalsStep(seg, turns);
      AddLookup(Tally(Overlaps(seg, pre)), t.speaker, Overlap(seg, t), k);
    }
  }

  /** The totals are ordered by each speaker's first overlapping turn. */
  ghost predicate OrderedByFirstTurn(seg: Segment, turns: seq<Turn>, tally: seq<(string, real)>) {
    forall i, j :: 0 <= i < j < |tally| ==> Before(seg, turns, tally[i].0, tally[j].0)
  }

  /** Both speakers overlap the segment and `a`'s first such turn comes first. */
  ghost predicate Before(seg: Segment, turns: seq<Turn>, a: string, b: string) {
    OverlapsSpeaker(seg, turns, a) && OverlapsSpeaker(seg, turns, b)
    && FirstTurn(seg, turns, a) < FirstTurn(seg, turns, b)
  }

  /** Adding a speaker that has not overlapped before, at the last turn, keeps the order. */
  lemma OrderAfterNewSpeaker(seg: Segment, turns: seq<Turn>, old_: seq<(string, real)>)
    requires |turns| > 0
    requires var t := turns[|turns| - 1]; Overlap(seg, t) > 0.0 && t.speaker !in Keys(old_)
    requires OrderedByFirstTurn(seg, turns[..|turns| - 1], old_)
    requires forall k :: k in Keys(old_) <==> OverlapsSpeaker(seg, turns[..|turns| - 1], k)
    ensures OrderedByFirstTurn(seg, turns, Add(old_, turns[|turns| - 1].speaker, Overlap(seg, turns[|turns| - 1])))
  {
    var pre := turns[..|turns| - 1];
    var t := turns[|turns| - 1];
    var tally := Add(old_, t.speaker, Overlap(seg, t));
    AddKeys(old_, t.speaker, Overlap(seg, t));
    assert Keys(tally) == Keys(old_) + [t.speaker];
    OverlapsSpeakerStep(seg, turns, t.speaker);
    assert OverlapsSpeaker(seg, turns, t.speaker);
    assert !OverlapsSpeaker(seg, pre, t.speaker);
    assert FirstTurn(seg, turns, t.speaker) == |turns| - 1;
    forall i, j | 0 <= i < j < |tally| ensures Before(seg, turns, tally[i].0, tally[j].0) {
      assert tally[i].0 == Keys(tally)[i] == Keys(old_)[i] == old_[i].0;
      assert old_[i].0 in Keys(old_);
      OverlapsSpeakerStep(seg, turns, old_[i].0);
      if j < |old_| {
        assert tally[j].0 == Keys(tally)[j] == Keys(old_)[j] == old_[j].0;
        OverlapsSpeakerStep(seg, turns, old_[j].0);
      } else {
        assert tally[j].0 == Keys(tally)[j] == t.speaker;
      }
    }
  }

  /** Adding to a speaker already present, or to nothing, keeps the order. */
  lemma OrderAfterKnownSpeaker(seg: Segment, turns: seq<Turn>, old_: seq<(string, real)>, tally: seq<(string, real)>)
    requires |turns| > 0
    requires Keys(tally) == Keys(old_)
    requires OrderedByFirstTurn(seg, turns[..|turns| - 1], old_)
    ensures OrderedByFirstTurn(seg, turns, tally)
  {
    forall i, j | 0 <= i < j < |tally| ensures Before(seg, turns, tally[i].0, tally[j].0) {
      assert tally[i].0 == Keys(tally)[i] == Keys(old_)[i] == old_[i].0;
      assert tally[j].0 == Keys(tally)[j] == Keys(old_)[j] == old_[j].0;
      var pre := turns[..|turns| - 1];
      assert Before(seg, pre, old_[i].0, old_[j].0);
      OverlapsSpeakerStep(seg, turns, old_[i].0);
      OverlapsSpeakerStep(seg, turns, old_[j].0);
    }
  }

  lemma {:induction false} TotalsOrder(seg: Segment, turns: seq<Turn>)
    ensures OrderedByFirstTurn(seg, turns, Tally(Overlaps(seg, turns)))
    decreases |turns|
  {
    if |turns| > 0 {
      var pre := turns[..|turns| - 1];
      var t := turns[|turns| - 1];
      var old_ := Tally(Overlaps(seg, pre));
      TotalsOrder(seg, pre);
      TotalsKeys(seg, pre);
      TotalsStep(seg, turns);
      AddKeys(old_, t.speaker, Overlap(seg, t));
      if Overlap(seg, t) > 0.0 && t.speaker !in Keys(old_) {
        OrderAfterNewSpeaker(seg, turns, old_);
      } else {
        OrderAfterKnownSpeaker(seg, turns, old_, Tally(Overlaps(seg, turns)));
      }
    }
  }

  /** With no turns, every segment is labelled `SPEAKER_00`; with turns, a
      segment nothing overlaps is labelled `UNKNOWN`, never `SPEAKER_00`. */
  lemma FallbackLabels(segs: seq<Segment>, turns: seq<Turn>, i: nat)
    requires i < |segs|
    ensures turns == [] ==> AssignSpeakers(segs, turns)[i].speaker == Some(MonoSpeaker)
    ensures turns != [] && (forall k :: !OverlapsSpeaker(segs[i], turns, k)) ==>
              AssignSpeakers(segs, turns)[i].speaker == Some(UnknownSpeaker)
  {
    if turns != [] && (forall k :: !OverlapsSpeaker(segs[i], turns, k)) {
      TotalsKeys(segs[i], turns);
      var tally := Tally(Overlaps(segs[i], turns));
      if Overlaps(segs[i], turns) != [] {
        TallyNonEmpty(Overlaps(segs[i], turns));
        assert tally[0].0 in Keys(tally);
      }
    }
  }

  /** The label chosen when some turn overlaps: a speaker of an overlapping
      turn, with the largest summed overlap, and among equal sums the one
      whose first overlapping turn comes earliest. */
  lemma AttributionIsBest(seg: Segment, turns: seq<Turn>)
    requires exists k :: OverlapsSpeaker(seg, turns, k)
    ensures var best := Attribute(seg, turns);
            && OverlapsSpeaker(seg, turns, best)
            && (forall k :: SpeakerOverlap(seg, turns, k) <= SpeakerOverlap(seg, turns, best))
            && (forall k ::
                  (OverlapsSpeaker(seg, turns, k) && k != best
                   && SpeakerOverlap(seg, turns, k) == SpeakerOverlap(seg, turns, best)) ==>
                  FirstTurn(seg, turns, best) < FirstTurn(seg, turns, k))
  {
    var ovs := Overlaps(seg, turns);
    var tally := Tally(ovs);
    TotalsKeys(seg, turns);
    TotalsOrder(seg, turns);
    var k0 :| OverlapsSpeaker(seg, turns, k0);
    assert k0 in Keys(tally);
    assert ovs != [];
    TallyNonEmpty(ovs);
    var r := Ranking.ArgMaxFirst(tally, Total);
    var best := tally[r].0;
    assert Attribute(seg, turns) == best;
    assert best in Keys(tally) by { assert Keys(tally)[r] == best; }
    LookupAt(tally, r);
    forall k ensures SpeakerOverlap(seg, turns, k) <= SpeakerOverlap(seg, turns, best) {
      if k in Keys(tally) {
        var j :| 0 <= j < |Keys(tally)| && Keys(tally)[j] == k;
        LookupAt(tally, j);
        assert Total(tally[j]) <= Total(tally[r]);
      } else {
        LookupAbsent(tally, k);
      }
      TotalsSums(seg, turns, k);
      TotalsSums(seg, turns, best);
    }
    forall k | OverlapsSpeaker(seg, turns, k) && k != best
                 && SpeakerOverlap(seg, turns, k) == SpeakerOverlap(seg, turns, best)
      ensures FirstTurn(seg, turns, best) < FirstTurn(seg, turns, k)
    {
      assert k in Keys(tally);
      var j :| 0 <= j < |Keys(tally)| && Keys(tally)[j] == k;
      LookupAt(tally, j);
      TotalsSums(seg, turns, k);
      TotalsSums(seg, turns, best);
      assert j != r;
    }
  }

  /** A two-segment example: a single turn of `A` over
      0-5 s labels both 0-2 s and 2-5 s as `A`. */
  lemma SingleTurnScenario()
    ensures var segs := [Transcribed(0.0, 2.0, "Hi"), Transcribed(2.0, 5.0, "Bye")];
            var r := AssignSpeakers(segs, [Turn(0.0, 5.0, "A")]);
            r[0].speaker == Some("A") && r[1].speaker == Some("A")
  {
    var turns := [Turn(0.0, 5.0, "A")];
    assert turns[..0] == [];
    var s0 := Transcribed(0.0, 2.0, "Hi");
    var s1 := Transcribed(2.0, 5.0, "Bye");
    assert Overlaps(s0, turns) == [("A", 2.0)];
    assert Overlaps(s1, turns) == [("A", 3.0)];
    assert [("A", 2.0)][..0] == [];
    assert [("A", 3.0)][..0] == [];
    assert Tally([("A", 2.0)]) == [("A", 2.0)];
    assert Tally([("A", 3.0)]) == [("A", 3.0)];
  }
}
