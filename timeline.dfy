/** The beat timeline: the meter load_midi derives from the first time signature, and
    analyze_chords, which walks the score beat by beat, classifies what sounds at each
    beat and keeps the beats that sound. The parsed score is given as its length and,
    for every offset, the elements of each part that overlap the half-beat from it. */
module Timeline {
  import opened Base
  import opened Chords
  import opened Rules

  // ---------------------------------------------------------------------
  // Meter (load_midi)

  datatype TimeSignature = TimeSignature(numerator: int, denominator: int)

  /** `beats_per_measure` and `beat_duration` (in quarter notes). */
  datatype Meter = Meter(beatsPerMeasure: int, beatDuration: real)

  /** The default when the score has no time signature, or when reading it fails. */
  const CommonTime: Meter := Meter(4, 1.0)

  predicate Playable(m: Meter) {
    m.beatsPerMeasure >= 1 && m.beatDuration > 0.0
  }

  /** A time signature as music21 reports one: positive numerator, non-negative denominator. */
  predicate Reported(ts: Option<TimeSignature>) {
    ts.None? || (ts.value.numerator >= 1 && ts.value.denominator >= 0)
  }

  /** The meter branch of load_midi. A zero denominator makes `4.0 / denominator` raise,
      and the handler falls back to 4/4. */
  function MeterOf(ts: Option<TimeSignature>): (m: Meter)
    ensures Reported(ts) ==> Playable(m)
    ensures ts.None? ==> m == CommonTime
  {
    match ts
    case None => CommonTime
    case Some(t) =>
      if t.denominator == 4 then Meter(t.numerator, 1.0)
      else if t.denominator == 2 then Meter(t.numerator, 2.0)
      else if t.denominator == 8 then
        if t.numerator == 6 || t.numerator == 9 || t.numerator == 12 then Meter(t.numerator / 3, 1.5)
        else Meter(t.numerator, 0.5)
      else if t.denominator == 0 then CommonTime
      else Meter(t.numerator, 4.0 / t.denominator as real)
  }

  /** Whatever the grouping, a measure of the derived meter lasts as long as the time
      signature says: numerator times a 1/denominator note, in quarter notes. */
  lemma MeasureLength(t: TimeSignature)
    requires t.denominator > 0
    ensures var m := MeterOf(Some(t));
            m.beatsPerMeasure as real * m.beatDuration == t.numerator as real * 4.0 / t.denominator as real
  {
    var m := MeterOf(Some(t));
    if t.denominator == 8 && (t.numerator == 6 || t.numerator == 9 || t.numerator == 12) {
      assert m.beatsPerMeasure * 3 == t.numerator;
    } else if t.denominator !in {2, 4, 8} {
      var d := t.denominator as real;
      assert m.beatDuration * d == 4.0;
      assert m.beatsPerMeasure as real * m.beatDuration * d == t.numerator as real * 4.0;
    }
  }

  /** Compound 6/8, 9/8 and 12/8 are counted in dotted quarters, a third as many beats;
      any other x/8 is counted in eighths. */
  lemma CompoundMeters(n: int)
    ensures n in {6, 9, 12} ==> MeterOf(Some(TimeSignature(n, 8))) == Meter(n / 3, 1.5) && (n / 3) * 3 == n
    ensures n !in {6, 9, 12} ==> MeterOf(Some(TimeSignature(n, 8))) == Meter(n, 0.5)
  {
  }

  // ---------------------------------------------------------------------
  // Beat positions

  /** The parsed score: its length in quarter notes, and for each offset the elements of
      each part that sound in [offset, offset + 0.5). */
  datatype Score = Score(highestTime: real, sounding: real -> seq<Part>)

  /** The offset of the beat with index k (0-based): k beat durations. */
  function Offset(m: Meter, k: nat): real {
    (k as real) * m.beatDuration
  }

  /** The 1-based beat within the measure and the 1-based measure of beat index k. */
  function BeatOf(m: Meter, k: nat): int
    requires m.beatsPerMeasure >= 1
  {
    k % m.beatsPerMeasure + 1
  }

  function MeasureOf(m: Meter, k: nat): int
    requires m.beatsPerMeasure >= 1
  {
    k / m.beatsPerMeasure + 1
  }

  /** The number of beats analyzed: how many offsets 0, d, 2d, ... lie below the length. */
  function BeatCount(total: real, d: real): nat
    requires d > 0.0
  {
    if total <= 0.0 then 0
    else
      var x := total / d;
      assert x * d == total;
      var q := x.Floor;
      if (q as real) * d < total then q + 1 else q
  }

  /** Beat k is analyzed exactly when its offset lies below the length of the score. */
  lemma BeatCountIff(total: real, d: real, k: nat)
    requires d > 0.0
    ensures k < BeatCount(total, d) <==> (k as real) * d < total
  {
    if total > 0.0 {
      var x := total / d;
      DivideBack(total, d);
      var q := x.Floor;
      var kr, qr := k as real, q as real;
      ScaledBelow(kr, x, d, total);
      ScaledBelow(qr, x, d, total);
    } else {
      assert (k as real) * d >= 0.0;
    }
  }

  lemma ScaledBelow(a: real, x: real, d: real, total: real)
    requires d > 0.0 && x * d == total
    ensures a * d < total <==> a < x
    ensures a * d == total <==> a == x
  {
    MulMonotone(a, x, d);
  }

  lemma DivideBack(total: real, d: real)
    requires d > 0.0
    ensures (total / d) * d == total
  {
  }

  /** The same, for the beat offsets of a meter. */
  lemma BeatAnalyzedIff(m: Meter, total: real, k: nat)
    requires m.beatDuration > 0.0
    ensures k < BeatCount(total, m.beatDuration) <==> Offset(m, k) < total
  {
    BeatCountIff(total, m.beatDuration, k);
  }

  /** The next beat lies one beat duration later. */
  lemma OffsetStep(m: Meter, k: nat)
    ensures Offset(m, k + 1) == Offset(m, k) + m.beatDuration
  {
    assert ((k + 1) as real) * m.beatDuration == (k as real) * m.beatDuration + m.beatDuration;
  }

  lemma MulMonotone(a: real, b: real, d: real)
    requires d > 0.0
    ensures a < b <==> a * d < b * d
    ensures a == b <==> a * d == b * d
  {
    assert (b - a) * d == b * d - a * d;
  }

  /** Bar and beat number count the beats before beat index k. */
  lemma BeatPosition(m: Meter, k: nat)
    requires m.beatsPerMeasure >= 1
    ensures 1 <= BeatOf(m, k) <= m.beatsPerMeasure && MeasureOf(m, k) >= 1
    ensures (MeasureOf(m, k) - 1) * m.beatsPerMeasure + BeatOf(m, k) - 1 == k
  {
  }

  /** One step of the counters: the beat number goes up, and wraps to 1 with a new
      measure after the last beat of a measure. */
  lemma NextBeat(m: Meter, k: nat)
    requires m.beatsPerMeasure >= 1
    ensures BeatOf(m, k) + 1 > m.beatsPerMeasure ==>
              BeatOf(m, k + 1) == 1 && MeasureOf(m, k + 1) == MeasureOf(m, k) + 1
    ensures BeatOf(m, k) + 1 <= m.beatsPerMeasure ==>
              BeatOf(m, k + 1) == BeatOf(m, k) + 1 && MeasureOf(m, k + 1) == MeasureOf(m, k)
  {
    var b := m.beatsPerMeasure;
    var q, r := k / b, k % b;
    assert k == q * b + r && 0 <= r < b;
    if r + 1 == b {
      assert k + 1 == (q + 1) * b;
      DivModUnique(k + 1, b, q + 1, 0);
    } else {
      assert k + 1 == q * b + (r + 1);
      DivModUnique(k + 1, b, q, r + 1);
    }
  }

  lemma DivModUnique(n: int, b: int, q: int, r: int)
    requires b >= 1 && n == q * b + r && 0 <= r < b
    ensures n / b == q && n % b == r
  {
    var q', r' := n / b, n % b;
    assert n == q' * b + r' && 0 <= r' < b;
    assert (q - q') * b == r' - r;
    MultipleAtLeast(q - q', b);
  }

  lemma MultipleAtLeast(e: int, b: int)
    requires b >= 1
    ensures e >= 1 ==> e * b >= b
    ensures e <= -1 ==> e * b <= -b
  {
    if e >= 1 {
      assert e * b == (e - 1) * b + b;
    } else if e <= -1 {
      assert e * b == (e + 1) * b - b;
    }
  }

  // ---------------------------------------------------------------------
  // The analysis of one beat, and of the whole score

  /** One entry of chord_analysis. */
  datatype Entry = Entry(offset: real, measure: int, beat: int, roman: Numeral,
                         degrees: seq<int>, assessment: Assessment)

  /** The entry for beat index k, or None when nothing sounds there. */
  function EntryAt(score: Score, m: Meter, tonic: int, mode: string, k: nat): (e: Option<Entry>)
    requires m.beatsPerMeasure >= 1
    ensures e.Some? <==> |SoundingPitches(score.sounding(Offset(m, k)))| > 0
    ensures e.Some? ==> e.value.offset == Offset(m, k) && e.value.measure == MeasureOf(m, k) &&
                        e.value.beat == BeatOf(m, k)
  {
    var offset := Offset(m, k);
    var r := Classify(SoundingPitches(score.sounding(offset)), tonic, mode);
    SoundingIffNamed(SoundingPitches(score.sounding(offset)), tonic, mode);
    match r.roman
    case None => None
    case Some(n) => Some(Entry(offset, MeasureOf(m, k), BeatOf(m, k), n, r.degrees, Assess(n, mode)))
  }

  /** The entry of a beat, from the classifier's reading of it. */
  lemma ReadingEntry(score: Score, m: Meter, tonic: int, mode: string, k: nat, r: Reading)
    requires m.beatsPerMeasure >= 1
    requires r == Classify(SoundingPitches(score.sounding(Offset(m, k))), tonic, mode)
    ensures EntryAt(score, m, tonic, mode, k) ==
            if r.roman.None? then None
            else Some(Entry(Offset(m, k), MeasureOf(m, k), BeatOf(m, k), r.roman.value, r.degrees, Assess(r.roman.value, mode)))
  {
  }

  /** What the first n beats give, beat by beat. */
  function Beats(score: Score, m: Meter, tonic: int, mode: string, n: nat): (bs: seq<Option<Entry>>)
    requires m.beatsPerMeasure >= 1
    ensures |bs| == n && forall k :: 0 <= k < n ==> bs[k] == EntryAt(score, m, tonic, mode, k)
  {
    seq(n, k requires 0 <= k < n => EntryAt(score, m, tonic, mode, k))
  }

  lemma BeatsStep(score: Score, m: Meter, tonic: int, mode: string, k: nat)
    requires m.beatsPerMeasure >= 1
    ensures Beats(score, m, tonic, mode, k + 1) == Beats(score, m, tonic, mode, k) + [EntryAt(score, m, tonic, mode, k)]
  {
    var longer, shorter := Beats(score, m, tonic, mode, k + 1), Beats(score, m, tonic, mode, k);
    forall i | 0 <= i < k
      ensures longer[i] == shorter[i]
    {
    }
    SnocEqual(longer, shorter);
  }

  /** A sequence that agrees with another on all its positions but the last extends it by
      its last element. */
  lemma SnocEqual(longer: seq<Option<Entry>>, shorter: seq<Option<Entry>>)
    requires |longer| == |shorter| + 1
    requires forall i :: 0 <= i < |shorter| ==> longer[i] == shorter[i]
    ensures longer == shorter + [longer[|shorter|]]
  {
  }

  /** One more beat adds its entry, if any, to those kept. */
  lemma KeptStep(score: Score, m: Meter, tonic: int, mode: string, k: nat)
    requires m.beatsPerMeasure >= 1
    ensures var e := EntryAt(score, m, tonic, mode, k);
            Kept(Beats(score, m, tonic, mode, k + 1)) ==
            Kept(Beats(score, m, tonic, mode, k)) + (if e.Some? then [e.value] else [])
  {
    BeatsStep(score, m, tonic, mode, k);
    KeptAppend(Beats(score, m, tonic, mode, k), EntryAt(score, m, tonic, mode, k));
  }

  /** The beats that gave an entry, in order. */
  function Kept(bs: seq<Option<Entry>>): seq<Entry>
    decreases |bs|
  {
    if |bs| == 0 then []
    else
      var before := Kept(bs[..|bs| - 1]);
      match bs[|bs| - 1]
      case None => before
      case Some(e) => before + [e]
  }

  lemma KeptAppend(bs: seq<Option<Entry>>, b: Option<Entry>)
    ensures Kept(bs + [b]) == Kept(bs) + (if b.Some? then [b.value] else [])
  {
    assert (bs + [b])[..|bs|] == bs;
  }

  /** chord_analysis for the whole score. */
  function Analysis(score: Score, m: Meter, tonic: int, mode: string): seq<Entry>
    requires Playable(m)
  {
    Kept(Beats(score, m, tonic, mode, BeatCount(score.highestTime, m.beatDuration)))
  }

  /** The body of the analyze_chords loop for beat index k: classify what sounds at the
      offset and, when there is a numeral, rate it. */
  method AnalyzeBeat(score: Score, m: Meter, tonic: int, mode: string, ghost k: nat,
                     offset: real, measure: int, beat: int) returns (e: Option<Entry>)
    requires m.beatsPerMeasure >= 1
    requires offset == Offset(m, k) && measure == MeasureOf(m, k) && beat == BeatOf(m, k)
    ensures e == EntryAt(score, m, tonic, mode, k)
  {
    var r := ChordAtOffset(score.sounding(offset), tonic, mode);
    ReadingEntry(score, m, tonic, mode, k, r);
    if r.roman.Some? {
      var assessment := Assess(r.roman.value, mode);
      return Some(Entry(offset, measure, beat, r.roman.value, r.degrees, assessment));
    }
    return None;
  }

  /** analyze_chords: step the offset by the beat duration while it is below the length,
      counting beats and measures, and keep the beats that have a numeral. */
  method AnalyzeChords(score: Score, m: Meter, tonic: int, mode: string) returns (entries: seq<Entry>)
    requires Playable(m)
    ensures entries == Analysis(score, m, tonic, mode)
  {
    var total := score.highestTime;
    ghost var n := BeatCount(total, m.beatDuration);
    ghost var k: nat := 0;
    entries := [];
    var offset := 0.0;
    var measure := 1;
    var beat := 1;
    while offset < total
      invariant offset == Offset(m, k) && k <= n
      invariant beat == BeatOf(m, k) && measure == MeasureOf(m, k)
      invariant entries == Kept(Beats(score, m, tonic, mode, k))
      decreases n - k
    {
      BeatAnalyzedIff(m, total, k);
      entries, offset, measure, beat := NextBeatStep(score, m, tonic, mode, k, entries, offset, measure, beat);
      k := k + 1;
    }
    BeatAnalyzedIff(m, total, k);
    assert k == n;
  }

  /** One pass of the analyze_chords loop: the entry of beat k, if any, is kept, and the
      counters move on to beat k + 1. */
  method NextBeatStep(score: Score, m: Meter, tonic: int, mode: string, ghost k: nat,
                      entries: seq<Entry>, offset: real, measure: int, beat: int)
      returns (entries': seq<Entry>, offset': real, measure': int, beat': int)
    requires m.beatsPerMeasure >= 1
    requires offset == Offset(m, k) && measure == MeasureOf(m, k) && beat == BeatOf(m, k)
    requires entries == Kept(Beats(score, m, tonic, mode, k))
    ensures offset' == Offset(m, k + 1) && measure' == MeasureOf(m, k + 1) && beat' == BeatOf(m, k + 1)
    ensures entries' == Kept(Beats(score, m, tonic, mode, k + 1))
  {
    var e := AnalyzeBeat(score, m, tonic, mode, k, offset, measure, beat);
    entries' := entries;
    if e.Some? {
      entries' := entries + [e.value];
    }
    KeptStep(score, m, tonic, mode, k);
    offset', measure', beat' := NextPosition(m, k, offset, measure, beat);
  }

  /** The counters of analyze_chords after a beat: the offset moves one beat duration on,
      and the beat number goes up, wrapping to 1 with a new measure after the last beat
      of a measure. */
  method NextPosition(m: Meter, ghost k: nat, offset: real, measure: int, beat: int)
      returns (offset': real, measure': int, beat': int)
    requires m.beatsPerMeasure >= 1
    requires offset == Offset(m, k) && measure == MeasureOf(m, k) && beat == BeatOf(m, k)
    ensures offset' == Offset(m, k + 1) && measure' == MeasureOf(m, k + 1) && beat' == BeatOf(m, k + 1)
  {
    offset' := offset + m.beatDuration;
    beat' := beat + 1;
    measure' := measure;
    if beat' > m.beatsPerMeasure {
      beat' := 1;
      measure' := measure + 1;
    }
    NextBeat(m, k);
    OffsetStep(m, k);
  }

  // ---------------------------------------------------------------------
  // Properties of the timeline

  /** A beat is kept exactly when something sounds at it; a sounding beat with no diatonic
      pitch is kept as "Unknown". */
  lemma KeptIff(score: Score, m: Meter, tonic: int, mode: string, k: nat)
    requires m.beatsPerMeasure >= 1
    ensures var pitches := SoundingPitches(score.sounding(Offset(m, k)));
            && (EntryAt(score, m, tonic, mode, k).Some? <==> |pitches| > 0)
            && (|pitches| > 0 && (forall i :: 0 <= i < |pitches| ==> DegreeOf(PitchClass(pitches[i]), tonic).None?)
                ==> EntryAt(score, m, tonic, mode, k).value.roman == UnknownChord)
  {
    var pitches := SoundingPitches(score.sounding(Offset(m, k)));
    SoundingIffNamed(pitches, tonic, mode);
    if |pitches| > 0 {
      UnknownIffNoDegree(pitches, tonic, mode);
    }
  }

  /** An entry is kept exactly when some beat gave it. */
  lemma {:induction false} KeptMembers(bs: seq<Option<Entry>>, e: Entry)
    ensures e in Kept(bs) <==> exists k :: 0 <= k < |bs| && bs[k] == Some(e)
    decreases |bs|
  {
    if |bs| > 0 {
      var init := bs[..|bs| - 1];
      KeptMembers(init, e);
      if exists k :: 0 <= k < |bs| && bs[k] == Some(e) {
        var k :| 0 <= k < |bs| && bs[k] == Some(e);
        if k < |bs| - 1 {
          assert init[k] == Some(e);
        }
      }
      if exists k :: 0 <= k < |init| && init[k] == Some(e) {
        var k :| 0 <= k < |init| && init[k] == Some(e);
        assert bs[k] == Some(e);
      }
    }
  }

  /** Beat k sits at offset k times the beat duration. */
  ghost predicate OnBeats(m: Meter, bs: seq<Option<Entry>>) {
    forall k :: 0 <= k < |bs| && bs[k].Some? ==> bs[k].value.offset == Offset(m, k)
  }

  /** Keeping some of the beats keeps their order: offsets strictly increase and stay
      below the offset after the last beat. */
  lemma {:induction false} KeptOrdered(m: Meter, bs: seq<Option<Entry>>)
    requires m.beatDuration > 0.0 && OnBeats(m, bs)
    ensures var t := Kept(bs);
            && |t| <= |bs|
            && (forall i :: 0 <= i < |t| ==> t[i].offset < Offset(m, |bs|))
            && (forall i, j :: 0 <= i < j < |t| ==> t[i].offset < t[j].offset)
    decreases |bs|
  {
    if |bs| > 0 {
      var n := |bs|;
      var init := bs[..n - 1];
      assert OnBeats(m, init) by {
        forall k | 0 <= k < |init| && init[k].Some?
          ensures init[k].value.offset == Offset(m, k)
        {
          assert init[k] == bs[k];
        }
      }
      KeptOrdered(m, init);
      assert Offset(m, n - 1) < Offset(m, n) by {
        MulMonotone((n - 1) as real, n as real, m.beatDuration);
      }
    }
  }

  /** The entries of the analysis come in strictly increasing offset order, one at most
      per beat analyzed. */
  lemma AnalysisOrdered(score: Score, m: Meter, tonic: int, mode: string)
    requires Playable(m)
    ensures var t := Analysis(score, m, tonic, mode);
            && |t| <= BeatCount(score.highestTime, m.beatDuration)
            && (forall i, j :: 0 <= i < j < |t| ==> t[i].offset < t[j].offset)
  {
    var bs := Beats(score, m, tonic, mode, BeatCount(score.highestTime, m.beatDuration));
    KeptOrdered(m, bs);
  }

  /** Every entry of the analysis lies on a beat within the score: its bar and beat
      numbers count exactly the beats before its offset, its beat number lies in
      1..beats_per_measure, and it is the reading of that beat. */
  lemma EntryOnBeat(score: Score, m: Meter, tonic: int, mode: string, e: Entry)
    requires Playable(m)
    requires e in Analysis(score, m, tonic, mode)
    ensures 1 <= e.beat <= m.beatsPerMeasure && e.measure >= 1
    ensures var k := BeatIndex(m, e);
            && k >= 0 && e.offset == Offset(m, k) && e.offset < score.highestTime
            && EntryAt(score, m, tonic, mode, k) == Some(e)
  {
    var n := BeatCount(score.highestTime, m.beatDuration);
    var bs := Beats(score, m, tonic, mode, n);
    KeptMembers(bs, e);
    var k :| 0 <= k < |bs| && bs[k] == Some(e);
    assert EntryAt(score, m, tonic, mode, k) == Some(e);
    BeatAnalyzedIff(m, score.highestTime, k);
    PositionOfEntry(m, k, e);
  }

  /** An entry placed on beat index k carries the bar and beat numbers of k. */
  lemma PositionOfEntry(m: Meter, k: nat, e: Entry)
    requires m.beatsPerMeasure >= 1
    requires e.offset == Offset(m, k) && e.measure == MeasureOf(m, k) && e.beat == BeatOf(m, k)
    ensures 1 <= e.beat <= m.beatsPerMeasure && e.measure >= 1
    ensures BeatIndex(m, e) == k
  {
    BeatPosition(m, k);
  }

  /** The beat index an entry's bar and beat numbers name. */
  function BeatIndex(m: Meter, e: Entry): int {
    (e.measure - 1) * m.beatsPerMeasure + e.beat - 1
  }
}
