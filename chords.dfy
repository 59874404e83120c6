/** The chord classifier: the pitches sounding at one beat are reduced to
    pitch classes, moved into the analysis key, mapped to the seven diatonic
    scale degrees and named with a Roman numeral
    (analysis/sacred_harp_analyzer.py, get_chord_at_offset,
    identify_sacred_harp_chord and determine_chord_root_and_roman). */
module Chords {
  import opened Base

  /** One element of a part that overlaps a beat: a note, a chord, or
      anything without pitches (a rest). Pitches are MIDI numbers. */
  datatype Element = Note(pitch: int) | Chord(pitches: seq<int>) | Rest

  /** The elements of one voice part that overlap a beat, in score order. */
  type Part = seq<Element>

  /** A Roman numeral as the classifier produces it: the numeral of a degree in the
      major table, the numeral of a degree in the minor table, the "?<d>" name of a
      degree neither table lists, or "Unknown". `Name` spells each one. */
  datatype Numeral = InMajor(degree: int) | InMinor(degree: int) | Unlisted(degree: int) | UnknownChord

  /** Result of classifying one beat: the numeral (None when nothing sounds)
      and the sorted degree list (the sorted pitch classes when the numeral
      is "Unknown"). */
  datatype Reading = Reading(roman: Option<Numeral>, degrees: seq<int>)

  datatype RootAndRoman = RootAndRoman(root: Option<int>, roman: Numeral)

  /** Semitones above the tonic of the seven diatonic degrees. */
  const MajorScaleDegrees: map<int, int> :=
    map[0 := 1, 2 := 2, 4 := 3, 5 := 4, 7 := 5, 9 := 6, 11 := 7]

  const MajorRomanNumerals: map<int, string> :=
    map[1 := "I", 2 := "ii", 3 := "iii", 4 := "IV", 5 := "V", 6 := "vi", 7 := "vii°"]

  /** Natural minor. */
  const MinorRomanNumerals: map<int, string> :=
    map[1 := "i", 2 := "ii°", 3 := "III", 4 := "iv", 5 := "v", 6 := "VI", 7 := "VII"]

  /** A chord recognised by its exact degree set, with its root and numeral. */
  datatype Pattern = Pattern(degrees: seq<int>, root: int, numeral: Numeral)

  /** The recognised triads and dyads, in the order they are tried; their numerals
      are the major-table ones (I, vi, V, IV, ii, iii, vii°) whatever the mode. */
  const ExactChords: seq<Pattern> :=
    [Pattern([1, 3, 5], 1, InMajor(1)), Pattern([6, 1, 3], 6, InMajor(6)), Pattern([5, 7, 2], 5, InMajor(5)),
     Pattern([4, 6, 1], 4, InMajor(4)), Pattern([2, 4, 6], 2, InMajor(2)), Pattern([3, 5, 7], 3, InMajor(3)),
     Pattern([7, 2, 4], 7, InMajor(7)), Pattern([1, 5], 1, InMajor(1)), Pattern([1, 3], 1, InMajor(1)),
     Pattern([6, 3], 6, InMajor(6)), Pattern([5, 7], 5, InMajor(5)), Pattern([5, 2], 5, InMajor(5))]

  /** The spelling of a numeral. */
  function Name(n: Numeral): (s: string)
    ensures |s| > 0
  {
    match n
    case InMajor(d) => if d in MajorRomanNumerals then MajorRomanNumerals[d] else "?" + IntToString(d)
    case InMinor(d) => if d in MinorRomanNumerals then MinorRomanNumerals[d] else "?" + IntToString(d)
    case Unlisted(d) => "?" + IntToString(d)
    case UnknownChord => "Unknown"
  }

  // ---------------------------------------------------------------------
  // Gathering the sounding pitches of a beat (get_chord_at_offset)

  function ElementPitches(e: Element): seq<int> {
    match e
    case Note(p) => [p]
    case Chord(ps) => ps
    case Rest => []
  }

  /** The pitches of one part's elements, in order; a chord contributes all of its pitches. */
  function PartPitches(part: Part): seq<int>
    decreases |part|
  {
    if |part| == 0 then [] else PartPitches(part[..|part| - 1]) + ElementPitches(part[|part| - 1])
  }

  /** The pitches of all parts (all four voices and any others), part by part. */
  function SoundingPitches(parts: seq<Part>): seq<int>
    decreases |parts|
  {
    if |parts| == 0 then [] else SoundingPitches(parts[..|parts| - 1]) + PartPitches(parts[|parts| - 1])
  }

  /** A pitch sounds at a beat exactly when some element of some part carries it. */
  lemma {:induction false} SoundingPitchesMembers(parts: seq<Part>, p: int)
    ensures p in SoundingPitches(parts) <==>
            exists i, j :: 0 <= i < |parts| && 0 <= j < |parts[i]| && p in ElementPitches(parts[i][j])
    decreases |parts|
  {
    if |parts| > 0 {
      var last := parts[|parts| - 1];
      SoundingPitchesMembers(parts[..|parts| - 1], p);
      PartPitchesMembers(last, p);
      if p in SoundingPitches(parts) {
        if p in PartPitches(last) {
          var j :| 0 <= j < |last| && p in ElementPitches(last[j]);
          assert 0 <= |parts| - 1 < |parts| && p in ElementPitches(parts[|parts| - 1][j]);
        } else {
          var i, j :| 0 <= i < |parts| - 1 && 0 <= j < |parts[..|parts| - 1][i]|
                      && p in ElementPitches(parts[..|parts| - 1][i][j]);
          assert p in ElementPitches(parts[i][j]);
        }
      }
      if exists i, j :: 0 <= i < |parts| && 0 <= j < |parts[i]| && p in ElementPitches(parts[i][j]) {
        var i, j :| 0 <= i < |parts| && 0 <= j < |parts[i]| && p in ElementPitches(parts[i][j]);
        if i < |parts| - 1 {
          assert parts[..|parts| - 1][i] == parts[i];
        }
      }
    }
  }

  lemma {:induction false} PartPitchesMembers(part: Part, p: int)
    ensures p in PartPitches(part) <==> exists j :: 0 <= j < |part| && p in ElementPitches(part[j])
    decreases |part|
  {
    if |part| > 0 {
      PartPitchesMembers(part[..|part| - 1], p);
      if exists j :: 0 <= j < |part| && p in ElementPitches(part[j]) {
        var j :| 0 <= j < |part| && p in ElementPitches(part[j]);
        if j < |part| - 1 {
          assert part[..|part| - 1][j] == part[j];
        }
      }
      if p in PartPitches(part[..|part| - 1]) {
        var j :| 0 <= j < |part| - 1 && p in ElementPitches(part[..|part| - 1][j]);
        assert p in ElementPitches(part[j]);
      }
    }
  }

  /** get_chord_at_offset's collecting loop: every part, every element, all its pitches. */
  method GatherPitches(parts: seq<Part>) returns (pitches: seq<int>)
    ensures pitches == SoundingPitches(parts)
  {
    pitches := [];
    for i := 0 to |parts|
      invariant pitches == SoundingPitches(parts[..i])
    {
      var part := parts[i];
      ghost var before := pitches;
      for j := 0 to |part|
        invariant pitches == before + PartPitches(part[..j])
      {
        assert part[..j + 1][..j] == part[..j];
        match part[j]
        case Note(p) =>
          pitches := pitches + [p];
        case Chord(ps) =>
          pitches := pitches + ps;
        case Rest =>
      }
      assert part[..|part|] == part;
      assert parts[..i + 1][..i] == parts[..i];
    }
    assert parts[..|parts|] == parts;
  }

  // ---------------------------------------------------------------------
  // Pitch classes and scale degrees

  function PitchClass(midi: int): int {
    midi % 12
  }

  /** Semitones above the tonic, as `(pc - tonic) % 12` (Python's and Dafny's % agree here). */
  function Transposed(pc: int, tonic: int): int {
    (pc - tonic) % 12
  }

  /** The scale degree of a pitch class in the analysis key, if it is diatonic. */
  function DegreeOf(pc: int, tonic: int): (d: Option<int>)
    ensures d.Some? ==> 1 <= d.value <= 7
  {
    var t := Transposed(pc, tonic);
    if t in MajorScaleDegrees then Some(MajorScaleDegrees[t]) else None
  }

  /** `[p.pitchClass for p in pitches]`. */
  function PitchClasses(pitches: seq<int>): (pcs: seq<int>)
    ensures |pcs| == |pitches|
    ensures forall i :: 0 <= i < |pitches| ==> pcs[i] == PitchClass(pitches[i])
  {
    seq(|pitches|, i requires 0 <= i < |pitches| => PitchClass(pitches[i]))
  }

  /** `sorted(list(set(pitch_classes)))`. */
  function UniquePitchClasses(pitches: seq<int>): seq<int> {
    Ascending(PitchClasses(pitches), 0, 12)
  }

  /** The degrees of the diatonic pitch classes of `pcs`, in the order of `pcs`. */
  function DegreeList(pcs: seq<int>, tonic: int): seq<int>
    decreases |pcs|
  {
    if |pcs| == 0 then []
    else
      var rest := DegreeList(pcs[..|pcs| - 1], tonic);
      match DegreeOf(pcs[|pcs| - 1], tonic)
      case Some(d) => rest + [d]
      case None => rest
  }

  /** A pitch class occurs in a list and has degree `d`. */
  predicate HasDegree(pcs: seq<int>, tonic: int, d: int) {
    exists i :: 0 <= i < |pcs| && DegreeOf(pcs[i], tonic) == Some(d)
  }

  lemma {:induction false} DegreeListMembers(pcs: seq<int>, tonic: int, d: int)
    ensures d in DegreeList(pcs, tonic) <==> HasDegree(pcs, tonic, d)
    decreases |pcs|
  {
    if |pcs| > 0 {
      var init := pcs[..|pcs| - 1];
      DegreeListMembers(init, tonic, d);
      if HasDegree(init, tonic, d) {
        var i :| 0 <= i < |init| && DegreeOf(init[i], tonic) == Some(d);
        assert DegreeOf(pcs[i], tonic) == Some(d);
      }
      if HasDegree(pcs, tonic, d) {
        var i :| 0 <= i < |pcs| && DegreeOf(pcs[i], tonic) == Some(d);
        if i < |init| {
          assert DegreeOf(init[i], tonic) == Some(d);
        }
      }
    }
  }

  // ---------------------------------------------------------------------
  // Degree sets and the numeral table

  /** Slot of a value in a degree signature: the degree itself, or 0 for anything outside 1..7. */
  function Slot(x: int): int {
    if 1 <= x <= 7 then x else 0
  }

  /** The set of a degree list, as eight flags: flag d (1..7) says whether degree d occurs,
      flag 0 whether any value outside 1..7 occurs. Two lists have equal signatures exactly
      when `set(...)` of them are equal, provided one holds degrees only (SignatureIff). */
  function Signature(ds: seq<int>): (sig: seq<bool>)
    ensures |sig| == 8
    decreases |ds|
  {
    if |ds| == 0 then [false, false, false, false, false, false, false, false]
    else Signature(ds[..|ds| - 1])[Slot(ds[|ds| - 1]) := true]
  }

  lemma {:induction false} SignatureMembers(ds: seq<int>)
    ensures forall d :: 1 <= d <= 7 ==> (Signature(ds)[d] <==> d in ds)
    ensures Signature(ds)[0] <==> exists i :: 0 <= i < |ds| && Slot(ds[i]) == 0
    decreases |ds|
  {
    if |ds| > 0 {
      var init := ds[..|ds| - 1];
      SignatureMembers(init);
      assert ds == init + [ds[|ds| - 1]];
      if exists i :: 0 <= i < |ds| && Slot(ds[i]) == 0 {
        var i :| 0 <= i < |ds| && Slot(ds[i]) == 0;
        if i < |init| {
          assert Slot(init[i]) == 0;
        }
      }
      if exists i :: 0 <= i < |init| && Slot(init[i]) == 0 {
        var i :| 0 <= i < |init| && Slot(init[i]) == 0;
        assert Slot(ds[i]) == 0;
      }
    }
  }

  /** Signatures decide set equality against a list of degrees. */
  lemma SignatureIff(ds: seq<int>, es: seq<int>)
    requires forall i :: 0 <= i < |es| ==> 1 <= es[i] <= 7
    ensures Signature(ds) == Signature(es) <==> Elements(ds) == Elements(es)
  {
    SignatureMembers(ds);
    SignatureMembers(es);
    if Elements(ds) == Elements(es) {
      forall i | 0 <= i < |ds| ensures Slot(ds[i]) != 0 {
        assert ds[i] in Elements(es);
      }
      forall k | 0 <= k < 8 ensures Signature(ds)[k] == Signature(es)[k] {
        if k > 0 {
          assert k in ds <==> k in Elements(ds);
          assert k in es <==> k in Elements(es);
        }
      }
    }
    if Signature(ds) == Signature(es) {
      forall x ensures x in Elements(ds) <==> x in Elements(es) {
        if x in ds {
          assert Slot(x) != 0;
        }
      }
    }
  }

  /** The first pattern, from entry k on, whose degree set has signature `sig`. */
  function ExactMatch(sig: seq<bool>, k: nat): (r: Option<Pattern>)
    ensures r.Some? ==> exists j :: k <= j < |ExactChords| && r.value == ExactChords[j]
                                    && Signature(ExactChords[j].degrees) == sig
                                    && forall i :: k <= i < j ==> Signature(ExactChords[i].degrees) != sig
    ensures r.None? ==> forall j :: k <= j < |ExactChords| ==> Signature(ExactChords[j].degrees) != sig
    decreases |ExactChords| - k
  {
    if k >= |ExactChords| then None
    else if Signature(ExactChords[k].degrees) == sig then Some(ExactChords[k])
    else ExactMatch(sig, k + 1)
  }

  /** The numeral of a single root degree in the active mode: only "major" selects the
      major table, every other mode the minor one; a degree outside 1..7 reads "?<d>". */
  function NumeralFor(degree: int, mode: string): RootAndRoman {
    RootAndRoman(Some(degree),
                 if !(1 <= degree <= 7) then Unlisted(degree)
                 else if mode == "major" then InMajor(degree)
                 else InMinor(degree))
  }

  function MinOf(xs: seq<int>): (m: int)
    requires |xs| > 0
    ensures m in xs && forall x :: x in xs ==> m <= x
    decreases |xs|
  {
    if |xs| == 1 then xs[0]
    else
      var rest := MinOf(xs[1..]);
      assert forall x :: x in xs ==> x == xs[0] || x in xs[1..];
      if xs[0] <= rest then xs[0] else rest
  }

  /** determine_chord_root_and_roman: the exact triads and dyads of the table, tried in
      order, then a single degree as root, then the lowest degree as root. */
  function DetermineRoman(degrees: seq<int>, mode: string): (r: RootAndRoman)
    ensures r.root.Some? <==> |degrees| > 0
    ensures |degrees| == 0 ==> r.roman == UnknownChord
  {
    if |degrees| == 0 then RootAndRoman(None, UnknownChord)
    else
      match ExactMatch(Signature(degrees), 0)
      case Some(p) => RootAndRoman(Some(p.root), p.numeral)
      case None => NumeralFor(RootDegree(degrees), mode)
  }

  /** The root assumed when no pattern matches: the single degree, else the lowest one. */
  function RootDegree(degrees: seq<int>): (d: int)
    requires |degrees| > 0
    ensures d == MinOf(degrees)
  {
    if |degrees| == 1 then degrees[0] else MinOf(degrees)
  }
  /** `sorted(list(set(scale_degrees)))` for the sounding pitches. */
  function DegreesOf(pitches: seq<int>, tonic: int): seq<int> {
    Ascending(DegreeList(UniquePitchClasses(pitches), tonic), 1, 8)
  }

  /** identify_sacred_harp_chord, as a function of the sounding pitches and the key. */
  function Classify(pitches: seq<int>, tonic: int, mode: string): (r: Reading)
    ensures r.roman.None? <==> |pitches| == 0
    ensures |pitches| == 0 ==> r.degrees == []
  {
    if |pitches| == 0 then Reading(None, [])
    else
      var degrees := DegreesOf(pitches, tonic);
      if degrees == [] then Reading(Some(UnknownChord), UniquePitchClasses(pitches))
      else Reading(Some(DetermineRoman(degrees, mode).roman), degrees)
  }

  /** The degree-collecting loop of identify_sacred_harp_chord. */
  method CollectDegrees(unique: seq<int>, tonic: int) returns (degrees: seq<int>)
    ensures degrees == DegreeList(unique, tonic)
  {
    degrees := [];
    for i := 0 to |unique|
      invariant degrees == DegreeList(unique[..i], tonic)
    {
      assert unique[..i + 1][..i] == unique[..i];
      var t := Transposed(unique[i], tonic);
      if t in MajorScaleDegrees {
        degrees := degrees + [MajorScaleDegrees[t]];
      }
    }
    assert unique[..|unique|] == unique;
  }

  /** identify_sacred_harp_chord: degrees of the sorted unique pitch classes, then the numeral. */
  method IdentifyChord(pitches: seq<int>, tonic: int, mode: string) returns (r: Reading)
    ensures r == Classify(pitches, tonic, mode)
  {
    if |pitches| == 0 {
      return Reading(None, []);
    }
    var unique := UniquePitchClasses(pitches);
    var degrees := CollectDegrees(unique, tonic);
    var sortedDegrees := Ascending(degrees, 1, 8);
    assert sortedDegrees == DegreesOf(pitches, tonic);
    if sortedDegrees == [] {
      return Reading(Some(UnknownChord), unique);
    }
    r := Reading(Some(DetermineRoman(sortedDegrees, mode).roman), sortedDegrees);
  }

  /** get_chord_at_offset: nothing sounding gives (None, []), otherwise the classification. */
  method ChordAtOffset(parts: seq<Part>, tonic: int, mode: string) returns (r: Reading)
    ensures r == Classify(SoundingPitches(parts), tonic, mode)
  {
    var pitches := GatherPitches(parts);
    if |pitches| == 0 {
      r := Reading(None, []);
    } else {
      r := IdentifyChord(pitches, tonic, mode);
    }
  }

  // ---------------------------------------------------------------------
  // Properties of the classifier

  /** A pitch class has a degree exactly when it lies 0, 2, 4, 5, 7, 9 or 11 semitones above the tonic. */
  lemma DiatonicOffsets(pc: int, tonic: int)
    ensures DegreeOf(pc, tonic).Some? <==> Transposed(pc, tonic) in {0, 2, 4, 5, 7, 9, 11}
  {
  }

  /** Some sounding pitch has pitch class `pc`. */
  predicate Sounds(pitches: seq<int>, pc: int) {
    exists i :: 0 <= i < |pitches| && PitchClass(pitches[i]) == pc
  }

  /** The sorted unique pitch classes are exactly the pitch classes that sound. */
  lemma UniqueMembers(pitches: seq<int>, pc: int)
    ensures pc in UniquePitchClasses(pitches) <==> Sounds(pitches, pc)
  {
    var pcs := PitchClasses(pitches);
    if Sounds(pitches, pc) {
      var i :| 0 <= i < |pitches| && PitchClass(pitches[i]) == pc;
      assert pcs[i] == pc;
    }
    if pc in UniquePitchClasses(pitches) {
      var i :| 0 <= i < |pcs| && pcs[i] == pc;
    }
  }

  /** A degree is in the sorted degree list exactly when some sounding pitch has it. */
  lemma DegreesOfMembers(pitches: seq<int>, tonic: int, d: int)
    ensures d in DegreesOf(pitches, tonic) <==>
            exists i :: 0 <= i < |pitches| && DegreeOf(PitchClass(pitches[i]), tonic) == Some(d)
  {
    var unique := UniquePitchClasses(pitches);
    var list := DegreeList(unique, tonic);
    DegreeListMembers(unique, tonic, d);
    if d in DegreesOf(pitches, tonic) {
      var k :| 0 <= k < |unique| && DegreeOf(unique[k], tonic) == Some(d);
      UniqueMembers(pitches, unique[k]);
    }
    if exists i :: 0 <= i < |pitches| && DegreeOf(PitchClass(pitches[i]), tonic) == Some(d) {
      var i :| 0 <= i < |pitches| && DegreeOf(PitchClass(pitches[i]), tonic) == Some(d);
      var pc := PitchClass(pitches[i]);
      UniqueMembers(pitches, pc);
      var k :| 0 <= k < |unique| && unique[k] == pc;
      assert HasDegree(unique, tonic, d);
    }
  }

  /** The degree list of a named reading: degrees 1..7, strictly ascending (sorted and
      duplicate-free), and a degree is present exactly when some sounding pitch has it. */
  lemma ReadingDegrees(pitches: seq<int>, tonic: int, mode: string, d: int)
    requires Classify(pitches, tonic, mode).roman.Some?
    requires Classify(pitches, tonic, mode).roman.value != UnknownChord
    ensures var r := Classify(pitches, tonic, mode);
            && (forall i :: 0 <= i < |r.degrees| ==> 1 <= r.degrees[i] <= 7)
            && (forall i, j :: 0 <= i < j < |r.degrees| ==> r.degrees[i] < r.degrees[j])
            && (d in r.degrees <==>
                exists i :: 0 <= i < |pitches| && DegreeOf(PitchClass(pitches[i]), tonic) == Some(d))
  {
    assert Classify(pitches, tonic, mode).degrees == DegreesOf(pitches, tonic);
    DegreesOfMembers(pitches, tonic, d);
  }

  /** The reading depends only on which pitch classes sound: not on octave,
      doubling or the order in which parts and elements list their pitches. */
  lemma ClassifyByPitchClasses(p: seq<int>, q: seq<int>, tonic: int, mode: string)
    requires forall pc :: Sounds(p, pc) <==> Sounds(q, pc)
    ensures Classify(p, tonic, mode) == Classify(q, tonic, mode)
  {
    forall pc | 0 <= pc < 12 ensures pc in PitchClasses(p) <==> pc in PitchClasses(q) {
      UniqueMembers(p, pc);
      UniqueMembers(q, pc);
    }
    AscendingExtensional(PitchClasses(p), PitchClasses(q), 0, 12);
    assert |p| > 0 <==> |q| > 0 by {
      if |q| > 0 {
        assert Sounds(q, PitchClass(q[0]));
      }
      if |p| > 0 {
        assert Sounds(p, PitchClass(p[0]));
      }
    }
  }

  /** Every table entry lists degrees 1..7 only. */
  lemma PatternsAreDegrees(k: int)
    requires 0 <= k < |ExactChords|
    ensures forall i :: 0 <= i < |ExactChords[k].degrees| ==> 1 <= ExactChords[k].degrees[i] <= 7
  {
  }

  /** The first table entry with the same degree set decides the result, whatever the mode. */
  lemma DetermineRomanByTable(degrees: seq<int>, mode: string, k: int)
    requires 0 <= k < |ExactChords| && Elements(degrees) == Elements(ExactChords[k].degrees)
    requires forall j :: 0 <= j < k ==> Elements(degrees) != Elements(ExactChords[j].degrees)
    ensures DetermineRoman(degrees, mode) == RootAndRoman(Some(ExactChords[k].root), ExactChords[k].numeral)
  {
    assert |degrees| > 0 by {
      assert ExactChords[k].degrees[0] in Elements(ExactChords[k].degrees);
    }
    var sig := Signature(degrees);
    assert Signature(ExactChords[k].degrees) == sig by {
      PatternsAreDegrees(k);
      SignatureIff(degrees, ExactChords[k].degrees);
    }
    forall j | 0 <= j < k ensures Signature(ExactChords[j].degrees) != sig {
      PatternsAreDegrees(j);
      SignatureIff(degrees, ExactChords[j].degrees);
    }
    ExactMatchFinds(sig, 0, k);
  }

  /** The search from entry s stops at the first matching entry k. */
  lemma {:induction false} ExactMatchFinds(sig: seq<bool>, s: nat, k: int)
    requires s <= k < |ExactChords| && Signature(ExactChords[k].degrees) == sig
    requires forall j :: s <= j < k ==> Signature(ExactChords[j].degrees) != sig
    ensures ExactMatch(sig, s) == Some(ExactChords[k])
    decreases k - s
  {
    if s < k {
      ExactMatchFinds(sig, s + 1, k);
    }
  }

  /** A non-empty list whose set matches no table entry is named by the numeral of its
      lowest degree in the mode's table (this covers the single-degree case). */
  lemma DetermineRomanLowest(degrees: seq<int>, mode: string)
    requires |degrees| > 0
    requires forall k :: 0 <= k < |ExactChords| ==> Elements(degrees) != Elements(ExactChords[k].degrees)
    ensures DetermineRoman(degrees, mode) == NumeralFor(MinOf(degrees), mode)
  {
    NoTableMatch(degrees);
  }

  /** A list whose set matches no table entry finds no entry in the search. */
  lemma NoTableMatch(degrees: seq<int>)
    requires forall k :: 0 <= k < |ExactChords| ==> Elements(degrees) != Elements(ExactChords[k].degrees)
    ensures ExactMatch(Signature(degrees), 0).None?
  {
    var sig := Signature(degrees);
    if ExactMatch(sig, 0).Some? {
      var j :| 0 <= j < |ExactChords| && ExactMatch(sig, 0).value == ExactChords[j]
               && Signature(ExactChords[j].degrees) == sig
               && forall i :: 0 <= i < j ==> Signature(ExactChords[i].degrees) != sig;
      PatternsAreDegrees(j);
      SignatureIff(degrees, ExactChords[j].degrees);
    }
  }

  /** The spellings of the major and minor tables are fourteen different names, none of
      them "Unknown" and none starting with '?', so `Name` is one-to-one on the numerals
      the classifier produces. */
  lemma NameInjective(m: Numeral, n: Numeral)
    requires Produced(m) && Produced(n) && Name(m) == Name(n)
    ensures m == n
  {
    if m.Unlisted? || n.Unlisted? {
      UnlistedName(m);
      UnlistedName(n);
      if m.Unlisted? && n.Unlisted? {
        var s := Name(m);
        assert s[1..] == IntToString(m.degree) && s[1..] == IntToString(n.degree);
        IntToStringInjective(m.degree, n.degree);
      }
    }
  }

  /** Numerals the classifier can produce: table numerals name degrees 1..7, only
      degrees outside 1..7 are unlisted. */
  predicate Produced(n: Numeral) {
    match n
    case InMajor(d) => 1 <= d <= 7
    case InMinor(d) => 1 <= d <= 7
    case Unlisted(d) => !(1 <= d <= 7)
    case UnknownChord => true
  }

  /** Exactly the unlisted numerals are spelled with a leading '?'. */
  lemma UnlistedName(n: Numeral)
    requires Produced(n)
    ensures Name(n)[0] == '?' <==> n.Unlisted?
    ensures n.Unlisted? ==> Name(n) == "?" + IntToString(n.degree)
  {
  }

  /** A non-empty degree list never reads "Unknown", and its numeral is one the classifier can produce. */
  lemma DetermineRomanProduced(degrees: seq<int>, mode: string)
    requires |degrees| > 0
    ensures DetermineRoman(degrees, mode).roman != UnknownChord
    ensures Produced(DetermineRoman(degrees, mode).roman)
  {
    var m := ExactMatch(Signature(degrees), 0);
    if m.Some? {
      var j :| 0 <= j < |ExactChords| && m.value == ExactChords[j];
      PatternsMajorStyle(j);
    }
  }

  /** In the major mode, degrees 1..7 always read as a major-table numeral of a degree 1..7. */
  lemma MajorModeReadsMajor(degrees: seq<int>)
    requires |degrees| > 0
    requires forall i :: 0 <= i < |degrees| ==> 1 <= degrees[i] <= 7
    ensures var n := DetermineRoman(degrees, "major").roman;
            n.InMajor? && 1 <= n.degree <= 7
  {
    var m := ExactMatch(Signature(degrees), 0);
    if m.Some? {
      var j :| 0 <= j < |ExactChords| && m.value == ExactChords[j];
      PatternsMajorStyle(j);
    } else {
      assert 1 <= RootDegree(degrees) <= 7;
    }
  }

  /** The numeral of each table entry is the major-table numeral of its root, a degree 1..7. */
  lemma PatternsMajorStyle(j: int)
    requires 0 <= j < |ExactChords|
    ensures ExactChords[j].numeral == InMajor(ExactChords[j].root) && 1 <= ExactChords[j].root <= 7
  {
  }

  /** No sounding pitch has a degree exactly when the reading is "Unknown"; such a
      reading lists the sorted unique pitch classes in place of degrees. */
  lemma UnknownIffNoDegree(pitches: seq<int>, tonic: int, mode: string)
    requires |pitches| > 0
    ensures Classify(pitches, tonic, mode).roman == Some(UnknownChord) <==>
            forall i :: 0 <= i < |pitches| ==> DegreeOf(PitchClass(pitches[i]), tonic).None?
    ensures Classify(pitches, tonic, mode).roman == Some(UnknownChord) ==>
            Classify(pitches, tonic, mode).degrees == UniquePitchClasses(pitches)
  {
    var ds := DegreesOf(pitches, tonic);
    if forall i :: 0 <= i < |pitches| ==> DegreeOf(PitchClass(pitches[i]), tonic).None? {
      if ds != [] {
        DegreesOfMembers(pitches, tonic, ds[0]);
      }
    } else {
      var i :| 0 <= i < |pitches| && DegreeOf(PitchClass(pitches[i]), tonic).Some?;
      DegreesOfMembers(pitches, tonic, DegreeOf(PitchClass(pitches[i]), tonic).value);
      DetermineRomanProduced(ds, mode);
    }
  }

  /** A beat with sounding pitches always gets a numeral the classifier can produce
      (and its spelling is never empty); a silent beat gets none. */
  lemma SoundingIffNamed(pitches: seq<int>, tonic: int, mode: string)
    ensures var r := Classify(pitches, tonic, mode);
            && (r.roman.Some? <==> |pitches| > 0)
            && (r.roman.Some? ==> Produced(r.roman.value) && Name(r.roman.value) != "")
  {
    if |pitches| > 0 && DegreesOf(pitches, tonic) != [] {
      DetermineRomanProduced(DegreesOf(pitches, tonic), mode);
    }
  }

  /** Of two pitch classes a semitone or a tritone apart, at most one is chromatic
      (lies 1, 3, 6, 8 or 10 semitones above the tonic). */
  lemma ChromaticNeighbours(pc: int, tonic: int)
    ensures Transposed(pc, tonic) in {1, 3, 6, 8, 10} ==> Transposed(pc + 1, tonic) !in {1, 3, 6, 8, 10}
    ensures Transposed(pc, tonic) in {1, 3, 6, 8, 10} ==> Transposed(pc - 6, tonic) !in {1, 3, 6, 8, 10}
  {
  }

  /** Pitch classes none of which has a degree contain no do-re, mi-fa or si-do pair. */
  lemma ChromaticHasNoPair(pcs: seq<int>, tonic: int)
    requires forall i :: 0 <= i < |pcs| ==> DegreeOf(pcs[i], tonic).None?
    ensures !(1 in pcs && 2 in pcs) && !(3 in pcs && 4 in pcs) && !(7 in pcs && 1 in pcs)
  {
    forall pc | pc in pcs ensures Transposed(pc, tonic) in {1, 3, 6, 8, 10} {
      DiatonicOffsets(pc, tonic);
    }
    ChromaticNeighbours(1, tonic);
    ChromaticNeighbours(3, tonic);
    ChromaticNeighbours(7, tonic);
  }

  /** An "Unknown" reading lists chromatic pitch classes in its degree field, and no two
      of them form the do-re, mi-fa or si-do pairs the voice-leading check looks for. */
  lemma UnknownHasNoAdjacentPair(pitches: seq<int>, tonic: int, mode: string)
    requires Classify(pitches, tonic, mode).roman == Some(UnknownChord)
    ensures var ds := Classify(pitches, tonic, mode).degrees;
            !(1 in ds && 2 in ds) && !(3 in ds && 4 in ds) && !(7 in ds && 1 in ds)
  {
    UnknownIffNoDegree(pitches, tonic, mode);
    var unique := UniquePitchClasses(pitches);
    assert Classify(pitches, tonic, mode).degrees == unique;
    forall k | 0 <= k < |unique| ensures DegreeOf(unique[k], tonic).None? {
      UniqueMembers(pitches, unique[k]);
    }
    ChromaticHasNoPair(unique, tonic);
  }

  /** The tonic triad reads "I" in every mode, the minor mode included. */
  lemma TonicTriadReadsMajor(mode: string)
    ensures DetermineRoman([1, 3, 5], mode) == RootAndRoman(Some(1), InMajor(1))
  {
    DetermineRomanByTable([1, 3, 5], mode, 0);
  }

  /** Every table entry has at least two distinct degrees. */
  lemma PatternsHaveTwoDegrees(k: int)
    requires 0 <= k < |ExactChords|
    ensures |ExactChords[k].degrees| >= 2 && ExactChords[k].degrees[0] != ExactChords[k].degrees[1]
  {
  }

  /** A lone degree is its own root, named from the mode's table: the minor table for
      every mode other than "major". */
  lemma LoneDegree(d: int, mode: string)
    ensures DetermineRoman([d], mode) == NumeralFor(d, mode)
  {
    forall k | 0 <= k < |ExactChords| ensures Elements([d]) != Elements(ExactChords[k].degrees) {
      PatternsHaveTwoDegrees(k);
      var es := ExactChords[k].degrees;
      assert es[0] in Elements(es) && es[1] in Elements(es);
    }
    DetermineRomanLowest([d], mode);
  }
}
