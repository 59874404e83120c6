/** The per-voice checks of one analysed beat: the pitch of each of the four voices
    (get_voice_pitches_at_offset), the adjacent-degree and voice-crossing warnings of
    check_voice_leading_issues, and the range warnings of check_critical_ranges. */
module VoiceLeading {
  import opened Base
  import opened Chords
  import opened Lilypond
  import opened Location
  import opened Timeline

  // ---------------------------------------------------------------------
  // The four voices and their pitches at a beat

  datatype Voice = Treble | Alto | Tenor | Bass

  /** Part 0 is the treble, 1 the alto, 2 the tenor and 3 the bass. */
  const VoiceOrder: seq<Voice> := [Treble, Alto, Tenor, Bass]

  function VoiceIndex(v: Voice): nat {
    match v
    case Treble => 0
    case Alto => 1
    case Tenor => 2
    case Bass => 3
  }

  function VoiceName(v: Voice): string {
    match v
    case Treble => "treble"
    case Alto => "alto"
    case Tenor => "tenor"
    case Bass => "bass"
  }

  /** The `voice_pitches` dictionary: the MIDI pitch of each voice at the beat, if any. */
  datatype Snapshot = Snapshot(treble: Option<int>, alto: Option<int>, tenor: Option<int>, bass: Option<int>)

  function PitchOf(s: Snapshot, v: Voice): Option<int> {
    match v
    case Treble => s.treble
    case Alto => s.alto
    case Tenor => s.tenor
    case Bass => s.bass
  }

  /** The pitch an element gives its voice: a note its pitch, a chord its first pitch; a
      chord without pitches and a rest give none and are skipped. */
  function ElementPitch(e: Element): (p: Option<int>)
    ensures p.Some? ==> p.value in ElementPitches(e)
  {
    match e
    case Note(p) => Some(p)
    case Chord(ps) => if |ps| > 0 then Some(ps[0]) else None
    case Rest => None
  }

  /** Each element with a pitch overwrites the one before: the last such element wins. */
  function LastPitch(part: Part): Option<int>
    decreases |part|
  {
    if |part| == 0 then None
    else
      match ElementPitch(part[|part| - 1])
      case Some(p) => Some(p)
      case None => LastPitch(part[..|part| - 1])
  }

  /** The pitch of part i, when the score has that many parts. */
  function PartPitch(parts: seq<Part>, i: nat): Option<int> {
    if i < |parts| then LastPitch(parts[i]) else None
  }

  /** get_voice_pitches_at_offset: the first four parts give the four voices; later parts
      are read but change nothing. */
  function SnapshotOf(parts: seq<Part>): Snapshot {
    Snapshot(PartPitch(parts, 0), PartPitch(parts, 1), PartPitch(parts, 2), PartPitch(parts, 3))
  }

  /** The loop of get_voice_pitches_at_offset. */
  method VoicePitches(parts: seq<Part>) returns (s: Snapshot)
    ensures s == SnapshotOf(parts)
  {
    var treble, alto, tenor, bass: Option<int> := None, None, None, None;
    for i := 0 to |parts|
      invariant treble == PartPitch(parts[..i], 0) && alto == PartPitch(parts[..i], 1)
      invariant tenor == PartPitch(parts[..i], 2) && bass == PartPitch(parts[..i], 3)
    {
      var part := parts[i];
      for j := 0 to |part|
        invariant i == 0 ==> treble == LastPitch(part[..j])
        invariant i == 1 ==> alto == LastPitch(part[..j])
        invariant i == 2 ==> tenor == LastPitch(part[..j])
        invariant i == 3 ==> bass == LastPitch(part[..j])
        invariant i != 0 ==> treble == PartPitch(parts[..i], 0)
        invariant i != 1 ==> alto == PartPitch(parts[..i], 1)
        invariant i != 2 ==> tenor == PartPitch(parts[..i], 2)
        invariant i != 3 ==> bass == PartPitch(parts[..i], 3)
      {
        assert part[..j + 1][..j] == part[..j];
        var pitch := ElementPitch(part[j]);
        if pitch.None? {
          continue;
        }
        if i == 0 {
          treble := pitch;
        } else if i == 1 {
          alto := pitch;
        } else if i == 2 {
          tenor := pitch;
        } else if i == 3 {
          bass := pitch;
        }
      }
      assert part[..|part|] == part;
      assert parts[..i + 1][i] == part;
      assert forall n :: 0 <= n < i ==> parts[..i + 1][n] == parts[..i][n];
    }
    assert parts[..|parts|] == parts;
    return Snapshot(treble, alto, tenor, bass);
  }

  /** A part gives no pitch exactly when none of its elements does. */
  lemma {:induction false} LastPitchNone(part: Part)
    ensures LastPitch(part).None? <==> forall j :: 0 <= j < |part| ==> ElementPitch(part[j]).None?
    decreases |part|
  {
    if |part| > 0 {
      var n := |part| - 1;
      LastPitchNone(part[..n]);
      assert forall j :: 0 <= j < n ==> part[j] == part[..n][j];
    }
  }

  /** A part's pitch is that of its last element carrying one: later elements carry none. */
  lemma {:induction false} LastPitchWins(part: Part) returns (j: nat)
    requires LastPitch(part).Some?
    ensures j < |part| && ElementPitch(part[j]) == LastPitch(part)
    ensures forall j' :: j < j' < |part| ==> ElementPitch(part[j']).None?
    decreases |part|
  {
    var n := |part| - 1;
    if ElementPitch(part[n]).Some? {
      j := n;
    } else {
      var init := part[..n];
      assert LastPitch(part) == LastPitch(init);
      j := LastPitchWins(init);
      assert forall j' :: j < j' < n ==> part[j'] == init[j'];
      assert part[j] == init[j];
    }
  }

  /** Every voice's pitch is one of the pitches the chord classifier hears at that beat. */
  lemma SnapshotPitchSounds(parts: seq<Part>, v: Voice)
    requires PitchOf(SnapshotOf(parts), v).Some?
    ensures PitchOf(SnapshotOf(parts), v).value in SoundingPitches(parts)
  {
    var i := VoiceIndex(v);
    var p := PitchOf(SnapshotOf(parts), v).value;
    assert PartPitch(parts, i) == Some(p);
    var j := LastPitchWins(parts[i]);
    SoundingPitchesMembers(parts, p);
  }

  /** Parts after the fourth do not change the voices. */
  lemma LaterPartsIgnored(parts: seq<Part>, extra: Part)
    requires |parts| >= 4
    ensures SnapshotOf(parts + [extra]) == SnapshotOf(parts)
  {
    assert forall i :: 0 <= i < 4 ==> (parts + [extra])[i] == parts[i];
  }

  // ---------------------------------------------------------------------
  // Warnings

  /** The adjacent degree pairs do-re, mi-fa and si-do. */
  datatype Pair = DoRe | MiFa | SiDo

  datatype RangeKind = Critical | TooLow | TooHigh

  datatype Register = High | Low

  /** The warnings of check_voice_leading_issues, by kind and with the values their
      messages print. `sustained` tells a SUSTAINED FATIGUE count from a FATIGUE WARNING
      run. */
  datatype Alert =
    | Adjacent(measure: int, beat: int, pair: Pair)
    | BassAboveTenor(measure: int, beat: int)
    | OutOfRange(measure: int, beat: int, voice: Voice, kind: RangeKind, midi: int, written: int,
                 location: Option<Location>, context: seq<string>)
    | Fatigue(voice: Voice, register: Register, sustained: bool, amount: int, startMeasure: int, endMeasure: int)
    | ParallelMotion(parallel: nat, total: nat)

  /** What the checks read besides the analysis: the score, the semitones that turn a
      sounding pitch into the written one, the LilyPond sections and source lines with the
      timing of section B, and the meter. */
  datatype Setting = Setting(score: Score, transpose: int, sections: map<string, Section>,
                             timing: Timing, source: seq<string>, meter: Meter)

  // ---------------------------------------------------------------------
  // Adjacent degrees and voice crossing

  function DegreesOfPair(p: Pair): (int, int) {
    match p
    case DoRe => (1, 2)
    case MiFa => (3, 4)
    case SiDo => (7, 1)
  }

  /** The pairs whose two degrees both occur, in the order do-re, mi-fa, si-do. */
  function PairsIn(degrees: seq<int>): (ps: seq<Pair>)
    ensures forall p :: p in ps <==> DegreesOfPair(p).0 in degrees && DegreesOfPair(p).1 in degrees
    ensures forall i, j :: 0 <= i < j < |ps| ==> ps[i] != ps[j]
  {
    (if 1 in degrees && 2 in degrees then [DoRe] else []) +
    (if 3 in degrees && 4 in degrees then [MiFa] else []) +
    (if 7 in degrees && 1 in degrees then [SiDo] else [])
  }

  /** The bass sounds above the tenor: both present and the bass higher. */
  predicate Crossing(s: Snapshot) {
    s.bass.Some? && s.tenor.Some? && s.bass.value > s.tenor.value
  }

  /** The warnings of the first loop of check_voice_leading_issues for one entry. */
  function LeadingAlerts(e: Entry, s: Snapshot): (alerts: seq<Alert>)
    ensures forall a :: a in alerts ==> a.Adjacent? || a.BassAboveTenor?
  {
    var ps := PairsIn(e.degrees);
    seq(|ps|, i requires 0 <= i < |ps| => Adjacent(e.measure, e.beat, ps[i])) +
    (if Crossing(s) then [BassAboveTenor(e.measure, e.beat)] else [])
  }

  /** The same for every entry, in order. */
  function AllLeadingAlerts(st: Setting, entries: seq<Entry>): seq<Alert>
    decreases |entries|
  {
    if |entries| == 0 then []
    else
      var e := entries[|entries| - 1];
      AllLeadingAlerts(st, entries[..|entries| - 1]) + LeadingAlerts(e, SnapshotOf(st.score.sounding(e.offset)))
  }

  /** The first loop of check_voice_leading_issues. */
  method CheckLeading(st: Setting, entries: seq<Entry>) returns (alerts: seq<Alert>)
    ensures alerts == AllLeadingAlerts(st, entries)
  {
    alerts := [];
    for i := 0 to |entries|
      invariant alerts == AllLeadingAlerts(st, entries[..i])
    {
      assert entries[..i + 1][..i] == entries[..i];
      var e := entries[i];
      var pairs := PairsIn(e.degrees);
      for j := 0 to |pairs|
        invariant alerts == AllLeadingAlerts(st, entries[..i]) +
                            seq(j, k requires 0 <= k < j => Adjacent(e.measure, e.beat, pairs[k]))
      {
        alerts := alerts + [Adjacent(e.measure, e.beat, pairs[j])];
      }
      var s := VoicePitches(st.score.sounding(e.offset));
      if s.bass.Some? && s.tenor.Some? {
        if s.bass.value > s.tenor.value {
          alerts := alerts + [BassAboveTenor(e.measure, e.beat)];
        }
      }
    }
    assert entries[..|entries|] == entries;
  }

  /** A crossing is reported exactly when the bass sounds above the tenor, and an adjacent
      pair exactly when both of its degrees sound. */
  lemma LeadingAlertsIff(e: Entry, s: Snapshot, p: Pair)
    ensures BassAboveTenor(e.measure, e.beat) in LeadingAlerts(e, s) <==> Crossing(s)
    ensures Adjacent(e.measure, e.beat, p) in LeadingAlerts(e, s) <==>
            DegreesOfPair(p).0 in e.degrees && DegreesOfPair(p).1 in e.degrees
  {
    var ps := PairsIn(e.degrees);
    var adj := seq(|ps|, i requires 0 <= i < |ps| => Adjacent(e.measure, e.beat, ps[i]));
    assert LeadingAlerts(e, s) == adj + (if Crossing(s) then [BassAboveTenor(e.measure, e.beat)] else []);
    if p in ps {
      var i :| 0 <= i < |ps| && ps[i] == p;
      assert adj[i] == Adjacent(e.measure, e.beat, p);
    }
  }

  /** An "Unknown" beat lists pitch classes, never two degrees of a pair, so it never
      draws an adjacent-degree warning. */
  lemma UnknownBeatNoPair(pitches: seq<int>, tonic: int, mode: string)
    requires Classify(pitches, tonic, mode).roman == Some(UnknownChord)
    ensures PairsIn(Classify(pitches, tonic, mode).degrees) == []
  {
    UnknownHasNoAdjacentPair(pitches, tonic, mode);
  }

  // ---------------------------------------------------------------------
  // Critical and extreme ranges

  /** One voice's entry of SACRED_HARP_RANGES. */
  datatype Range = Range(absoluteLow: int, absoluteHigh: int, percentile10: int, percentile90: int)

  function RangeOf(v: Voice): Range {
    match v
    case Treble => Range(63, 79, 68, 76)
    case Alto => Range(58, 79, 63, 71)
    case Tenor => Range(62, 81, 66, 76)
    case Bass => Range(43, 60, 47, 57)
  }

  /** The bass's `critical_low`, G2: no lower note can be sung. */
  const BassCriticalLow: int := 43

  /** Which range warning a written pitch draws: CRITICAL for a bass at or below G2,
      checked first; otherwise EXTREME below the lowest or above the highest note found
      in the repertoire. */
  function RangeKindOf(v: Voice, written: int): (k: Option<RangeKind>)
    ensures k == Some(Critical) <==> v == Bass && written <= BassCriticalLow
    ensures k == Some(TooLow) ==> written < RangeOf(v).absoluteLow
    ensures k == Some(TooHigh) ==> written > RangeOf(v).absoluteHigh
  {
    if v == Bass && written <= BassCriticalLow then Some(Critical)
    else if written < RangeOf(v).absoluteLow then Some(TooLow)
    else if written > RangeOf(v).absoluteHigh then Some(TooHigh)
    else None
  }

  /** The context shown with a located warning, as get_context_from_lilypond returns it. */
  function ContextOf(source: seq<string>, loc: Option<Location>): (ctx: Option<seq<string>>)
    ensures ctx.None? <==> loc.None? || |source| == 0
  {
    if loc.None? || |source| == 0 then None else Some(ContextWindow(source, loc.value.estimatedLine))
  }

  /** The range warning of voice v at an entry, if its written pitch draws one. The
      context is printed only when it holds lines. */
  function RangeAlert(st: Setting, e: Entry, s: Snapshot, v: Voice): (a: Option<Alert>)
    ensures a.Some? ==> a.value.OutOfRange? && a.value.voice == v && PitchOf(s, v).Some?
    ensures a.Some? ==> a.value.written == a.value.midi + st.transpose && a.value.midi == PitchOf(s, v).value
    ensures a.Some? <==> PitchOf(s, v).Some? && RangeKindOf(v, PitchOf(s, v).value + st.transpose).Some?
  {
    match PitchOf(s, v)
    case None => None
    case Some(midi) =>
      var written := midi + st.transpose;
      var loc := GetLocation(st.sections, st.timing, VoiceName(v), e.offset, e.measure, e.beat);
      match RangeKindOf(v, written)
      case None => None
      case Some(kind) =>
        var ctx := ContextOf(st.source, loc);
        Some(OutOfRange(e.measure, e.beat, v, kind, midi, written, loc, if ctx.Some? then ctx.value else []))
  }

  function AsList(a: Option<Alert>): seq<Alert> {
    if a.Some? then [a.value] else []
  }

  /** The range warnings of one entry, voice by voice in the order treble, alto, tenor, bass. */
  function EntryRangeAlerts(st: Setting, e: Entry, s: Snapshot): seq<Alert> {
    AsList(RangeAlert(st, e, s, Treble)) + AsList(RangeAlert(st, e, s, Alto)) +
    AsList(RangeAlert(st, e, s, Tenor)) + AsList(RangeAlert(st, e, s, Bass))
  }

  /** check_critical_ranges as a function of the entries. */
  function RangeAlerts(st: Setting, entries: seq<Entry>): seq<Alert>
    decreases |entries|
  {
    if |entries| == 0 then []
    else
      var e := entries[|entries| - 1];
      RangeAlerts(st, entries[..|entries| - 1]) + EntryRangeAlerts(st, e, SnapshotOf(st.score.sounding(e.offset)))
  }

  /** The body of the voice loop of check_critical_ranges: one voice at one entry. */
  method CheckVoiceRange(st: Setting, e: Entry, s: Snapshot, v: Voice) returns (a: Option<Alert>)
    ensures a == RangeAlert(st, e, s, v)
  {
    var pitch := PitchOf(s, v);
    if pitch.None? {
      return None;
    }
    var midi := pitch.value;
    var written := midi + st.transpose;
    var loc := GetLocation(st.sections, st.timing, VoiceName(v), e.offset, e.measure, e.beat);
    var kind := RangeKindOf(v, written);
    if kind.None? {
      return None;
    }
    var ctx := GetContext(st.source, loc);
    assert ctx == ContextOf(st.source, loc);
    var shown := if ctx.Some? then ctx.value else [];
    return Some(OutOfRange(e.measure, e.beat, v, kind.value, midi, written, loc, shown));
  }

  /** The voice loop of check_critical_ranges for one entry. */
  method CheckEntryRanges(st: Setting, e: Entry) returns (alerts: seq<Alert>)
    ensures alerts == EntryRangeAlerts(st, e, SnapshotOf(st.score.sounding(e.offset)))
  {
    var s := VoicePitches(st.score.sounding(e.offset));
    alerts := [];
    for i := 0 to 4
      invariant alerts == RangeAlertsUpTo(st, e, s, i)
    {
      var a := CheckVoiceRange(st, e, s, VoiceOrder[i]);
      if a.Some? {
        alerts := alerts + [a.value];
      }
    }
    AllVoices(st, e, s);
  }

  lemma AllVoices(st: Setting, e: Entry, s: Snapshot)
    ensures RangeAlertsUpTo(st, e, s, 4) == EntryRangeAlerts(st, e, s)
  {
    var t, a, n, b := AsList(RangeAlert(st, e, s, Treble)), AsList(RangeAlert(st, e, s, Alto)),
                      AsList(RangeAlert(st, e, s, Tenor)), AsList(RangeAlert(st, e, s, Bass));
    assert VoiceOrder[0] == Treble && VoiceOrder[1] == Alto && VoiceOrder[2] == Tenor && VoiceOrder[3] == Bass;
    assert RangeAlertsUpTo(st, e, s, 1) == [] + t;
    assert RangeAlertsUpTo(st, e, s, 2) == [] + t + a;
    assert RangeAlertsUpTo(st, e, s, 3) == [] + t + a + n;
    assert RangeAlertsUpTo(st, e, s, 4) == [] + t + a + n + b;
    assert [] + t == t;
  }

  /** The warnings of the first i voices. */
  function RangeAlertsUpTo(st: Setting, e: Entry, s: Snapshot, i: nat): seq<Alert>
    requires i <= 4
  {
    if i == 0 then [] else RangeAlertsUpTo(st, e, s, i - 1) + AsList(RangeAlert(st, e, s, VoiceOrder[i - 1]))
  }

  /** check_critical_ranges. */
  method CheckCriticalRanges(st: Setting, entries: seq<Entry>) returns (alerts: seq<Alert>)
    ensures alerts == RangeAlerts(st, entries)
  {
    alerts := [];
    for i := 0 to |entries|
      invariant alerts == RangeAlerts(st, entries[..i])
    {
      assert entries[..i + 1][..i] == entries[..i];
      var more := CheckEntryRanges(st, entries[i]);
      alerts := alerts + more;
    }
    assert entries[..|entries|] == entries;
  }

  /** The bass checks CRITICAL first, and its critical and absolute lows coincide, so a
      bass never draws the EXTREME low warning; only the bass draws CRITICAL. */
  lemma BassNeverTooLow(v: Voice, written: int)
    ensures v == Bass ==> RangeKindOf(v, written) != Some(TooLow)
    ensures RangeKindOf(v, written) == Some(Critical) <==> v == Bass && written <= BassCriticalLow
  {
  }

  /** A written pitch draws no range warning exactly when it lies within the voice's
      repertoire range (for the bass, strictly above G2). */
  lemma InRangeIff(v: Voice, written: int)
    ensures RangeKindOf(v, written).None? <==>
            RangeOf(v).absoluteLow <= written <= RangeOf(v).absoluteHigh && !(v == Bass && written <= BassCriticalLow)
  {
  }

  /** One entry draws at most one range warning per voice: its warnings come in strictly
      increasing voice order. */
  lemma OnePerVoice(st: Setting, e: Entry, s: Snapshot)
    ensures var alerts := EntryRangeAlerts(st, e, s);
            && |alerts| <= 4
            && (forall a :: a in alerts ==> a.OutOfRange?)
            && (forall i, j :: 0 <= i < j < |alerts| ==> VoiceIndex(alerts[i].voice) < VoiceIndex(alerts[j].voice))
  {
    var t, a, n, b := AsList(RangeAlert(st, e, s, Treble)), AsList(RangeAlert(st, e, s, Alto)),
                      AsList(RangeAlert(st, e, s, Tenor)), AsList(RangeAlert(st, e, s, Bass));
    var alerts := t + a + n + b;
    assert alerts == EntryRangeAlerts(st, e, s);
    forall i | 0 <= i < |alerts|
      ensures alerts[i].OutOfRange?
      ensures VoiceIndex(alerts[i].voice) >= (if i < |t| then 0 else if i < |t| + |a| then 1
                                             else if i < |t| + |a| + |n| then 2 else 3)
      ensures VoiceIndex(alerts[i].voice) <= (if i < |t| then 0 else if i < |t| + |a| then 1
                                             else if i < |t| + |a| + |n| then 2 else 3)
    {
    }
  }
}
