/** The analyzer object: loading the LilyPond source and the MIDI file into its fields,
    gathering every voice-leading warning (check_voice_leading_issues) and the whole
    analysis run with the lines it logs (run_analysis). */
module Analyzer {
  import opened Base
  import opened Chords
  import opened Rules
  import opened Lilypond
  import opened Directives
  import opened Location
  import opened Timeline
  import opened VoiceLeading
  import opened VocalFatigue
  import opened Motion

  // ---------------------------------------------------------------------
  // All voice-leading warnings

  /** check_voice_leading_issues: the adjacent-degree and crossing warnings beat by beat,
      then the range, fatigue and contrary-motion warnings. */
  function VoiceLeadingAlerts(st: Setting, entries: seq<Entry>): seq<Alert>
    requires st.meter.beatsPerMeasure >= 1
  {
    AllLeadingAlerts(st, entries) + RangeAlerts(st, entries) + FatigueAlerts(st, entries) + ContraryAlerts(st, entries)
  }

  method CheckVoiceLeadingIssues(st: Setting, entries: seq<Entry>) returns (warnings: seq<Alert>)
    requires st.meter.beatsPerMeasure >= 1
    ensures warnings == VoiceLeadingAlerts(st, entries)
  {
    warnings := CheckLeading(st, entries);
    var critical := CheckCriticalRanges(st, entries);
    warnings := warnings + critical;
    var fatigue := CheckVocalFatigue(st, entries);
    warnings := warnings + fatigue;
    var contrary := CheckContraryMotion(st, entries);
    warnings := warnings + contrary;
  }

  /** The warnings fall into the four checks' kinds: adjacent degrees and crossings first,
      then range, fatigue and parallel-motion warnings, never interleaved. Fewer than eight
      beats draw no fatigue warning, fewer than two no motion warning. */
  lemma VoiceLeadingOrder(st: Setting, entries: seq<Entry>)
    requires st.meter.beatsPerMeasure >= 1
    ensures var w := VoiceLeadingAlerts(st, entries);
            var a, r, f := |AllLeadingAlerts(st, entries)|, |RangeAlerts(st, entries)|, |FatigueAlerts(st, entries)|;
            && (forall i :: 0 <= i < a ==> w[i].Adjacent? || w[i].BassAboveTenor?)
            && (forall i :: a <= i < a + r ==> w[i].OutOfRange?)
            && (forall i :: a + r <= i < a + r + f ==> w[i].Fatigue?)
            && (forall i :: a + r + f <= i < |w| ==> w[i].ParallelMotion?)
    ensures |entries| < WindowSize ==> FatigueAlerts(st, entries) == []
    ensures |entries| < 2 ==> ContraryAlerts(st, entries) == []
  {
    LeadingKinds(st, entries);
    RangeKinds(st, entries);
    FatigueKinds(st, entries);
    WarningShape(st, entries);
    ConcatKinds(AllLeadingAlerts(st, entries), RangeAlerts(st, entries), FatigueAlerts(st, entries),
                ContraryAlerts(st, entries));
  }

  /** Four runs of warnings, each of one check's kinds, stay apart when concatenated. */
  lemma ConcatKinds(la: seq<Alert>, ra: seq<Alert>, fa: seq<Alert>, ca: seq<Alert>)
    requires forall a :: a in la ==> a.Adjacent? || a.BassAboveTenor?
    requires forall a :: a in ra ==> a.OutOfRange?
    requires forall a :: a in fa ==> a.Fatigue?
    requires forall a :: a in ca ==> a.ParallelMotion?
    ensures var w := la + ra + fa + ca;
            && (forall i :: 0 <= i < |la| ==> w[i].Adjacent? || w[i].BassAboveTenor?)
            && (forall i :: |la| <= i < |la| + |ra| ==> w[i].OutOfRange?)
            && (forall i :: |la| + |ra| <= i < |la| + |ra| + |fa| ==> w[i].Fatigue?)
            && (forall i :: |la| + |ra| + |fa| <= i < |w| ==> w[i].ParallelMotion?)
  {
    var w := la + ra + fa + ca;
    forall i | 0 <= i < |w|
      ensures i < |la| ==> w[i] == la[i]
      ensures |la| <= i < |la| + |ra| ==> w[i] == ra[i - |la|]
      ensures |la| + |ra| <= i < |la| + |ra| + |fa| ==> w[i] == fa[i - |la| - |ra|]
      ensures |la| + |ra| + |fa| <= i ==> w[i] == ca[i - |la| - |ra| - |fa|]
    {
    }
    forall i | 0 <= i < |w|
      ensures i < |la| ==> w[i] in la
      ensures |la| <= i < |la| + |ra| ==> w[i] in ra
      ensures |la| + |ra| <= i < |la| + |ra| + |fa| ==> w[i] in fa
      ensures |la| + |ra| + |fa| <= i ==> w[i] in ca
    {
    }
  }

  lemma {:induction false} LeadingKinds(st: Setting, entries: seq<Entry>)
    ensures forall a :: a in AllLeadingAlerts(st, entries) ==> a.Adjacent? || a.BassAboveTenor?
    decreases |entries|
  {
    if |entries| > 0 {
      LeadingKinds(st, entries[..|entries| - 1]);
    }
  }

  lemma {:induction false} RangeKinds(st: Setting, entries: seq<Entry>)
    ensures forall a :: a in RangeAlerts(st, entries) ==> a.OutOfRange?
    decreases |entries|
  {
    if |entries| > 0 {
      RangeKinds(st, entries[..|entries| - 1]);
      var e := entries[|entries| - 1];
      OnePerVoice(st, e, SnapshotOf(st.score.sounding(e.offset)));
    }
  }

  lemma FatigueKinds(st: Setting, entries: seq<Entry>)
    requires st.meter.beatsPerMeasure >= 1
    ensures forall a :: a in FatigueAlerts(st, entries) ==> a.Fatigue?
  {
    if |entries| >= 3 {
      var bpm := st.meter.beatsPerMeasure;
      var t, al, n, b := HistoryOf(st, entries, Treble), HistoryOf(st, entries, Alto),
                         HistoryOf(st, entries, Tenor), HistoryOf(st, entries, Bass);
      ScanSound(Treble, t, bpm, WindowCount(t));
      ScanSound(Alto, al, bpm, WindowCount(al));
      ScanSound(Tenor, n, bpm, WindowCount(n));
      ScanSound(Bass, b, bpm, WindowCount(b));
    }
  }

  // ---------------------------------------------------------------------
  // What the analyzer logs

  /** The fix suggested with a FORBIDDEN chord. */
  datatype Fix = ViiToVOrVi | IiDimToIvOrIi | VIToIIIOrIv

  /** One logged line, by kind and with the values its message prints. */
  datatype Report =
    | AnalysisStart
    | TranspositionDetected(transposition: Transposition)
    | MidiUnreadable
    | Analyzing(key: string, mode: string, timeSignature: TimeSignature)
    | NoChords
    | ChordProblem(measure: int, beat: int, roman: string, degrees: string, status: Status, message: string, fix: Option<Fix>)
    | VoiceLeadingWarning(alert: Alert)
    | ProgressionLogged(line: LogLine)
    | AnalysisEnd

  /** The statuses run_analysis logs chord by chord. */
  predicate Problematic(s: Status) {
    s == Forbidden || s == Warning || s == Unknown
  }

  /** The fix for a FORBIDDEN chord, chosen by its spelling; VI only in a minor key. */
  function FixFor(roman: Numeral, mode: string): Option<Fix> {
    if Name(roman) == "vii°" then Some(ViiToVOrVi)
    else if Name(roman) == "ii°" then Some(IiDimToIvOrIi)
    else if Name(roman) == "VI" && mode == "minor" then Some(VIToIIIOrIv)
    else None
  }

  /** `'-'.join(map(str, degrees))`. */
  function DegreeText(degrees: seq<int>): string {
    Join(seq(|degrees|, i requires 0 <= i < |degrees| => IntToString(degrees[i])), "-")
  }

  /** The line an entry logs: only a problematic chord is logged, and only a FORBIDDEN
      one carries a fix. */
  function ChordLine(e: Entry, mode: string): (r: Option<Report>)
    ensures r.Some? <==> Problematic(e.assessment.status)
  {
    var status := e.assessment.status;
    if !Problematic(status) then None
    else
      Some(ChordProblem(e.measure, e.beat, Name(e.roman), DegreeText(e.degrees), status, e.assessment.message,
                        if status == Forbidden then FixFor(e.roman, mode) else None))
  }

  function ChordLines(entries: seq<Entry>, mode: string): seq<Report>
    decreases |entries|
  {
    if |entries| == 0 then []
    else
      var line := ChordLine(entries[|entries| - 1], mode);
      ChordLines(entries[..|entries| - 1], mode) + (if line.Some? then [line.value] else [])
  }

  /** The chord-by-chord loop of run_analysis. */
  method LogChordProblems(entries: seq<Entry>, mode: string) returns (lines: seq<Report>)
    ensures lines == ChordLines(entries, mode)
  {
    lines := [];
    for i := 0 to |entries|
      invariant lines == ChordLines(entries[..i], mode)
    {
      assert entries[..i + 1][..i] == entries[..i];
      var e := entries[i];
      var status := e.assessment.status;
      if status == Forbidden || status == Warning || status == Unknown {
        var fix: Option<Fix> := None;
        if status == Forbidden {
          if Name(e.roman) == "vii°" {
            fix := Some(ViiToVOrVi);
          } else if Name(e.roman) == "ii°" {
            fix := Some(IiDimToIvOrIi);
          } else if Name(e.roman) == "VI" && mode == "minor" {
            fix := Some(VIToIIIOrIv);
          }
        }
        lines := lines + [ChordProblem(e.measure, e.beat, Name(e.roman), DegreeText(e.degrees), status,
                                       e.assessment.message, fix)];
      }
    }
    assert entries[..|entries|] == entries;
  }

  /** The chord lines are the problematic entries, one line each and in order. */
  lemma {:induction false} ChordLinesIff(entries: seq<Entry>, mode: string)
    ensures |ChordLines(entries, mode)| <= |entries|
    ensures forall r :: r in ChordLines(entries, mode) ==> r.ChordProblem? && Problematic(r.status)
    ensures (forall e :: e in entries ==> !Problematic(e.assessment.status)) <==> ChordLines(entries, mode) == []
    decreases |entries|
  {
    if |entries| > 0 {
      var init := entries[..|entries| - 1];
      ChordLinesIff(init, mode);
      assert forall e :: e in entries <==> e in init || e == entries[|entries| - 1];
    }
  }

  /** Each forbidden numeral has its fix: vii° in a major key, ii° and VI in a minor one.
      So every FORBIDDEN chord the rules produce is logged with a fix. */
  lemma ForbiddenAlwaysFixed(roman: Numeral, mode: string)
    requires Assess(roman, mode).status == Forbidden
    ensures FixFor(roman, mode) == if mode == "minor" then (if roman == InMinor(2) then Some(IiDimToIvOrIi) else Some(VIToIIIOrIv))
                                   else Some(ViiToVOrVi)
  {
    assert Name(InMajor(7)) == "vii°" && Name(InMinor(2)) == "ii°" && Name(InMinor(6)) == "VI";
  }

  /** Only "Unknown" spells the unclassified chord. */
  lemma NameUnknownIff(n: Numeral)
    ensures Name(n) == "Unknown" <==> n == UnknownChord
  {
    if n != UnknownChord && (n.Unlisted? || (n.InMajor? && n.degree !in MajorRomanNumerals) ||
                             (n.InMinor? && n.degree !in MinorRomanNumerals)) {
      assert Name(n)[0] == '?';
    }
  }

  /** `[a['roman'] for a in chord_analysis if a['roman'] != 'Unknown']`. */
  function ProgressionOf(entries: seq<Entry>): seq<Numeral>
    decreases |entries|
  {
    if |entries| == 0 then []
    else
      var e := entries[|entries| - 1];
      ProgressionOf(entries[..|entries| - 1]) + (if Name(e.roman) != "Unknown" then [e.roman] else [])
  }

  /** The progression keeps, in order, the classified chords and nothing else. */
  lemma {:induction false} ProgressionMembers(entries: seq<Entry>)
    ensures |ProgressionOf(entries)| <= |entries|
    ensures forall n :: n in ProgressionOf(entries) <==> n != UnknownChord && exists e :: e in entries && e.roman == n
    decreases |entries|
  {
    if |entries| > 0 {
      var init := entries[..|entries| - 1];
      var last := entries[|entries| - 1];
      ProgressionMembers(init);
      NameUnknownIff(last.roman);
      assert forall e :: e in entries <==> e in init || e == last;
    }
  }

  // ---------------------------------------------------------------------
  // Inputs

  /** The key music21 finds: the tonic's name, its pitch class and the mode. */
  datatype Key = Key(name: string, tonic: int, mode: string)

  /** The default when key analysis fails: C major. */
  const CMajor: Key := Key("C", 0, "major")

  /** What parsing the MIDI file yields: nothing when it cannot be read; otherwise the
      score, the key if analysis found one, and the first time signature if any. */
  datatype MidiInput = Unreadable | Parsed(score: Score, key: Option<Key>, timeSignature: Option<TimeSignature>)

  function KeyFor(key: Option<Key>): Key {
    if key.Some? then key.value else CMajor
  }

  /** The time signature kept: the first one, or 4/4 when there is none or when its
      denominator makes the beat computation raise. */
  function SignatureFor(ts: Option<TimeSignature>): TimeSignature {
    if ts.Some? && ts.value.denominator != 0 then ts.value else TimeSignature(4, 4)
  }

  /** The LilyPond-side fields, which load_midi reads and run_analysis's log depends on. */
  datatype Source = Source(lines: seq<string>, sections: map<string, Section>, sectionB: real, transpose: int)

  /** estimate_section_timings when load_midi runs it: B starts at half the score, but
      only when some voice section was found. */
  function SectionBFor(src: Source, score: Score): real {
    if |src.sections| > 0 then score.highestTime / 2.0 else src.sectionB
  }

  function SettingFor(src: Source, score: Score, m: Meter): Setting {
    Setting(score, src.transpose, src.sections, Timing(SectionBFor(src, score), score.highestTime), src.lines, m)
  }

  /** The lines run_analysis logs once the MIDI file is loaded. */
  function AnalysisLog(st: Setting, key: Key): seq<Report>
    requires Playable(st.meter)
  {
    var entries := Analysis(st.score, st.meter, key.tonic, key.mode);
    if |entries| == 0 then [NoChords]
    else Assemble(ChordLines(entries, key.mode), VoiceLeadingAlerts(st, entries), ProgressionOf(entries), key.mode)
  }

  /** The chord lines, the voice-leading warnings, the progression's lines when more than
      one chord is classified, and the closing line. */
  function Assemble(chordLines: seq<Report>, warnings: seq<Alert>, progression: seq<Numeral>, mode: string): seq<Report> {
    chordLines + WarningLines(warnings) +
    (if |progression| > 1 then ProgressionLines(ProgressionReport(progression, mode)) else []) +
    [AnalysisEnd]
  }

  /** Only the progression analysis logs progression lines. */
  lemma AssembleProgression(chordLines: seq<Report>, warnings: seq<Alert>, progression: seq<Numeral>, mode: string)
    requires forall r :: r in chordLines ==> r.ChordProblem?
    ensures (exists r :: r in Assemble(chordLines, warnings, progression, mode) && r.ProgressionLogged?) <==>
            |progression| > 1
  {
    var log := Assemble(chordLines, warnings, progression, mode);
    var w := WarningLines(warnings);
    if |progression| > 1 {
      var p := ProgressionLines(ProgressionReport(progression, mode));
      assert log == chordLines + w + p + [AnalysisEnd];
      assert p[0] in log;
    } else {
      assert log == chordLines + w + [] + [AnalysisEnd];
      forall r | r in log
        ensures !r.ProgressionLogged?
      {
        if r in w {
          var i :| 0 <= i < |w| && w[i] == r;
        }
      }
    }
  }

  function WarningLines(alerts: seq<Alert>): (r: seq<Report>)
    ensures |r| == |alerts| && forall i :: 0 <= i < |alerts| ==> r[i] == VoiceLeadingWarning(alerts[i])
  {
    seq(|alerts|, i requires 0 <= i < |alerts| => VoiceLeadingWarning(alerts[i]))
  }

  function ProgressionLines(lines: seq<LogLine>): (r: seq<Report>)
    ensures |r| == |lines| && forall i :: 0 <= i < |lines| ==> r[i] == ProgressionLogged(lines[i])
  {
    seq(|lines|, i requires 0 <= i < |lines| => ProgressionLogged(lines[i]))
  }

  /** Everything run_analysis logs, given the source fields and the parsed MIDI file. */
  function RunLog(src: Source, input: MidiInput): seq<Report>
    requires input.Parsed? ==> Reported(input.timeSignature)
  {
    [AnalysisStart] + if input.Unreadable? then [MidiUnreadable] else LoadedLog(src, input)
  }

  /** The lines logged after load_midi succeeds: the header, then the analysis. */
  function LoadedLog(src: Source, input: MidiInput): seq<Report>
    requires input.Parsed? && Reported(input.timeSignature)
  {
    var key := KeyFor(input.key);
    [Analyzing(key.name, key.mode, SignatureFor(input.timeSignature))] +
    AnalysisLog(SettingFor(src, input.score, MeterOf(input.timeSignature)), key)
  }

  /** run_analysis succeeds exactly when the MIDI file is read and some beat sounds. */
  predicate Succeeds(input: MidiInput)
    requires input.Parsed? ==> Reported(input.timeSignature)
  {
    input.Parsed? &&
    |Analysis(input.score, MeterOf(input.timeSignature), KeyFor(input.key).tonic, KeyFor(input.key).mode)| > 0
  }

  /** The log opens with the start line, and closes with the end line exactly when the
      run succeeds; an unreadable file and a silent score are logged as such. */
  lemma RunLogShape(src: Source, input: MidiInput)
    requires input.Parsed? ==> Reported(input.timeSignature)
    ensures var log := RunLog(src, input);
            && |log| >= 2 && log[0] == AnalysisStart
            && (log[|log| - 1] == AnalysisEnd <==> Succeeds(input))
            && (log[|log| - 1] == MidiUnreadable <==> input.Unreadable?)
            && (log[|log| - 1] == NoChords <==> input.Parsed? && !Succeeds(input))
  {
  }

  /** The progression is analysed exactly when more than one beat is classified. */
  lemma ProgressionLoggedIff(st: Setting, key: Key)
    requires Playable(st.meter)
    requires |Analysis(st.score, st.meter, key.tonic, key.mode)| > 0
    ensures var entries := Analysis(st.score, st.meter, key.tonic, key.mode);
            (exists r :: r in AnalysisLog(st, key) && r.ProgressionLogged?) <==> |ProgressionOf(entries)| > 1
  {
    var entries := Analysis(st.score, st.meter, key.tonic, key.mode);
    ChordLinesIff(entries, key.mode);
    AssembleProgression(ChordLines(entries, key.mode), VoiceLeadingAlerts(st, entries), ProgressionOf(entries), key.mode);
  }

  /** What run_analysis does once the MIDI file is loaded: the lines it logs, and whether
      any beat sounded. */
  method AnalyzeLoaded(st: Setting, key: Key) returns (lines: seq<Report>, ok: bool)
    requires Playable(st.meter)
    ensures lines == AnalysisLog(st, key)
    ensures ok <==> |Analysis(st.score, st.meter, key.tonic, key.mode)| > 0
  {
    var entries := AnalyzeChords(st.score, st.meter, key.tonic, key.mode);
    if |entries| == 0 {
      return [NoChords], false;
    }
    var chordLines := LogChordProblems(entries, key.mode);
    var warnings := CheckVoiceLeadingIssues(st, entries);
    var progression := ProgressionOf(entries);
    var progressionLines: seq<Report> := [];
    if |progression| > 1 {
      var report := AnalyzeProgression(progression, key.mode);
      progressionLines := ProgressionLines(report);
    }
    lines := chordLines + WarningLines(warnings) + progressionLines + [AnalysisEnd];
    ok := true;
  }

  // ---------------------------------------------------------------------
  // The analyzer

  lemma AppendAssoc(a: seq<Report>, b: seq<Report>, c: seq<Report>)
    ensures (a + b) + c == a + (b + c)
  {
  }

  class SacredHarpAnalyzer {
    /** `lilypond_content`; no file and an empty file both leave it empty. */
    var source: seq<string>
    var voiceSections: map<string, Section>
    /** `section_timings['B']`; A always starts at 0. */
    var sectionB: real
    var writtenKeyMode: string
    var transposeSemitones: int
    var score: Option<Score>
    var key: Key
    var timeSignature: Option<TimeSignature>
    var meter: Meter
    /** The lines written to the log file, without their timestamps. */
    var log: seq<Report>

    ghost predicate Valid()
      reads this
    {
      Playable(meter)
    }

    function SourceFields(): Source
      reads this
    {
      Source(source, voiceSections, sectionB, transposeSemitones)
    }

    /** The fields the LilyPond file sets and the analysis leaves alone. */
    function Written(): (seq<string>, map<string, Section>, int, string)
      reads this
    {
      (source, voiceSections, transposeSemitones, writtenKeyMode)
    }

    /** The fields load_midi sets. */
    function MidiFields(): (real, Option<Score>, Key, Option<TimeSignature>, Meter)
      reads this
    {
      (sectionB, score, key, timeSignature, meter)
    }

    /** The fields load_midi sets but for section B, which load_lilypond_source
        moves too. */
    function ScoreFields(): (Option<Score>, Key, Option<TimeSignature>, Meter)
      reads this
    {
      (score, key, timeSignature, meter)
    }

    /** load_midi has stored the parsed file, and the source fields are src's but for
        the start of section B that load_midi sets. */
    ghost predicate Loaded(src: Source, input: MidiInput)
      reads this
    {
      && input.Parsed? && Reported(input.timeSignature)
      && score == Some(input.score) && key == KeyFor(input.key) && meter == MeterOf(input.timeSignature)
      && timeSignature == Some(SignatureFor(input.timeSignature))
      && SourceFields() == Source(src.lines, src.sections, SectionBFor(src, input.score), src.transpose)
    }

    /** `__init__`: the defaults, then load_lilypond_source when a file is given. Its
        estimate_section_timings returns at once, since no score is loaded yet. */
    constructor (lilypond: Option<seq<string>>)
      ensures Valid()
      ensures var lines := if lilypond.Some? then lilypond.value else [];
              var d := ScanDirectives(lines, "major");
              && source == lines && voiceSections == Sections(lines)
              && writtenKeyMode == d.mode
              && transposeSemitones == (if d.transposition.Some? then d.transposition.value.analysis else 0)
              && log == (if d.transposition.Some? then [TranspositionDetected(d.transposition.value)] else [])
      ensures sectionB == 0.0 && score.None? && timeSignature.None? && meter == CommonTime
    {
      source := [];
      voiceSections := map[];
      sectionB := 0.0;
      writtenKeyMode := "major";
      transposeSemitones := 0;
      score := None;
      key := CMajor;
      timeSignature := None;
      meter := CommonTime;
      log := [];
      new;
      if lilypond.Some? {
        LoadLilypondSource(lilypond.value);
        assert map[] + Sections(lilypond.value) == Sections(lilypond.value);
      }
    }

    /** load_lilypond_source on the lines of the file: the voice sections, written into
        those already known, then parse_key_and_transposition and
        estimate_section_timings. */
    method LoadLilypondSource(lines: seq<string>)
      requires Valid()
      modifies this
      ensures var d := ScanDirectives(lines, old(writtenKeyMode));
              && source == lines && voiceSections == old(voiceSections) + Sections(lines)
              && writtenKeyMode == d.mode
              && transposeSemitones == (if d.transposition.Some? then d.transposition.value.analysis else old(transposeSemitones))
              && log == old(log) + (if d.transposition.Some? then [TranspositionDetected(d.transposition.value)] else [])
      ensures sectionB == (if old(score).Some? then old(score).value.highestTime / 2.0 else old(sectionB))
      ensures ScoreFields() == old(ScoreFields())
      ensures Valid()
    {
      var found := ParseVoiceSections(lines);
      source, voiceSections := lines, voiceSections + found;
      ParseKeyAndTransposition();
      EstimateSectionTimings();
    }

    /** parse_key_and_transposition over the stored lines: the written mode, and the
        transposition to undo with its log line when one is found. */
    method ParseKeyAndTransposition()
      modifies this
      ensures var d := ScanDirectives(source, old(writtenKeyMode));
              && writtenKeyMode == d.mode
              && transposeSemitones == (if d.transposition.Some? then d.transposition.value.analysis else old(transposeSemitones))
              && log == old(log) + (if d.transposition.Some? then [TranspositionDetected(d.transposition.value)] else [])
      ensures source == old(source) && voiceSections == old(voiceSections) && MidiFields() == old(MidiFields())
    {
      var d := ReadDirectives(source, writtenKeyMode);
      var transpose, detected := transposeSemitones, [];
      if d.transposition.Some? {
        transpose, detected := d.transposition.value.analysis, [TranspositionDetected(d.transposition.value)];
      }
      writtenKeyMode, transposeSemitones, log := d.mode, transpose, log + detected;
    }

    /** estimate_section_timings: once a score is loaded, section B starts halfway
        through it; without one nothing changes. */
    method EstimateSectionTimings()
      modifies this
      ensures sectionB == (if score.Some? then score.value.highestTime / 2.0 else old(sectionB))
      ensures Written() == old(Written()) && log == old(log) && ScoreFields() == old(ScoreFields())
    {
      if score.Some? {
        sectionB := score.value.highestTime / 2.0;
      }
    }

    /** load_midi: the score, its key (C major when none is found), its meter and, when
        voice sections are known, the start of section B. */
    method LoadMidi(input: MidiInput) returns (ok: bool)
      requires input.Parsed? ==> Reported(input.timeSignature)
      modifies this
      ensures ok <==> input.Parsed?
      ensures Written() == old(Written())
      ensures !ok ==> log == old(log) + [MidiUnreadable] && score == old(score) && key == old(key) &&
                      timeSignature == old(timeSignature) && meter == old(meter) && sectionB == old(sectionB)
      ensures ok ==> log == old(log) && Loaded(old(SourceFields()), input) && Valid()
    {
      if input.Unreadable? {
        log := log + [MidiUnreadable];
        return false;
      }
      score := Some(input.score);
      key := KeyFor(input.key);
      timeSignature := Some(SignatureFor(input.timeSignature));
      meter := MeterOf(input.timeSignature);
      if |voiceSections| > 0 {
        EstimateSectionTimings();
      }
      return true;
    }

    /** run_analysis: every line of the log is the one RunLog gives, and the run
        succeeds exactly when some beat of a readable file sounds. */
    method RunAnalysis(input: MidiInput) returns (ok: bool)
      requires Valid()
      requires input.Parsed? ==> Reported(input.timeSignature)
      modifies this
      ensures ok == Succeeds(input)
      ensures log == old(log) + RunLog(old(SourceFields()), input)
      ensures Written() == old(Written())
      ensures input.Parsed? ==> Loaded(old(SourceFields()), input)
      ensures input.Unreadable? ==> MidiFields() == old(MidiFields())
      ensures Valid()
    {
      ghost var src := SourceFields();
      ghost var log0 := log;
      log := log + [AnalysisStart];
      var loaded := LoadMidi(input);
      if !loaded {
        AppendAssoc(log0, [AnalysisStart], [MidiUnreadable]);
        return false;
      }
      ok := AnalyzeLoadedScore(src, input);
      AppendAssoc(log0, [AnalysisStart], LoadedLog(src, input));
    }

    /** The part of run_analysis after load_midi succeeds: the header line, then the
        analysis of the loaded score with the current fields. */
    method AnalyzeLoadedScore(ghost src: Source, ghost input: MidiInput) returns (ok: bool)
      requires Valid()
      requires Loaded(src, input)
      modifies this
      ensures log == old(log) + LoadedLog(src, input)
      ensures ok == Succeeds(input)
      ensures Written() == old(Written())
      ensures MidiFields() == old(MidiFields())
      ensures Loaded(src, input) && Valid()
    {
      ghost var log0 := log;
      var header := Analyzing(key.name, key.mode, timeSignature.value);
      log := log + [header];
      var sc := score.value;
      var st := Setting(sc, transposeSemitones, voiceSections, Timing(sectionB, sc.highestTime), source, meter);
      assert st == SettingFor(src, input.score, meter);
      var lines, sounded := AnalyzeLoaded(st, key);
      log := log + lines;
      AppendAssoc(log0, [header], lines);
      return sounded;
    }
  }
}
