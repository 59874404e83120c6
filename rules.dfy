/** The Sacred Harp rule engine: the per-mode tiers of numerals that rate a
    chord (assess_chord), and the scan of a whole progression against the
    standard progressions and the forbidden chords (analyze_progression). */
module Rules {
  import opened Base
  import opened Chords

  /** The rating of one chord. */
  datatype Status = Forbidden | Good | Ok | Warning | Unknown

  function StatusName(s: Status): string {
    match s
    case Forbidden => "FORBIDDEN"
    case Good => "GOOD"
    case Ok => "OK"
    case Warning => "WARNING"
    case Unknown => "UNKNOWN"
  }

  /** The numerals of one mode, by tier. */
  datatype Tiers = Tiers(common: seq<Numeral>, quiteCommon: seq<Numeral>, rare: seq<Numeral>, forbidden: seq<Numeral>)

  /** Major: common I vi V, quite common ii IV, rare iii, forbidden vii°. */
  const MajorRules: Tiers :=
    Tiers([InMajor(1), InMajor(6), InMajor(5)], [InMajor(2), InMajor(4)], [InMajor(3)], [InMajor(7)])

  /** Minor: common i VII III, quite common v iv, none rare, forbidden ii° VI. */
  const MinorRules: Tiers :=
    Tiers([InMinor(1), InMinor(7), InMinor(3)], [InMinor(5), InMinor(4)], [], [InMinor(2), InMinor(6)])

  function Names(ns: seq<Numeral>): (r: seq<string>)
    ensures |r| == |ns| && forall i :: 0 <= i < |ns| ==> r[i] == Name(ns[i])
  {
    seq(|ns|, i requires 0 <= i < |ns| => Name(ns[i]))
  }

  /** The tiers spell the numerals of the published rule table. */
  lemma TierSpellings()
    ensures Names(MajorRules.common) == ["I", "vi", "V"] && Names(MajorRules.quiteCommon) == ["ii", "IV"]
    ensures Names(MajorRules.rare) == ["iii"] && Names(MajorRules.forbidden) == ["vii°"]
    ensures Names(MinorRules.common) == ["i", "VII", "III"] && Names(MinorRules.quiteCommon) == ["v", "iv"]
    ensures Names(MinorRules.rare) == [] && Names(MinorRules.forbidden) == ["ii°", "VI"]
  {
  }

  /** The rules of a mode; a mode that is neither "major" nor "minor" uses the major rules. */
  function RulesFor(mode: string): (t: Tiers)
    ensures mode != "minor" ==> t == MajorRules
  {
    if mode == "minor" then MinorRules else MajorRules
  }

  datatype Assessment = Assessment(status: Status, message: string)

  /** assess_chord: the first tier in the order forbidden, common, quite common, rare
      that lists the numeral decides; a numeral in no tier is UNKNOWN. */
  function Assess(roman: Numeral, mode: string): (a: Assessment)
    ensures var t := RulesFor(mode);
            && (a.status == Forbidden <==> roman in t.forbidden)
            && (a.status == Good <==> roman !in t.forbidden && roman in t.common)
            && (a.status == Ok <==> roman !in t.forbidden && roman !in t.common && roman in t.quiteCommon)
            && (a.status == Warning <==>
                roman !in t.forbidden && roman !in t.common && roman !in t.quiteCommon && roman in t.rare)
  {
    var t := RulesFor(mode);
    var name := Name(roman);
    if roman in t.forbidden then Assessment(Forbidden, name + " chord FORBIDDEN in Sacred Harp style")
    else if roman in t.common then Assessment(Good, name + " chord - excellent choice for Sacred Harp")
    else if roman in t.quiteCommon then Assessment(Ok, name + " chord - good Sacred Harp choice")
    else if roman in t.rare then Assessment(Warning, name + " chord - use sparingly in Sacred Harp")
    else Assessment(Unknown, name + " chord - check Sacred Harp style guide")
  }

  /** The numeral is listed in some tier of a rule table. */
  predicate InTiers(t: Tiers, roman: Numeral) {
    roman in t.forbidden || roman in t.common || roman in t.quiteCommon || roman in t.rare
  }

  /** No numeral is listed in two tiers of the same mode. */
  predicate Disjoint(t: Tiers) {
    && (forall r :: r in t.forbidden ==> r !in t.common && r !in t.quiteCommon && r !in t.rare)
    && (forall r :: r in t.common ==> r !in t.quiteCommon && r !in t.rare)
    && (forall r :: r in t.quiteCommon ==> r !in t.rare)
  }

  lemma RulesDisjoint()
    ensures Disjoint(MajorRules) && Disjoint(MinorRules)
  {
  }

  /** Because the tiers are disjoint, the order of the tests does not matter: a numeral
      gets the status of the one tier that lists it, and UNKNOWN when none does. */
  lemma AssessByTier(roman: Numeral, mode: string)
    ensures var t := RulesFor(mode);
            var s := Assess(roman, mode).status;
            && (roman in t.forbidden ==> s == Forbidden)
            && (roman in t.common ==> s == Good)
            && (roman in t.quiteCommon ==> s == Ok)
            && (roman in t.rare ==> s == Warning)
            && (!InTiers(t, roman) <==> s == Unknown)
  {
    RulesDisjoint();
  }

  /** An unrecognised mode is rated exactly as the major mode. */
  lemma UnknownModeIsMajor(roman: Numeral, mode: string)
    requires mode != "minor"
    ensures Assess(roman, mode) == Assess(roman, "major")
  {
  }

  /** Sample ratings from the two tables. */
  lemma SampleRatings()
    ensures Assess(InMajor(7), "major").status == Forbidden
    ensures Assess(InMajor(1), "major").status == Good
    ensures Assess(InMajor(4), "major").status == Ok
    ensures Assess(InMajor(3), "major").status == Warning
    ensures Assess(InMinor(6), "minor").status == Forbidden
    ensures Assess(InMinor(7), "minor").status == Good
    ensures Assess(InMajor(7), "dorian").status == Forbidden
    ensures Assess(UnknownChord, "major").status == Unknown
  {
    AssessByTier(UnknownChord, "major");
  }

  /** In the minor mode a tonic triad reads "I" (the table numerals are major-style), and
      "I" is in no minor tier, so the chord is rated UNKNOWN. */
  lemma MinorTonicTriadIsUnknown()
    ensures Assess(DetermineRoman([1, 3, 5], "minor").roman, "minor").status == Unknown
  {
    TonicTriadReadsMajor("minor");
    AssessByTier(InMajor(1), "minor");
  }

  /** In the minor mode every degree set of the exact table is rated UNKNOWN: all of
      them read as major-table numerals, which no minor tier lists. */
  lemma MinorTableChordsUnknown(degrees: seq<int>, k: int)
    requires 0 <= k < |ExactChords| && Elements(degrees) == Elements(ExactChords[k].degrees)
    requires forall j :: 0 <= j < k ==> Elements(degrees) != Elements(ExactChords[j].degrees)
    ensures Assess(DetermineRoman(degrees, "minor").roman, "minor").status == Unknown
  {
    DetermineRomanByTable(degrees, "minor", k);
    PatternsMajorStyle(k);
    AssessByTier(ExactChords[k].numeral, "minor");
  }

  /** In the major mode every numeral a list of degrees 1..7 can produce is rated. */
  lemma MajorNumeralsRated(degrees: seq<int>)
    requires |degrees| > 0
    requires forall i :: 0 <= i < |degrees| ==> 1 <= degrees[i] <= 7
    ensures Assess(DetermineRoman(degrees, "major").roman, "major").status != Unknown
  {
    MajorModeReadsMajor(degrees);
    var n := DetermineRoman(degrees, "major").roman;
    MajorTiersCover(n.degree);
    AssessByTier(n, "major");
  }

  /** Every major-table numeral of a degree 1..7 is listed in some major tier. */
  lemma MajorTiersCover(d: int)
    requires 1 <= d <= 7
    ensures InTiers(MajorRules, InMajor(d))
  {
  }

  // ---------------------------------------------------------------------
  // analyze_progression

  /** The standard progressions: I vi V I, I IV V I, I vi ii V I, i VII III i, i iv v i, i VII iv i. */
  const GoodProgressions: seq<seq<Numeral>> :=
    [[InMajor(1), InMajor(6), InMajor(5), InMajor(1)], [InMajor(1), InMajor(4), InMajor(5), InMajor(1)],
     [InMajor(1), InMajor(6), InMajor(2), InMajor(5), InMajor(1)],
     [InMinor(1), InMinor(7), InMinor(3), InMinor(1)], [InMinor(1), InMinor(4), InMinor(5), InMinor(1)],
     [InMinor(1), InMinor(7), InMinor(4), InMinor(1)]]

  const Separator: string := " - "

  /** `' - '.join(progression)`. */
  function ProgressionText(progression: seq<Numeral>): string {
    Join(Names(progression), Separator)
  }

  /** The text searched for standard progression g. */
  function GoodText(g: nat): string
    requires g < |GoodProgressions|
  {
    ProgressionText(GoodProgressions[g])
  }

  /** One line that analyze_progression logs. */
  datatype LogLine =
    | ProgressionLine(text: string)  // PROGRESSION: <text>
    | GoodLine(index: nat)           // GOOD: Contains standard Sacred Harp progression: <text>
    | ViiForbidden                   // ERROR: Forbidden vii° chord found in progression
    | IiForbiddenInMinor             // ERROR: Forbidden ii° chord found in minor key

  function Render(line: LogLine): string {
    match line
    case ProgressionLine(text) => "PROGRESSION: " + text
    case GoodLine(g) =>
      "GOOD: Contains standard Sacred Harp progression: "
        + if g < |GoodProgressions| then GoodText(g) else ""
    case ViiForbidden => "ERROR: Forbidden vii° chord found in progression"
    case IiForbiddenInMinor => "ERROR: Forbidden ii° chord found in minor key"
  }

  /** The GOOD lines for the standard progressions 0..n-1 whose text occurs in `text`, in order. */
  function GoodLines(text: string, n: nat): (lines: seq<LogLine>)
    requires n <= |GoodProgressions|
    ensures forall k :: 0 <= k < |lines| ==> lines[k].GoodLine? && lines[k].index < n
  {
    if n == 0 then []
    else
      GoodLines(text, n - 1)
        + (if Contains(text, GoodText(n - 1)) then [GoodLine(n - 1)] else [])
  }

  /** The error lines for the chords scanned. */
  function ErrorLines(chords: seq<Numeral>, mode: string): (lines: seq<LogLine>)
    ensures forall k :: 0 <= k < |lines| ==> lines[k].ViiForbidden? || lines[k].IiForbiddenInMinor?
    decreases |chords|
  {
    if |chords| == 0 then []
    else
      var c := chords[|chords| - 1];
      ErrorLines(chords[..|chords| - 1], mode)
        + (if c == InMajor(7) then [ViiForbidden] else [])
        + (if c == InMinor(2) && mode == "minor" then [IiForbiddenInMinor] else [])
  }

  /** The chords the forbidden scan visits: `progression[:-1]`. */
  function Scanned(progression: seq<Numeral>): seq<Numeral> {
    if |progression| == 0 then [] else progression[..|progression| - 1]
  }

  /** Everything analyze_progression logs, in order. */
  function ProgressionReport(progression: seq<Numeral>, mode: string): seq<LogLine> {
    var text := ProgressionText(progression);
    [ProgressionLine(text)] + GoodLines(text, |GoodProgressions|) + ErrorLines(Scanned(progression), mode)
  }

  /** analyze_progression, with the log as its result. */
  method AnalyzeProgression(progression: seq<Numeral>, mode: string) returns (log: seq<LogLine>)
    ensures log == ProgressionReport(progression, mode)
  {
    var text := ProgressionText(progression);
    var good := FindStandardProgressions(text);
    var errors := FindForbiddenChords(Scanned(progression), mode);
    log := [ProgressionLine(text)] + good + errors;
  }

  /** The first loop of analyze_progression: a GOOD line per standard progression found in the text. */
  method FindStandardProgressions(text: string) returns (lines: seq<LogLine>)
    ensures lines == GoodLines(text, |GoodProgressions|)
  {
    lines := [];
    for g := 0 to |GoodProgressions|
      invariant lines == GoodLines(text, g)
    {
      if Contains(text, GoodText(g)) {
        lines := lines + [GoodLine(g)];
      }
    }
  }

  /** The second loop of analyze_progression: an error line per forbidden chord scanned. */
  method FindForbiddenChords(scanned: seq<Numeral>, mode: string) returns (lines: seq<LogLine>)
    ensures lines == ErrorLines(scanned, mode)
  {
    lines := [];
    for i := 0 to |scanned|
      invariant lines == ErrorLines(scanned[..i], mode)
    {
      assert scanned[..i + 1][..i] == scanned[..i];
      var chord := scanned[i];
      if chord == InMajor(7) {
        lines := lines + [ViiForbidden];
      }
      if chord == InMinor(2) && mode == "minor" {
        lines := lines + [IiForbiddenInMinor];
      }
    }
    assert scanned[..|scanned|] == scanned;
  }

  // ---------------------------------------------------------------------
  // Properties of analyze_progression

  /** The GOOD line of standard progression g is logged exactly when its text occurs. */
  lemma {:induction false} GoodLinesIff(text: string, n: nat, g: int)
    requires 0 <= g < n <= |GoodProgressions|
    ensures GoodLine(g) in GoodLines(text, n) <==> Contains(text, GoodText(g))
    decreases n
  {
    if g < n - 1 {
      GoodLinesIff(text, n - 1, g);
    } else {
      assert GoodLine(g) !in GoodLines(text, n - 1);
    }
  }

  /** Every standard progression that appears as a contiguous run of chords is reported. */
  lemma RunIsReported(progression: seq<Numeral>, mode: string, g: int, i: int, j: int)
    requires 0 <= g < |GoodProgressions|
    requires 0 <= i < j <= |progression| && progression[i..j] == GoodProgressions[g]
    ensures GoodLine(g) in ProgressionReport(progression, mode)
  {
    var names := Names(progression);
    JoinOfRunContained(names, i, j, Separator);
    assert names[i..j] == Names(GoodProgressions[g]);
    GoodLinesIff(ProgressionText(progression), |GoodProgressions|, g);
  }

  /** The text of a four-chord progression. */
  lemma FourChordText(a: Numeral, b: Numeral, c: Numeral, d: Numeral)
    ensures ProgressionText([a, b, c, d]) ==
            Name(a) + Separator + Name(b) + Separator + Name(c) + Separator + Name(d)
  {
    assert Names([a, b, c, d]) == [Name(a), Name(b), Name(c), Name(d)];
    JoinFour(Name(a), Name(b), Name(c), Name(d), Separator);
  }

  /** The search is on raw text, not on whole numerals: "VII - vi - V - I" contains the
      text "I - vi - V - I" (the tail of "VII"), so it is reported as containing the
      standard progression I vi V I, though no run of its chords is that progression. */
  lemma RawSubstringMatch()
    ensures var p := [InMinor(7), InMajor(6), InMajor(5), InMajor(1)];
            && GoodLine(0) in ProgressionReport(p, "minor")
            && forall i, j :: 0 <= i <= j <= |p| ==> p[i..j] != GoodProgressions[0]
  {
    TailTextReported();
    NoStandardRun();
  }

  lemma TailTextReported()
    ensures GoodLine(0) in ProgressionReport([InMinor(7), InMajor(6), InMajor(5), InMajor(1)], "minor")
  {
    var text := ProgressionText([InMinor(7), InMajor(6), InMajor(5), InMajor(1)]);
    var needle := GoodText(0);
    TailText();
    ContainsMiddle("VI", needle, "");
    assert text == "VI" + needle + "";
    GoodLinesIff(text, |GoodProgressions|, 0);
  }

  lemma TailText()
    ensures ProgressionText([InMinor(7), InMajor(6), InMajor(5), InMajor(1)]) == "VI" + GoodText(0)
  {
    SeventhText();
    TonicText();
    assert "VII - vi - V - I" == "VI" + "I - vi - V - I";
  }

  lemma SeventhText()
    ensures ProgressionText([InMinor(7), InMajor(6), InMajor(5), InMajor(1)]) == "VII - vi - V - I"
  {
    assert Name(InMinor(7)) == "VII" && Name(InMajor(6)) == "vi" && Name(InMajor(5)) == "V" && Name(InMajor(1)) == "I";
    FourChordText(InMinor(7), InMajor(6), InMajor(5), InMajor(1));
  }

  lemma TonicText()
    ensures GoodText(0) == "I - vi - V - I"
  {
    assert Name(InMajor(6)) == "vi" && Name(InMajor(5)) == "V" && Name(InMajor(1)) == "I";
    FourChordText(InMajor(1), InMajor(6), InMajor(5), InMajor(1));
  }

  lemma NoStandardRun()
    ensures var p := [InMinor(7), InMajor(6), InMajor(5), InMajor(1)];
            forall i, j :: 0 <= i <= j <= |p| ==> p[i..j] != GoodProgressions[0]
  {
    var p := [InMinor(7), InMajor(6), InMajor(5), InMajor(1)];
    forall i, j | 0 <= i <= j <= |p| ensures p[i..j] != GoodProgressions[0] {
      if j - i == 4 {
        assert p[i..j][0] == InMinor(7);
      }
    }
  }

  /** The last chord of a progression is never scanned for forbidden chords. */
  lemma LastChordIgnored(p: seq<Numeral>, x: Numeral, y: Numeral, mode: string)
    ensures ErrorLines(Scanned(p + [x]), mode) == ErrorLines(Scanned(p + [y]), mode)
  {
    assert Scanned(p + [x]) == p;
    assert Scanned(p + [y]) == p;
  }

  /** So a progression whose only vii° is its final chord logs no vii° error. */
  lemma FinalViiNotReported(p: seq<Numeral>, mode: string)
    requires InMajor(7) !in p
    ensures ViiForbidden !in ProgressionReport(p + [InMajor(7)], mode)
  {
    assert Scanned(p + [InMajor(7)]) == p;
    ErrorCount(p, mode);
  }

  /** Occurrences of a numeral in a list. */
  function Count(xs: seq<Numeral>, x: Numeral): (c: nat)
    ensures c == 0 <==> x !in xs
    decreases |xs|
  {
    if |xs| == 0 then 0
    else
      assert xs == xs[..|xs| - 1] + [xs[|xs| - 1]];
      Count(xs[..|xs| - 1], x) + (if xs[|xs| - 1] == x then 1 else 0)
  }

  /** Counting the error lines of each kind: one vii° error per scanned vii°, and one ii°
      error per scanned ii° in the minor mode and none in any other mode. */
  function CountLines(lines: seq<LogLine>, l: LogLine): (c: nat)
    ensures c == 0 <==> l !in lines
    decreases |lines|
  {
    if |lines| == 0 then 0
    else
      assert lines == lines[..|lines| - 1] + [lines[|lines| - 1]];
      CountLines(lines[..|lines| - 1], l) + (if lines[|lines| - 1] == l then 1 else 0)
  }

  lemma {:induction false} ErrorCount(chords: seq<Numeral>, mode: string)
    ensures CountLines(ErrorLines(chords, mode), ViiForbidden) == Count(chords, InMajor(7))
    ensures CountLines(ErrorLines(chords, mode), IiForbiddenInMinor) ==
            if mode == "minor" then Count(chords, InMinor(2)) else 0
    decreases |chords|
  {
    if |chords| > 0 {
      var init := chords[..|chords| - 1];
      ErrorCount(init, mode);
      ErrorStep(chords, mode, ViiForbidden);
      ErrorStep(chords, mode, IiForbiddenInMinor);
    }
  }

  /** The error lines of the last chord scanned, counted apart from those before it. */
  lemma ErrorStep(chords: seq<Numeral>, mode: string, l: LogLine)
    requires |chords| > 0
    ensures var c := chords[|chords| - 1];
            CountLines(ErrorLines(chords, mode), l) == CountLines(ErrorLines(chords[..|chords| - 1], mode), l)
              + (if c == InMajor(7) && l == ViiForbidden then 1 else 0)
              + (if c == InMinor(2) && mode == "minor" && l == IiForbiddenInMinor then 1 else 0)
  {
    var c := chords[|chords| - 1];
    var a := ErrorLines(chords[..|chords| - 1], mode);
    var b: seq<LogLine> := if c == InMajor(7) then [ViiForbidden] else [];
    var d: seq<LogLine> := if c == InMinor(2) && mode == "minor" then [IiForbiddenInMinor] else [];
    assert ErrorLines(chords, mode) == a + b + d;
    CountLinesAppend(a, b, l);
    CountLinesAppend(a + b, d, l);
    assert CountLines(b, l) == if c == InMajor(7) && l == ViiForbidden then 1 else 0 by {
      if |b| == 1 { assert b[..0] == []; }
    }
    assert CountLines(d, l) == if c == InMinor(2) && mode == "minor" && l == IiForbiddenInMinor then 1 else 0 by {
      if |d| == 1 { assert d[..0] == []; }
    }
  }

  lemma {:induction false} CountLinesAppend(a: seq<LogLine>, b: seq<LogLine>, l: LogLine)
    ensures CountLines(a + b, l) == CountLines(a, l) + CountLines(b, l)
    decreases |b|
  {
    if |b| == 0 {
      assert a + b == a;
    } else {
      assert (a + b)[..|a + b| - 1] == a + b[..|b| - 1];
      CountLinesAppend(a, b[..|b| - 1], l);
    }
  }
}
