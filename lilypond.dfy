/** Reading the LilyPond source that a score was compiled from: the voice
    sections `trebleA = \relative ... { ... }` and their line extents
    (load_lilypond_source), the `\key` and `\transpose` directives
    (parse_key_and_transposition), the estimated source line of a moment of
    the MIDI (get_lilypond_location) and the window of lines around it
    (get_context_from_lilypond). Python's regular expressions are written
    out as small deterministic matchers; `\s` is `Base.IsSpace`. */
module Lilypond {
  import opened Base

  // ---------------------------------------------------------------------
  // Scanners shared by the matchers

  /** The end of the run of whitespace starting at i. */
  function SkipSpace(s: string, i: nat): (j: nat)
    requires i <= |s|
    ensures i <= j <= |s|
    decreases |s| - i
  {
    if i < |s| && IsSpace(s[i]) then SkipSpace(s, i + 1) else i
  }

  predicate IsLower(c: char) {
    'a' <= c <= 'z'
  }

  /** The end of the run of lower-case ASCII letters starting at i. */
  function SkipLower(s: string, i: nat): (j: nat)
    requires i <= |s|
    ensures i <= j <= |s|
    decreases |s| - i
  {
    if i < |s| && IsLower(s[i]) then SkipLower(s, i + 1) else i
  }

  /** SkipSpace stops at the first character that is not whitespace. */
  lemma {:induction false} SkipSpaceMeaning(s: string, i: nat)
    requires i <= |s|
    ensures forall k :: i <= k < SkipSpace(s, i) ==> IsSpace(s[k])
    ensures SkipSpace(s, i) == |s| || !IsSpace(s[SkipSpace(s, i)])
    decreases |s| - i
  {
    if i < |s| && IsSpace(s[i]) {
      SkipSpaceMeaning(s, i + 1);
    }
  }

  /** SkipLower stops at the first character that is not a lower-case letter. */
  lemma {:induction false} SkipLowerMeaning(s: string, i: nat)
    requires i <= |s|
    ensures forall k :: i <= k < SkipLower(s, i) ==> IsLower(s[k])
    ensures SkipLower(s, i) == |s| || !IsLower(s[SkipLower(s, i)])
    decreases |s| - i
  {
    if i < |s| && IsLower(s[i]) {
      SkipLowerMeaning(s, i + 1);
    }
  }

  /** A run of whitespace stops exactly where the first non-space character stands. */
  lemma {:induction false} SkipSpaceOver(s: string, i: nat, n: nat)
    requires i + n <= |s|
    requires forall k :: i <= k < i + n ==> IsSpace(s[k])
    requires i + n == |s| || !IsSpace(s[i + n])
    ensures SkipSpace(s, i) == i + n
    decreases n
  {
    if n > 0 {
      SkipSpaceOver(s, i + 1, n - 1);
    }
  }

  /** A run of lower-case letters stops exactly where the first other character stands. */
  lemma {:induction false} SkipLowerOver(s: string, i: nat, n: nat)
    requires i + n <= |s|
    requires forall k :: i <= k < i + n ==> IsLower(s[k])
    requires i + n == |s| || !IsLower(s[i + n])
    ensures SkipLower(s, i) == i + n
    decreases n
  {
    if n > 0 {
      SkipLowerOver(s, i + 1, n - 1);
    }
  }

  predicate AllSpace(s: string) {
    forall k :: 0 <= k < |s| ==> IsSpace(s[k])
  }

  predicate AllLower(s: string) {
    forall k :: 0 <= k < |s| ==> IsLower(s[k])
  }

  // ---------------------------------------------------------------------
  // Voice declarations: `^(treble|alto|tenor|bass)([AB])\s*=\s*\\relative`

  datatype Declaration = Declaration(voice: string, section: char)

  const Voices: seq<string> := ["treble", "alto", "tenor", "bass"]

  const Relative: string := "\\relative"

  /** The voice name that begins the line, if any (no voice name begins another). */
  function VoicePrefix(s: string): (v: Option<string>)
    ensures v.Some? ==> v.value in Voices && v.value <= s
  {
    if "treble" <= s then Some("treble")
    else if "alto" <= s then Some("alto")
    else if "tenor" <= s then Some("tenor")
    else if "bass" <= s then Some("bass")
    else None
  }

  /** `re.match` of the declaration pattern against a (stripped) line. */
  function MatchDeclaration(line: string): (d: Option<Declaration>)
    ensures d.Some? ==> d.value.voice in Voices && d.value.voice <= line
    ensures d.Some? ==> |d.value.voice| < |line| && line[|d.value.voice|] == d.value.section
    ensures d.Some? ==> d.value.section == 'A' || d.value.section == 'B'
  {
    match VoicePrefix(line)
    case None => None
    case Some(v) =>
      var n := |v|;
      if n < |line| && (line[n] == 'A' || line[n] == 'B') then
        var j := SkipSpace(line, n + 1);
        if j < |line| && line[j] == '=' then
          var k := SkipSpace(line, j + 1);
          if Relative <= line[k..] then Some(Declaration(v, line[n])) else None
        else None
      else None
  }

  /** A line that begins with a voice name is attributed to that voice. */
  lemma VoicePrefixOf(v: string, s: string)
    requires v in Voices && v <= s
    ensures VoicePrefix(s) == Some(v)
  {
    if v == "alto" {
      assert s[0] == 'a';
    } else if v == "tenor" {
      assert s[0] == 't' && s[1] == 'e';
    } else if v == "bass" {
      assert s[0] == 'b';
    }
  }

  /** The declared shape: a voice name, a section letter, optional whitespace, `=` at j,
      optional whitespace, `\relative` at k. */
  predicate DeclarationShape(line: string, d: Declaration, j: int, k: int) {
    && d.voice in Voices && (d.section == 'A' || d.section == 'B')
    && |d.voice| < j < k <= |line|
    && d.voice <= line && line[|d.voice|] == d.section
    && (forall i :: |d.voice| < i < j ==> IsSpace(line[i]))
    && line[j] == '='
    && (forall i :: j < i < k ==> IsSpace(line[i]))
    && Relative <= line[k..]
  }

  /** The matcher accepts a line, with a given voice and section, exactly when the line has
      the declared shape. */
  lemma DeclarationIff(line: string, d: Declaration)
    ensures MatchDeclaration(line) == Some(d) <==> exists j, k :: DeclarationShape(line, d, j, k)
  {
    if MatchDeclaration(line) == Some(d) {
      var n := |d.voice|;
      var j := SkipSpace(line, n + 1);
      var k := SkipSpace(line, j + 1);
      SkipSpaceMeaning(line, n + 1);
      SkipSpaceMeaning(line, j + 1);
      assert DeclarationShape(line, d, j, k);
    }
    if exists j, k :: DeclarationShape(line, d, j, k) {
      var j, k :| DeclarationShape(line, d, j, k);
      DeclarationMatches(line, d, j, k);
    }
  }

  lemma DeclarationMatches(line: string, d: Declaration, j: int, k: int)
    requires DeclarationShape(line, d, j, k)
    ensures MatchDeclaration(line) == Some(d)
  {
    var n := |d.voice|;
    VoicePrefixOf(d.voice, line);
    assert SkipSpace(line, n + 1) == j by {
      SkipSpaceOver(line, n + 1, j - n - 1);
    }
    assert SkipSpace(line, j + 1) == k by {
      SkipSpaceOver(line, j + 1, k - j - 1);
    }
  }

  // ---------------------------------------------------------------------
  // The brace scan of load_lilypond_source

  /** The running brace count and whether an opening brace has been seen. */
  datatype ScanState = ScanState(count: int, found: bool)

  const Fresh: ScanState := ScanState(0, false)

  /** The line closes the section (a `}` brings the count back to zero after a `{`),
      or the scan continues in the given state. */
  datatype LineOutcome = Closes | Continues(state: ScanState)

  /** The character loop over one line. */
  function ScanChars(line: string, st: ScanState): LineOutcome
    decreases |line|
  {
    if |line| == 0 then Continues(st)
    else if line[0] == '{' then ScanChars(line[1..], ScanState(st.count + 1, true))
    else if line[0] == '}' then
      if st.found && st.count - 1 == 0 then Closes
      else ScanChars(line[1..], ScanState(st.count - 1, st.found))
    else ScanChars(line[1..], st)
  }

  /** The line (0-based) on which the section begun at line i ends; None when the
      count returns to zero at the end of a line without a closing brace doing it
      (the scan stops and records nothing), or when the lines run out. */
  function SectionEnd(lines: seq<string>, i: nat, st: ScanState): (e: Option<nat>)
    ensures e.Some? ==> i <= e.value < |lines|
    decreases |lines| - i
  {
    if i >= |lines| then None
    else
      match ScanChars(lines[i], st)
      case Closes => Some(i)
      case Continues(next) =>
        if next.found && next.count == 0 then None else SectionEnd(lines, i + 1, next)
  }

  /** One entry of `voice_sections`; line numbers are 1-based. */
  datatype Section = Section(startLine: int, endLine: int, content: seq<string>, voice: string, section: char)

  /** The section recorded for a declaration on line n (0-based), if its braces close. */
  function Recorded(lines: seq<string>, n: nat): (r: Option<Section>)
    requires n < |lines|
    ensures r.Some? ==> r.value.startLine == n + 1 && r.value.startLine <= r.value.endLine <= |lines|
    ensures r.Some? ==> r.value.content == RStripAll(lines[n..r.value.endLine])
    ensures r.Some? ==> MatchDeclaration(Strip(lines[n])) == Some(Declaration(r.value.voice, r.value.section))
  {
    match MatchDeclaration(Strip(lines[n]))
    case None => None
    case Some(d) =>
      match SectionEnd(lines, n, Fresh)
      case None => None
      case Some(e) => Some(Section(n + 1, e + 1, RStripAll(lines[n..e + 1]), d.voice, d.section))
  }

  /** What each line records, in order. */
  function RecordedLines(lines: seq<string>): (recs: seq<Option<Section>>)
    ensures |recs| == |lines| && forall n :: 0 <= n < |lines| ==> recs[n] == Recorded(lines, n)
  {
    seq(|lines|, n requires 0 <= n < |lines| => Recorded(lines, n))
  }

  function KeyOf(s: Section): string {
    s.voice + [s.section]
  }

  /** The dictionary built from what the lines record: a later entry for the same key overwrites. */
  function Collect(recs: seq<Option<Section>>): map<string, Section>
    decreases |recs|
  {
    if |recs| == 0 then map[]
    else
      var before := Collect(recs[..|recs| - 1]);
      match recs[|recs| - 1]
      case None => before
      case Some(s) => before[KeyOf(s) := s]
  }

  /** `voice_sections` after reading all the lines. */
  function Sections(lines: seq<string>): map<string, Section> {
    Collect(RecordedLines(lines))
  }

  /** The character loop of load_lilypond_source. */
  method ScanLine(line: string, st: ScanState) returns (outcome: LineOutcome)
    ensures outcome == ScanChars(line, st)
  {
    var count, found := st.count, st.found;
    for j := 0 to |line|
      invariant ScanChars(line, st) == ScanChars(line[j..], ScanState(count, found))
    {
      assert line[j..][1..] == line[j + 1..];
      if line[j] == '{' {
        count := count + 1;
        found := true;
      } else if line[j] == '}' {
        count := count - 1;
        if found && count == 0 {
          return Closes;
        }
      }
    }
    assert line[|line|..] == [];
    return Continues(ScanState(count, found));
  }

  /** The line loop of load_lilypond_source for a declaration on line `start`, collecting
      the right-stripped lines of the section. */
  method FindSectionEnd(lines: seq<string>, start: nat) returns (end: Option<nat>, content: seq<string>)
    requires start <= |lines|
    ensures end == SectionEnd(lines, start, Fresh)
    ensures end.Some? ==> content == RStripAll(lines[start..end.value + 1])
  {
    content := [];
    var st := Fresh;
    var i := start;
    while i < |lines|
      invariant start <= i <= |lines|
      invariant content == RStripAll(lines[start..i])
      invariant SectionEnd(lines, start, Fresh) == SectionEnd(lines, i, st)
      decreases |lines| - i
    {
      assert lines[start..i + 1] == lines[start..i] + [lines[i]];
      content := content + [RStrip(lines[i])];
      var outcome := ScanLine(lines[i], st);
      match outcome
      case Closes =>
        return Some(i), content;
      case Continues(next) =>
        st := next;
        if st.found && st.count == 0 {
          return None, content;
        }
      i := i + 1;
    }
    return None, content;
  }

  /** The body of the declaration loop: a declaration whose braces close gives its section. */
  method RecordSection(lines: seq<string>, n: nat) returns (r: Option<Section>)
    requires n < |lines|
    ensures r == Recorded(lines, n)
  {
    var decl := MatchDeclaration(Strip(lines[n]));
    if decl.None? {
      return None;
    }
    var end, content := FindSectionEnd(lines, n);
    if end.None? {
      return None;
    }
    return Some(Section(n + 1, end.value + 1, content, decl.value.voice, decl.value.section));
  }

  /** The declaration loop of load_lilypond_source. */
  method ParseVoiceSections(lines: seq<string>) returns (sections: map<string, Section>)
    ensures sections == Sections(lines)
  {
    var recs := RecordedLines(lines);
    sections := map[];
    for n := 0 to |lines|
      invariant sections == Collect(recs[..n])
    {
      assert recs[..n + 1][..n] == recs[..n];
      var r := RecordSection(lines, n);
      if r.Some? {
        sections := sections[KeyOf(r.value) := r.value];
      }
    }
    assert recs[..|lines|] == recs;
  }

  // ---------------------------------------------------------------------
  // Properties of the section parse

  /** Every entry of the dictionary is one of the recorded sections, under its own key. */
  lemma {:induction false} CollectFrom(recs: seq<Option<Section>>, k: string)
    requires k in Collect(recs)
    ensures KeyOf(Collect(recs)[k]) == k
    ensures exists j :: 0 <= j < |recs| && recs[j] == Some(Collect(recs)[k])
    decreases |recs|
  {
    var last := recs[|recs| - 1];
    var init := recs[..|recs| - 1];
    if last.Some? && KeyOf(last.value) == k {
      assert recs[|recs| - 1] == Some(Collect(recs)[k]);
    } else {
      CollectFrom(init, k);
      var j :| 0 <= j < |init| && init[j] == Some(Collect(init)[k]);
      assert recs[j] == init[j];
    }
  }

  /** The last entry recorded for a key is the one kept. */
  lemma {:induction false} CollectLastWins(recs: seq<Option<Section>>, m: nat)
    requires m < |recs| && recs[m].Some?
    requires forall j :: m < j < |recs| ==> recs[j].None? || KeyOf(recs[j].value) != KeyOf(recs[m].value)
    ensures KeyOf(recs[m].value) in Collect(recs)
    ensures Collect(recs)[KeyOf(recs[m].value)] == recs[m].value
    decreases |recs|
  {
    var init := recs[..|recs| - 1];
    if m < |recs| - 1 {
      CollectLastWins(init, m);
    }
  }

  /** Every recorded section starts on a line declaring it, spans at least that line,
      and holds exactly its lines, right-stripped. */
  lemma SectionsWellFormed(lines: seq<string>, k: string)
    requires k in Sections(lines)
    ensures var s := Sections(lines)[k];
            && k == KeyOf(s)
            && 1 <= s.startLine <= s.endLine <= |lines|
            && |s.content| == s.endLine - s.startLine + 1
            && s.content == RStripAll(lines[s.startLine - 1..s.endLine])
            && MatchDeclaration(Strip(lines[s.startLine - 1])) == Some(Declaration(s.voice, s.section))
  {
    var recs := RecordedLines(lines);
    CollectFrom(recs, k);
    var s := Collect(recs)[k];
    var j :| 0 <= j < |recs| && recs[j] == Some(s);
    RecordedShape(lines, j, s);
  }

  lemma RecordedShape(lines: seq<string>, j: nat, s: Section)
    requires j < |lines| && Recorded(lines, j) == Some(s)
    ensures 1 <= s.startLine <= s.endLine <= |lines|
    ensures |s.content| == s.endLine - s.startLine + 1
    ensures s.content == RStripAll(lines[s.startLine - 1..s.endLine])
    ensures MatchDeclaration(Strip(lines[s.startLine - 1])) == Some(Declaration(s.voice, s.section))
  {
  }

  /** A later declaration of the same voice and section overwrites an earlier one: the
      last declaration of a key whose braces close is the one kept. */
  lemma LastDeclarationWins(lines: seq<string>, m: nat)
    requires m < |lines| && Recorded(lines, m).Some?
    requires forall j :: m < j < |lines| ==>
               Recorded(lines, j).None? || KeyOf(Recorded(lines, j).value) != KeyOf(Recorded(lines, m).value)
    ensures KeyOf(Recorded(lines, m).value) in Sections(lines)
    ensures Sections(lines)[KeyOf(Recorded(lines, m).value)] == Recorded(lines, m).value
  {
    var recs := RecordedLines(lines);
    CollectLastWins(recs, m);
  }

  /** The number of `{` minus the number of `}`. */
  function Depth(s: string): int
    decreases |s|
  {
    if |s| == 0 then 0
    else (if s[0] == '{' then 1 else if s[0] == '}' then -1 else 0) + Depth(s[1..])
  }

  lemma {:induction false} DepthAppend(a: string, b: string)
    ensures Depth(a + b) == Depth(a) + Depth(b)
    decreases |a|
  {
    if |a| > 0 {
      var t := a + b;
      assert t[0] == a[0] && t[1..] == a[1..] + b;
      DepthAppend(a[1..], b);
      assert Depth(t) == (if t[0] == '{' then 1 else if t[0] == '}' then -1 else 0) + Depth(t[1..]);
    } else {
      assert a + b == b;
    }
  }

  /** The text up to position p ends with a `}` that brings the count, started in st,
      back to zero after an opening brace has been seen. */
  predicate ClosesAt(text: string, st: ScanState, p: int) {
    0 < p <= |text| && text[p - 1] == '}' && st.count + Depth(text[..p]) == 0
    && (st.found || '{' in text[..p])
  }

  /** What the character loop computes: a closing position, or the count and flag at the end. */
  lemma {:induction false} ScanCharsMeaning(line: string, st: ScanState)
    ensures ScanChars(line, st) == Closes ==> exists p :: ClosesAt(line, st, p)
    ensures ScanChars(line, st).Continues? ==>
              && ScanChars(line, st).state.count == st.count + Depth(line)
              && ScanChars(line, st).state.found == (st.found || '{' in line)
    decreases |line|
  {
    if |line| > 0 {
      var c := line[0];
      var next :=
        if c == '{' then ScanState(st.count + 1, true)
        else if c == '}' then ScanState(st.count - 1, st.found)
        else st;
      assert line == [c] + line[1..];
      DepthAppend([c], line[1..]);
      if c == '}' && st.found && st.count - 1 == 0 {
        assert line[..1] == [c];
        assert ClosesAt(line, st, 1);
      } else {
        ScanCharsMeaning(line[1..], next);
        if ScanChars(line[1..], next) == Closes {
          var p :| ClosesAt(line[1..], next, p);
          assert line[..p + 1] == [c] + line[1..][..p];
          DepthAppend([c], line[1..][..p]);
          assert ClosesAt(line, st, p + 1);
        }
      }
    }
  }

  /** The text of a run of lines, concatenated. */
  function Concat(ls: seq<string>): string
    decreases |ls|
  {
    if |ls| == 0 then "" else ls[0] + Concat(ls[1..])
  }

  /** A closing position in a later line is a closing position of the whole text. */
  lemma ClosesLater(a: string, b: string, st: ScanState, next: ScanState, p: int)
    requires next.count == st.count + Depth(a) && next.found == (st.found || '{' in a)
    requires ClosesAt(b, next, p)
    ensures ClosesAt(a + b, st, |a| + p)
  {
    var t := a + b;
    assert t[..|a| + p] == a + b[..p];
    DepthAppend(a, b[..p]);
    if '{' in a {
      var k :| 0 <= k < |a| && a[k] == '{';
      assert t[..|a| + p][k] == '{';
    }
    if '{' in b[..p] {
      var k :| 0 <= k < p && b[..p][k] == '{';
      assert t[..|a| + p][|a| + k] == '{';
    }
  }

  /** Some prefix of the text closes as the character loop requires. */
  ghost predicate ClosesIn(text: string, st: ScanState) {
    exists p :: ClosesAt(text, st, p)
  }

  /** Some prefix of the text of lines i..e closes as the character loop requires. */
  ghost predicate BalancedThrough(lines: seq<string>, i: nat, e: nat, st: ScanState)
    requires i <= e < |lines|
  {
    ClosesIn(Concat(lines[i..e + 1]), st)
  }

  /** A section is recorded only where the braces, counted from its declaration line,
      return to zero at a closing brace after an opening one. */
  lemma {:induction false} SectionEndBalanced(lines: seq<string>, i: nat, st: ScanState)
    requires SectionEnd(lines, i, st).Some?
    ensures BalancedThrough(lines, i, SectionEnd(lines, i, st).value, st)
    decreases |lines| - i
  {
    var e := SectionEnd(lines, i, st).value;
    ScanCharsMeaning(lines[i], st);
    assert lines[i..e + 1] == [lines[i]] + lines[i + 1..e + 1];
    match ScanChars(lines[i], st)
    case Closes =>
      assert e == i && lines[i + 1..e + 1] == [];
      assert Concat(lines[i..e + 1]) == lines[i];
    case Continues(next) =>
      assert SectionEnd(lines, i + 1, next) == Some(e);
      SectionEndBalanced(lines, i + 1, next);
      assert ClosesIn(Concat(lines[i + 1..e + 1]), next);
      var p :| ClosesAt(Concat(lines[i + 1..e + 1]), next, p);
      ClosesLater(lines[i], Concat(lines[i + 1..e + 1]), st, next, p);
      assert ClosesAt(Concat(lines[i..e + 1]), st, |lines[i]| + p);
  }

  /** A one-line declaration whose count comes back to zero through an opening brace, not a
      closing one, stops the scan without recording a section, although its braces
      balance after an opening one. */
  lemma ReopenedUnrecorded(line: string)
    requires ScanChars(line, Fresh) == Continues(ScanState(0, true))
    ensures Depth(line) == 0 && '{' in line
    ensures Sections([line]) == map[]
  {
    ScanCharsMeaning(line, Fresh);
    var lines := [line];
    assert SectionEnd(lines, 0, Fresh) == None by {
      assert lines[0] == line;
    }
    UnclosedUnrecorded(lines, 0);
    var recs := RecordedLines(lines);
    assert recs == [None];
    assert recs[..0] == [];
    assert Collect(recs) == Collect(recs[..0]);
  }

  /** Such a line exists and is a declaration: `bassA = \relative } {`. */
  const Reopened: string := "bassA = \\relative } {"

  lemma ReopenedDeclares()
    ensures MatchDeclaration(Strip(Reopened)) == Some(Declaration("bass", 'A'))
  {
    ReopenedStripped();
    ReopenedShape();
    DeclarationMatches(Reopened, Declaration("bass", 'A'), 6, 8);
  }

  lemma ReopenedStripped()
    ensures Strip(Reopened) == Reopened
  {
    assert RStrip(Reopened) == Reopened;
    assert LStrip(Reopened) == Reopened;
  }

  lemma ReopenedShape()
    ensures DeclarationShape(Reopened, Declaration("bass", 'A'), 6, 8)
  {
    assert Reopened[..4] == "bass";
    assert Reopened[8..][..9] == Relative;
  }

  /** A declaration whose braces do not close records nothing. */
  lemma UnclosedUnrecorded(lines: seq<string>, n: nat)
    requires n < |lines| && SectionEnd(lines, n, Fresh) == None
    ensures Recorded(lines, n) == None
  {
  }

  lemma ReopenedScan()
    ensures ScanChars(Reopened, Fresh) == Continues(ScanState(0, true))
  {
    var suffix := "} {";
    assert Reopened[18..] == suffix;
    assert Reopened[0..] == Reopened;
    ScanCharsStep(Reopened, 0, 18, Fresh);
    assert ScanChars(suffix, Fresh) == ScanChars(suffix[1..], ScanState(-1, false));
    assert suffix[1..] == " {" && suffix[1..][1..] == "{" && suffix[1..][1..][1..] == "";
    assert ScanChars(" {", ScanState(-1, false)) == ScanChars("{", ScanState(-1, false));
    assert ScanChars("{", ScanState(-1, false)) == ScanChars("", ScanState(0, true));
  }

  /** Characters other than braces leave the scan state unchanged. */
  lemma {:induction false} ScanCharsStep(line: string, i: nat, j: nat, st: ScanState)
    requires i <= j <= |line|
    requires forall k :: i <= k < j ==> line[k] != '{' && line[k] != '}'
    ensures ScanChars(line[i..], st) == ScanChars(line[j..], st)
    decreases j - i
  {
    if i < j {
      assert line[i..][1..] == line[i + 1..];
      ScanCharsStep(line, i + 1, j, st);
    }
  }
}
