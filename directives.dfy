/** The `\key` and `\transpose` directives of the LilyPond source
    (parse_key_and_transposition): the mode the music is written in, and the
    number of semitones that turns a sounding MIDI pitch back into the written
    pitch. The two search patterns `\\key\s+([a-z]+[bs]?)\s+\\(major|minor)` and
    `\\transpose\s+([a-z]+[bs]?)\s+([a-z]+[bs]?)\s*\{` are written out as
    matchers; since `[a-z]+` already takes every letter, a note name is the
    longest run of lower-case letters. */
module Directives {
  import opened Base
  import opened Lilypond

  // ---------------------------------------------------------------------
  // `re.search` over the start positions of a line

  /** The leftmost match from position i, given the matcher's outcome at every position. */
  function FirstMatch<T>(ms: seq<Option<T>>, i: nat): (r: Option<T>)
    requires i <= |ms|
    ensures r.Some? ==> r in ms[i..]
    decreases |ms| - i
  {
    if i == |ms| then None
    else if ms[i].Some? then ms[i]
    else FirstMatch(ms, i + 1)
  }

  /** No match is found exactly when no position from i on matches. */
  lemma {:induction false} FirstMatchNone<T>(ms: seq<Option<T>>, i: nat)
    requires i <= |ms|
    ensures FirstMatch(ms, i).None? <==> forall j :: i <= j < |ms| ==> ms[j].None?
    decreases |ms| - i
  {
    if i < |ms| && ms[i].None? {
      FirstMatchNone(ms, i + 1);
    }
  }

  /** A match found is the one at the leftmost matching position j. */
  lemma {:induction false} FirstMatchFound<T>(ms: seq<Option<T>>, i: nat) returns (j: nat)
    requires i <= |ms|
    ensures FirstMatch(ms, i).Some? ==>
              i <= j < |ms| && ms[j] == FirstMatch(ms, i) && forall k :: i <= k < j ==> ms[k].None?
    decreases |ms| - i
  {
    if i == |ms| || ms[i].Some? {
      j := i;
    } else {
      j := FirstMatchFound(ms, i + 1);
    }
  }

  // ---------------------------------------------------------------------
  // `\key NOTE \MODE`

  const KeyWord: string := "\\key"

  /** The mode of a `\key` directive starting at position i, if one does. */
  function KeyAt(line: string, i: nat): (m: Option<string>)
    requires i <= |line|
    ensures m.Some? ==> m.value == "major" || m.value == "minor"
  {
    if !(KeyWord <= line[i..]) then None
    else
      var a := SkipSpace(line, i + 4);
      var b := SkipLower(line, a);
      var c := SkipSpace(line, b);
      if a == i + 4 || b == a || c == b || c >= |line| || line[c] != '\\' then None
      else if "major" <= line[c + 1..] then Some("major")
      else if "minor" <= line[c + 1..] then Some("minor")
      else None
  }

  /** The shape of a `\key` directive at i: the keyword, whitespace up to a, a note name
      a..b, whitespace up to c, then a backslash and the mode. */
  predicate KeyShape(line: string, i: int, mode: string, a: int, b: int, c: int) {
    && 0 <= i && i + 4 < a < b < c < |line|
    && KeyWord <= line[i..]
    && (forall k :: i + 4 <= k < a ==> IsSpace(line[k]))
    && (forall k :: a <= k < b ==> IsLower(line[k]))
    && (forall k :: b <= k < c ==> IsSpace(line[k]))
    && line[c] == '\\'
    && (mode == "major" || mode == "minor") && mode <= line[c + 1..]
  }

  /** The key matcher accepts exactly the lines of that shape. */
  lemma KeyIff(line: string, i: nat, mode: string)
    requires i <= |line|
    ensures KeyAt(line, i) == Some(mode) <==> exists a, b, c :: KeyShape(line, i, mode, a, b, c)
  {
    if KeyAt(line, i) == Some(mode) {
      var a := SkipSpace(line, i + 4);
      var b := SkipLower(line, a);
      var c := SkipSpace(line, b);
      SkipSpaceMeaning(line, i + 4);
      SkipLowerMeaning(line, a);
      SkipSpaceMeaning(line, b);
      assert KeyShape(line, i, mode, a, b, c);
    }
    if exists a, b, c :: KeyShape(line, i, mode, a, b, c) {
      var a, b, c :| KeyShape(line, i, mode, a, b, c);
      KeyMatches(line, i, mode, a, b, c);
    }
  }

  lemma KeyMatches(line: string, i: nat, mode: string, a: int, b: int, c: int)
    requires KeyShape(line, i, mode, a, b, c)
    ensures KeyAt(line, i) == Some(mode)
  {
    assert SkipSpace(line, i + 4) == a by {
      SkipSpaceOver(line, i + 4, a - i - 4);
    }
    assert SkipLower(line, a) == b by {
      SkipLowerOver(line, a, b - a);
    }
    assert SkipSpace(line, b) == c by {
      SkipSpaceOver(line, b, c - b);
    }
    if mode == "minor" {
      assert line[c + 1..][1] == 'i';
    }
  }

  /** The key matcher at every start position of the line, 0 .. |line|. */
  function KeyCandidates(line: string): (ms: seq<Option<string>>)
    ensures |ms| == |line| + 1 && forall k :: 0 <= k <= |line| ==> ms[k] == KeyAt(line, k)
  {
    seq(|line| + 1, k requires 0 <= k <= |line| => KeyAt(line, k))
  }

  /** `re.search` for the key pattern from position i. */
  function SearchKey(line: string, i: nat): (m: Option<string>)
    requires i <= |line|
    ensures m.Some? ==> m.value == "major" || m.value == "minor"
  {
    FirstMatch(KeyCandidates(line), i)
  }

  /** A key directive starts at j, and none starts between i and j. */
  ghost predicate KeyFirstAt(line: string, i: nat, j: nat, m: Option<string>) {
    i <= j <= |line| && KeyAt(line, j) == m && forall k :: i <= k < j ==> KeyAt(line, k).None?
  }

  /** The search finds a directive exactly when one starts somewhere, and then it is the
      leftmost one. */
  lemma SearchKeyLeftmost(line: string, i: nat)
    requires i <= |line|
    ensures SearchKey(line, i).None? <==> forall j :: i <= j <= |line| ==> KeyAt(line, j).None?
    ensures SearchKey(line, i).Some? ==> exists j :: KeyFirstAt(line, i, j, SearchKey(line, i))
  {
    var ms := KeyCandidates(line);
    FirstMatchNone(ms, i);
    if SearchKey(line, i).Some? {
      var j := FirstMatchFound(ms, i);
      assert KeyFirstAt(line, i, j, SearchKey(line, i));
    }
  }

  // ---------------------------------------------------------------------
  // `\transpose FROM TO {`

  const TransposeWord: string := "\\transpose"

  datatype NotePair = NotePair(from: string, to: string)

  /** The note names of a `\transpose` directive starting at position i, if one does. */
  function TransposeAt(line: string, i: nat): (p: Option<NotePair>)
    requires i <= |line|
    ensures p.Some? ==> |p.value.from| > 0 && |p.value.to| > 0
  {
    if !(TransposeWord <= line[i..]) then None
    else
      var a := SkipSpace(line, i + 10);
      var b := SkipLower(line, a);
      var c := SkipSpace(line, b);
      var d := SkipLower(line, c);
      var e := SkipSpace(line, d);
      if a == i + 10 || b == a || c == b || d == c || e >= |line| || line[e] != '{' then None
      else Some(NotePair(line[a..b], line[c..d]))
  }

  /** The shape of a `\transpose` directive at i: the keyword, whitespace up to a, the first
      note a..b, whitespace up to c, the second note c..d, optional whitespace up to e,
      then an opening brace. */
  predicate TransposeShape(line: string, i: int, p: NotePair, a: int, b: int, c: int, d: int, e: int) {
    && 0 <= i && i + 10 < a < b < c < d <= e < |line|
    && TransposeWord <= line[i..]
    && (forall k :: i + 10 <= k < a ==> IsSpace(line[k]))
    && (forall k :: a <= k < b ==> IsLower(line[k]))
    && (forall k :: b <= k < c ==> IsSpace(line[k]))
    && (forall k :: c <= k < d ==> IsLower(line[k]))
    && (forall k :: d <= k < e ==> IsSpace(line[k]))
    && line[e] == '{'
    && p == NotePair(line[a..b], line[c..d])
  }

  /** The transpose matcher accepts exactly the lines of that shape. */
  lemma TransposeIff(line: string, i: nat, p: NotePair)
    requires i <= |line|
    ensures TransposeAt(line, i) == Some(p) <==> exists a, b, c, d, e :: TransposeShape(line, i, p, a, b, c, d, e)
  {
    if TransposeAt(line, i) == Some(p) {
      var a := SkipSpace(line, i + 10);
      var b := SkipLower(line, a);
      var c := SkipSpace(line, b);
      var d := SkipLower(line, c);
      var e := SkipSpace(line, d);
      SkipSpaceMeaning(line, i + 10);
      SkipLowerMeaning(line, a);
      SkipSpaceMeaning(line, b);
      SkipLowerMeaning(line, c);
      SkipSpaceMeaning(line, d);
      assert TransposeShape(line, i, p, a, b, c, d, e);
    }
    if exists a, b, c, d, e :: TransposeShape(line, i, p, a, b, c, d, e) {
      var a, b, c, d, e :| TransposeShape(line, i, p, a, b, c, d, e);
      TransposeMatches(line, i, p, a, b, c, d, e);
    }
  }

  lemma TransposeMatches(line: string, i: nat, p: NotePair, a: int, b: int, c: int, d: int, e: int)
    requires TransposeShape(line, i, p, a, b, c, d, e)
    ensures TransposeAt(line, i) == Some(p)
  {
    assert SkipSpace(line, i + 10) == a by {
      SkipSpaceOver(line, i + 10, a - i - 10);
    }
    assert SkipLower(line, a) == b by {
      SkipLowerOver(line, a, b - a);
    }
    assert SkipSpace(line, b) == c by {
      SkipSpaceOver(line, b, c - b);
    }
    assert SkipLower(line, c) == d by {
      SkipLowerOver(line, c, d - c);
    }
    assert SkipSpace(line, d) == e by {
      SkipSpaceOver(line, d, e - d);
    }
  }

  /** The transpose matcher at every start position of the line, 0 .. |line|. */
  function TransposeCandidates(line: string): (ms: seq<Option<NotePair>>)
    ensures |ms| == |line| + 1 && forall k :: 0 <= k <= |line| ==> ms[k] == TransposeAt(line, k)
  {
    seq(|line| + 1, k requires 0 <= k <= |line| => TransposeAt(line, k))
  }

  /** `re.search` for the transpose pattern from position i. */
  function SearchTranspose(line: string, i: nat): (p: Option<NotePair>)
    requires i <= |line|
    ensures p.Some? ==> |p.value.from| > 0 && |p.value.to| > 0
  {
    FirstMatch(TransposeCandidates(line), i)
  }

  /** A transpose directive starts at j, and none starts between i and j. */
  ghost predicate TransposeFirstAt(line: string, i: nat, j: nat, p: Option<NotePair>) {
    i <= j <= |line| && TransposeAt(line, j) == p && forall k :: i <= k < j ==> TransposeAt(line, k).None?
  }

  /** The search finds a directive exactly when one starts somewhere, and then it is the
      leftmost one. */
  lemma SearchTransposeLeftmost(line: string, i: nat)
    requires i <= |line|
    ensures SearchTranspose(line, i).None? <==> forall j :: i <= j <= |line| ==> TransposeAt(line, j).None?
    ensures SearchTranspose(line, i).Some? ==> exists j :: TransposeFirstAt(line, i, j, SearchTranspose(line, i))
  {
    var ms := TransposeCandidates(line);
    FirstMatchNone(ms, i);
    if SearchTranspose(line, i).Some? {
      var j := FirstMatchFound(ms, i);
      assert TransposeFirstAt(line, i, j, SearchTranspose(line, i));
    }
  }

  // ---------------------------------------------------------------------
  // Semitone arithmetic

  /** Solmization note names (with -s sharp and -b flat) and their semitones above do. */
  const Solmization: map<string, int> :=
    map["do" := 0, "dos" := 1, "dob" := 11, "re" := 2, "res" := 3, "reb" := 1,
        "mi" := 4, "mis" := 5, "mib" := 3, "fa" := 5, "fas" := 6, "fab" := 4,
        "sol" := 7, "sols" := 8, "solb" := 6, "la" := 9, "las" := 10, "lab" := 8,
        "si" := 11, "sis" := 0, "sib" := 10]

  /** `SOLMIZATION_SEMITONES.get(name, 0)`: an unknown name counts as do. */
  function Semitones(name: string): int {
    if name in Solmization then Solmization[name] else 0
  }

  /** Every name lies within one octave above do. */
  lemma SemitonesInOctave(name: string)
    ensures 0 <= Semitones(name) <= 11
  {
  }

  /** Fold an interval into [-6, 6]: more than a tritone up is taken as down, and more than a
      tritone down as up. */
  function NormalizeInterval(raw: int): (r: int)
    ensures -18 <= raw <= 18 ==> -6 <= r <= 6
    ensures (r - raw) % 12 == 0
  {
    if raw > 6 then raw - 12 else if raw < -6 then raw + 12 else raw
  }

  /** A detected transposition: the notes, LilyPond's interval and its reversal for analysis. */
  datatype Transposition = Transposition(from: string, to: string, lilypond: int, analysis: int)

  function Transpose(p: NotePair): Transposition {
    var lily := NormalizeInterval(Semitones(p.to) - Semitones(p.from));
    Transposition(p.from, p.to, lily, -lily)
  }

  /** The interval lies in [-6, 6], agrees with `to - from` modulo 12, and the analysis
      offset undoes it. */
  lemma TransposeBounds(p: NotePair)
    ensures var t := Transpose(p);
            && -6 <= t.lilypond <= 6 && t.analysis == -t.lilypond
            && (t.lilypond - (Semitones(p.to) - Semitones(p.from))) % 12 == 0
  {
    SemitonesInOctave(p.from);
    SemitonesInOctave(p.to);
  }

  /** `\transpose do la` sounds a minor third below the written music, so analysis adds 3. */
  lemma TransposeDoLa()
    ensures Transpose(NotePair("do", "la")) == Transposition("do", "la", -3, 3)
  {
  }

  /** Both ends of the range occur: a tritone up stays +6 and a tritone down stays -6. */
  lemma TritonesKept()
    ensures Transpose(NotePair("do", "fas")).lilypond == 6
    ensures Transpose(NotePair("fas", "do")).lilypond == -6
  {
  }

  /** English note names are not solmization names, so they count as do: `\transpose c a`
      is read as no transposition. */
  lemma EnglishNamesIgnored()
    ensures Transpose(NotePair("c", "a")) == Transposition("c", "a", 0, 0)
  {
  }

  // ---------------------------------------------------------------------
  // The directive loop

  /** The written mode and the transposition found. */
  datatype Directives = Directives(mode: string, transposition: Option<Transposition>)

  /** parse_key_and_transposition over the lines, starting from the given mode: a line with a
      `\key` sets the mode and is not searched for `\transpose`; the first `\transpose`
      ends the loop. */
  function ScanDirectives(lines: seq<string>, mode: string): (d: Directives)
    ensures d.mode == mode || d.mode == "major" || d.mode == "minor"
    ensures d.transposition.Some? ==> d.transposition.value.analysis == -d.transposition.value.lilypond
    decreases |lines|
  {
    if |lines| == 0 then Directives(mode, None)
    else
      match SearchKey(lines[0], 0)
      case Some(m) => ScanDirectives(lines[1..], m)
      case None =>
        match SearchTranspose(lines[0], 0)
        case Some(p) => Directives(mode, Some(Transpose(p)))
        case None => ScanDirectives(lines[1..], mode)
  }

  /** The loop of parse_key_and_transposition. */
  method ReadDirectives(lines: seq<string>, mode: string) returns (d: Directives)
    ensures d == ScanDirectives(lines, mode)
  {
    var current := mode;
    for n := 0 to |lines|
      invariant ScanDirectives(lines, mode) == ScanDirectives(lines[n..], current)
    {
      assert lines[n..][1..] == lines[n + 1..];
      var key := SearchKey(lines[n], 0);
      if key.Some? {
        current := key.value;
        continue;
      }
      var pair := SearchTranspose(lines[n], 0);
      if pair.Some? {
        return Directives(current, Some(Transpose(pair.value)));
      }
    }
    assert lines[|lines|..] == [];
    return Directives(current, None);
  }

  /** Reading continues across a split of the lines while no transposition has been found. */
  lemma {:induction false} ScanDirectivesAppend(a: seq<string>, b: seq<string>, mode: string)
    requires ScanDirectives(a, mode).transposition.None?
    ensures ScanDirectives(a + b, mode) == ScanDirectives(b, ScanDirectives(a, mode).mode)
    decreases |a|
  {
    if |a| > 0 {
      var ab := a + b;
      assert ab[0] == a[0] && ab[1..] == a[1..] + b;
      var next := if SearchKey(a[0], 0).Some? then SearchKey(a[0], 0).value else mode;
      assert ScanDirectives(a, mode) == ScanDirectives(a[1..], next);
      assert ScanDirectives(ab, mode) == ScanDirectives(ab[1..], next);
      ScanDirectivesAppend(a[1..], b, next);
    } else {
      assert a + b == b;
    }
  }

  /** Only the first transposition counts: nothing after it changes the result. */
  lemma {:induction false} FirstTransposeWins(a: seq<string>, b: seq<string>, mode: string)
    requires ScanDirectives(a, mode).transposition.Some?
    ensures ScanDirectives(a + b, mode) == ScanDirectives(a, mode)
    decreases |a|
  {
    assert |a| > 0;
    assert (a + b)[0] == a[0] && (a + b)[1..] == a[1..] + b;
    match SearchKey(a[0], 0)
    case Some(m) => FirstTransposeWins(a[1..], b, m);
    case None =>
      if SearchTranspose(a[0], 0).None? {
        FirstTransposeWins(a[1..], b, mode);
      }
  }

  /** A line holding both directives only sets the mode; its transposition is skipped. */
  lemma KeyLineSkipsTranspose(line: string, rest: seq<string>, mode: string)
    requires SearchKey(line, 0).Some?
    ensures ScanDirectives([line] + rest, mode) == ScanDirectives(rest, SearchKey(line, 0).value)
  {
    assert ([line] + rest)[0] == line && ([line] + rest)[1..] == rest;
  }
}
