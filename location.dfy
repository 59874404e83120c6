/** Mapping an analysed offset back to the LilyPond source (get_lilypond_location) and
    cutting a window of source lines around it (get_context_from_lilypond). Offsets and
    the section timing are exact `real`s; Python's `int()` on the progress product is
    truncation toward zero. */
module Location {
  import opened Base
  import opened Lilypond

  /** Python's `int(x)` on a float: truncation toward zero. */
  function Trunc(x: real): (n: int)
    ensures x >= 0.0 ==> 0 <= n && n as real <= x < n as real + 1.0
    ensures x < 0.0 ==> n <= 0 && n as real - 1.0 < x <= n as real
  {
    if x >= 0.0 then x.Floor else -((-x).Floor)
  }

  function MaxReal(a: real, b: real): real {
    if a >= b then a else b
  }

  function Min(a: int, b: int): int {
    if a <= b then a else b
  }

  function Max(a: int, b: int): int {
    if a >= b then a else b
  }

  /** `section_timings['B']` and the length of the whole score (`highestTime`). */
  datatype Timing = Timing(sectionB: real, highestTime: real)

  /** The dictionary get_lilypond_location returns. */
  datatype Location = Location(sectionKey: string, voice: string, section: char,
                               startLine: int, endLine: int, estimatedLine: int,
                               measure: int, beat: int, progress: real)

  /** Offsets before the start of B belong to section A. */
  function SectionAt(t: Timing, offset: real): char {
    if offset < t.sectionB then 'A' else 'B'
  }

  /** How far into its section the offset lies: a fraction of A's length, or of B's length
      taken as at least one beat. */
  function Progress(t: Timing, offset: real): real {
    if SectionAt(t, offset) == 'A' then (if t.sectionB > 0.0 then offset / t.sectionB else 0.0)
    else (offset - t.sectionB) / MaxReal(1.0, t.highestTime - t.sectionB)
  }

  /** The line the progress points at before clamping: the declaration line, plus one, plus
      the progress scaled over the content lines other than the last two. */
  function RawEstimate(start: int, contentLines: int, progress: real): int {
    start + Trunc(progress * (Max(1, contentLines - 2) as real)) + 1
  }

  /** get_lilypond_location: nothing without sections or without a section for this voice
      and part of the tune; otherwise the section's lines and the estimate kept below the
      closing line. */
  function GetLocation(sections: map<string, Section>, t: Timing, voice: string, offset: real,
                       measure: int, beat: int): (loc: Option<Location>)
    ensures loc.Some? <==> voice + [SectionAt(t, offset)] in sections
    ensures loc.Some? ==> loc.value.sectionKey == voice + [SectionAt(t, offset)]
    ensures loc.Some? ==>
              var s := sections[voice + [SectionAt(t, offset)]];
              && loc.value.voice == voice && loc.value.section == SectionAt(t, offset)
              && loc.value.startLine == s.startLine && loc.value.endLine == s.endLine
              && loc.value.estimatedLine <= s.endLine - 1
              && loc.value.measure == measure && loc.value.beat == beat
  {
    if |sections| == 0 then None
    else
      var section := SectionAt(t, offset);
      var key := voice + [section];
      if key !in sections then None
      else
        var s := sections[key];
        var progress := Progress(t, offset);
        var est := RawEstimate(s.startLine, |s.content|, progress);
        Some(Location(key, voice, section, s.startLine, s.endLine, Min(est, s.endLine - 1),
                      measure, beat, progress))
  }

  /** No offset from the start of the music on is placed before its section's first
      content line, unless the section is a single line, where the clamp wins. */
  lemma EstimateNotBeforeSection(sections: map<string, Section>, t: Timing, voice: string,
                                 offset: real, measure: int, beat: int)
    requires offset >= 0.0
    requires GetLocation(sections, t, voice, offset, measure, beat).Some?
    ensures var loc := GetLocation(sections, t, voice, offset, measure, beat).value;
            loc.estimatedLine >= Min(loc.startLine + 1, loc.endLine - 1)
  {
    var p := Progress(t, offset);
    assert p >= 0.0 by {
      if SectionAt(t, offset) == 'B' {
        var d := MaxReal(1.0, t.highestTime - t.sectionB);
        assert offset - t.sectionB >= 0.0 && d >= 1.0;
      }
    }
  }

  /** In section A the progress stays below one, so for a section of at least three lines
      the estimate already falls strictly inside it and the clamp changes nothing. */
  lemma SectionAInside(s: Section, t: Timing, offset: real)
    requires 0.0 <= offset < t.sectionB
    requires |s.content| == s.endLine - s.startLine + 1 >= 3
    ensures var est := RawEstimate(s.startLine, |s.content|, Progress(t, offset));
            s.startLine + 1 <= est <= s.endLine - 1
  {
    var p := Progress(t, offset);
    var m := Max(1, |s.content| - 2);
    assert 0.0 <= p < 1.0 by {
      assert p == offset / t.sectionB;
    }
    assert p * (m as real) < m as real by {
      assert m as real >= 1.0;
    }
    assert Trunc(p * (m as real)) <= m - 1;
  }

  // ---------------------------------------------------------------------
  // The context window

  const Arrow: string := "→ "
  const Blank: string := "  "

  /** One context line for the 0-based line i: the marker, the 1-based number and the text
      with trailing whitespace dropped. */
  function ContextLine(content: seq<string>, i: nat, est: int): (r: string)
    requires i < |content|
    ensures Marked(r) <==> i + 1 == est
  {
    (if i + 1 == est then Arrow else Blank) + "Line " + IntToString(i + 1) + ": " + RStrip(content[i])
  }

  /** A context line carrying the arrow. */
  predicate Marked(line: string) {
    |line| > 0 && line[0] == '→'
  }

  /** The 0-based lines shown: three before the estimated line, the line, and three after,
      cut to the file. */
  function WindowStart(est: int): int {
    Max(0, est - 4)
  }

  function WindowEnd(content: seq<string>, est: int): int {
    Min(|content|, est + 3)
  }

  function ContextWindow(content: seq<string>, est: int): (w: seq<string>)
  {
    var lo, hi := WindowStart(est), WindowEnd(content, est);
    if hi <= lo then []
    else seq(hi - lo, k requires 0 <= k < hi - lo => ContextLine(content, lo + k, est))
  }

  /** get_context_from_lilypond: nothing without a location or without source lines. */
  method GetContext(content: seq<string>, loc: Option<Location>) returns (ctx: Option<seq<string>>)
    ensures ctx.None? <==> loc.None? || |content| == 0
    ensures ctx.Some? ==> ctx.value == ContextWindow(content, loc.value.estimatedLine)
  {
    if loc.None? || |content| == 0 {
      return None;
    }
    var est := loc.value.estimatedLine;
    var lo, hi := Max(0, est - 4), Min(|content|, est + 3);
    var lines: seq<string> := [];
    if lo < hi {
      for i := lo to hi
        invariant |lines| == i - lo
        invariant forall k :: 0 <= k < |lines| ==> lines[k] == ContextLine(content, lo + k, est)
      {
        lines := lines + [ContextLine(content, i, est)];
      }
    }
    return Some(lines);
  }

  /** The window shows at most seven lines, consecutive and in file order. */
  lemma WindowShape(content: seq<string>, est: int)
    ensures |ContextWindow(content, est)| <= 7
    ensures forall k :: 0 <= k < |ContextWindow(content, est)| ==>
              ContextWindow(content, est)[k] == ContextLine(content, WindowStart(est) + k, est)
  {
  }

  /** A window cut by neither end of the file shows all seven lines, the marked one
      in the middle. */
  lemma FullWindow(content: seq<string>, est: int)
    requires 4 <= est && est + 3 <= |content|
    ensures |ContextWindow(content, est)| == 7
    ensures ContextWindow(content, est)[3] == ContextLine(content, est - 1, est)
  {
  }

  /** The estimated line is in the window exactly when it is a line of the file. */
  lemma MarkerShownIff(content: seq<string>, est: int)
    ensures (exists k :: 0 <= k < |ContextWindow(content, est)| && Marked(ContextWindow(content, est)[k]))
            <==> 1 <= est <= |content|
  {
    var w := ContextWindow(content, est);
    var lo := WindowStart(est);
    if 1 <= est <= |content| {
      assert lo <= est - 1 < WindowEnd(content, est);
      assert w[est - 1 - lo] == ContextLine(content, est - 1, est);
      assert Marked(w[est - 1 - lo]);
    }
    if exists k :: 0 <= k < |w| && Marked(w[k]) {
      var k :| 0 <= k < |w| && Marked(w[k]);
      assert w[k] == ContextLine(content, lo + k, est);
    }
  }
}
