/** Small value types and string helpers shared by the analyzer modules:
    an Option type for Python's None, the ascending listing that
    `sorted(list(set(...)))` produces for small integer sets, Python's
    whitespace stripping, decimal rendering of integers, `' - '.join` and
    the `in` test on strings. */
module Base {

  datatype Option<+T> = None | Some(value: T)

  /** The distinct values of `xs` that lie in [lo, hi), in strictly ascending order:
      Python's `sorted(set(xs))` when every value lies in the range. */
  function Ascending(xs: seq<int>, lo: int, hi: int): (r: seq<int>)
    decreases hi - lo
    ensures forall i :: 0 <= i < |r| ==> lo <= r[i] < hi && r[i] in xs
    ensures forall x :: x in xs && lo <= x < hi ==> x in r
    ensures forall i, j :: 0 <= i < j < |r| ==> r[i] < r[j]
  {
    if lo >= hi then []
    else if lo in xs then [lo] + Ascending(xs, lo + 1, hi)
    else Ascending(xs, lo + 1, hi)
  }

  /** The ascending listing is empty exactly when no value lies in range. */
  lemma AscendingEmpty(xs: seq<int>, lo: int, hi: int)
    ensures Ascending(xs, lo, hi) == [] <==> forall x :: x in xs ==> !(lo <= x < hi)
  {
    if Ascending(xs, lo, hi) != [] {
      assert Ascending(xs, lo, hi)[0] in xs;
    }
  }

  /** Two lists with the same values in [lo, hi) have the same ascending listing. */
  lemma {:induction false} AscendingExtensional(xs: seq<int>, ys: seq<int>, lo: int, hi: int)
    requires forall x :: lo <= x < hi ==> (x in xs <==> x in ys)
    ensures Ascending(xs, lo, hi) == Ascending(ys, lo, hi)
    decreases hi - lo
  {
    if lo < hi {
      AscendingExtensional(xs, ys, lo + 1, hi);
    }
  }

  /** The elements of a sequence, as a set. */
  function Elements(xs: seq<int>): set<int> {
    set x | x in xs
  }

  // ---------------------------------------------------------------------
  // Whitespace and stripping

  /** Python's `str.isspace()` on one character, which is also what `strip`, `lstrip`,
      `rstrip` and the pattern `\s` take as whitespace: \t to \r, the separators
      \x1c to \x1f, the space, and the Unicode spaces and line separators. */
  predicate IsSpace(c: char) {
    || '\t' <= c <= '\r' || '\U{001C}' <= c <= ' '
    || c == '\U{0085}' || c == '\U{00A0}' || c == '\U{1680}' || '\U{2000}' <= c <= '\U{200A}'
    || c == '\U{2028}' || c == '\U{2029}' || c == '\U{202F}' || c == '\U{205F}' || c == '\U{3000}'
  }

  /** Python's `str.rstrip()`: drop trailing whitespace. */
  function RStrip(s: string): (r: string)
    ensures |r| <= |s|
  {
    if |s| > 0 && IsSpace(s[|s| - 1]) then RStrip(s[..|s| - 1]) else s
  }

  /** What `rstrip` keeps: a prefix ending in a non-space, all that it drops being whitespace. */
  lemma {:induction false} RStripMeaning(s: string)
    ensures RStrip(s) <= s
    ensures RStrip(s) == [] || !IsSpace(RStrip(s)[|RStrip(s)| - 1])
    ensures forall i :: |RStrip(s)| <= i < |s| ==> IsSpace(s[i])
    decreases |s|
  {
    if |s| > 0 && IsSpace(s[|s| - 1]) {
      RStripMeaning(s[..|s| - 1]);
    }
  }

  /** Python's `str.lstrip()`: drop leading whitespace. */
  function LStrip(s: string): (r: string)
    ensures |r| <= |s|
  {
    if |s| > 0 && IsSpace(s[0]) then LStrip(s[1..]) else s
  }

  /** What `lstrip` keeps: a suffix starting with a non-space, all that it drops being whitespace. */
  lemma {:induction false} LStripMeaning(s: string)
    ensures LStrip(s) == s[|s| - |LStrip(s)|..]
    ensures LStrip(s) == [] || !IsSpace(LStrip(s)[0])
    ensures forall i :: 0 <= i < |s| - |LStrip(s)| ==> IsSpace(s[i])
    decreases |s|
  {
    if |s| > 0 && IsSpace(s[0]) {
      LStripMeaning(s[1..]);
    }
  }

  /** Python's `str.strip()`. */
  function Strip(s: string): string {
    LStrip(RStrip(s))
  }

  /** Python's `[x.rstrip() for x in xs]`. */
  function RStripAll(xs: seq<string>): (r: seq<string>)
    ensures |r| == |xs|
    ensures forall i :: 0 <= i < |xs| ==> r[i] == RStrip(xs[i])
  {
    seq(|xs|, i requires 0 <= i < |xs| => RStrip(xs[i]))
  }

  // ---------------------------------------------------------------------
  // Decimal rendering, as Python's `str(n)` / f"{n}"

  function DigitChar(d: int): char
    requires 0 <= d < 10
  {
    "0123456789"[d]
  }

  function NatToString(n: nat): (r: string)
    ensures |r| >= 1
    ensures forall i :: 0 <= i < |r| ==> '0' <= r[i] <= '9'
  {
    if n < 10 then [DigitChar(n)] else NatToString(n / 10) + [DigitChar(n % 10)]
  }

  /** Different naturals have different decimal spellings. */
  lemma {:induction false} NatToStringInjective(m: nat, n: nat)
    requires NatToString(m) == NatToString(n)
    ensures m == n
    decreases m
  {
    var a, b := NatToString(m), NatToString(n);
    if m >= 10 && n >= 10 {
      assert a[..|a| - 1] == NatToString(m / 10) && b[..|b| - 1] == NatToString(n / 10);
      NatToStringInjective(m / 10, n / 10);
      assert DigitChar(m % 10) == a[|a| - 1] == DigitChar(n % 10);
      DigitCharInjective(m % 10, n % 10);
    } else if m < 10 && n < 10 {
      DigitCharInjective(m, n);
    }
  }

  lemma DigitCharInjective(a: int, b: int)
    requires 0 <= a < 10 && 0 <= b < 10 && DigitChar(a) == DigitChar(b)
    ensures a == b
  {
  }

  /** Different integers have different decimal spellings. */
  lemma IntToStringInjective(m: int, n: int)
    requires IntToString(m) == IntToString(n)
    ensures m == n
  {
    var s := IntToString(m);
    assert (m < 0) == (n < 0);
    if m < 0 {
      assert s == "-" + NatToString(-m) && s == "-" + NatToString(-n);
      assert s[1..] == NatToString(-m) && s[1..] == NatToString(-n);
      NatToStringInjective(-m, -n);
    } else {
      NatToStringInjective(m, n);
    }
  }

  function IntToString(n: int): (r: string)
    ensures |r| >= 1
    ensures (r[0] == '-') <==> n < 0
  {
    if n < 0 then "-" + NatToString(-n) else NatToString(n)
  }

  // ---------------------------------------------------------------------
  // Joining and substring search

  /** Python's `sep.join(parts)`. */
  function Join(parts: seq<string>, sep: string): string
    decreases |parts|
  {
    if |parts| == 0 then ""
    else if |parts| == 1 then parts[0]
    else parts[0] + sep + Join(parts[1..], sep)
  }

  /** Joining a concatenation of two non-empty lists puts one separator between the two joins. */
  lemma {:induction false} JoinAppend(a: seq<string>, b: seq<string>, sep: string)
    requires |a| > 0 && |b| > 0
    ensures Join(a + b, sep) == Join(a, sep) + sep + Join(b, sep)
    decreases |a|
  {
    if |a| == 1 {
      assert (a + b)[1..] == b;
    } else {
      assert (a + b)[1..] == a[1..] + b;
      JoinAppend(a[1..], b, sep);
    }
  }

  /** Joining four parts. */
  lemma JoinFour(w: string, x: string, y: string, z: string, sep: string)
    ensures Join([w, x, y, z], sep) == w + sep + x + sep + y + sep + z
  {
    assert [w, x, y, z][1..] == [x, y, z] && [x, y, z][1..] == [y, z] && [y, z][1..] == [z];
    assert Join([z], sep) == z;
    assert Join([y, z], sep) == y + sep + z;
    assert Join([x, y, z], sep) == x + sep + (y + sep + z);
    assert Join([w, x, y, z], sep) == w + sep + (x + sep + (y + sep + z));
  }

  /** `needle in hay` for Python strings: `needle` occurs contiguously in `hay`. */
  predicate Contains(hay: string, needle: string)
    decreases |hay|
  {
    needle <= hay || (|hay| > 0 && Contains(hay[1..], needle))
  }

  /** `needle` occurs in `hay` starting at index `i`. */
  predicate OccursAt(hay: string, needle: string, i: int) {
    0 <= i <= |hay| - |needle| && hay[i..i + |needle|] == needle
  }

  /** Contains agrees with "occurs at some position". */
  lemma {:induction false} ContainsIff(hay: string, needle: string)
    ensures Contains(hay, needle) <==> exists i :: OccursAt(hay, needle, i)
    decreases |hay|
  {
    if needle <= hay {
      assert OccursAt(hay, needle, 0);
    } else if |hay| > 0 {
      ContainsIff(hay[1..], needle);
      if exists i :: OccursAt(hay, needle, i) {
        var i :| OccursAt(hay, needle, i);
        assert i != 0;
        assert OccursAt(hay[1..], needle, i - 1);
      }
      if exists i :: OccursAt(hay[1..], needle, i) {
        var i :| OccursAt(hay[1..], needle, i);
        assert hay[1..][i..i + |needle|] == hay[i + 1..i + 1 + |needle|];
        assert OccursAt(hay, needle, i + 1);
      }
    }
  }

  /** A string occurs inside any string built around it. */
  lemma ContainsMiddle(pre: string, mid: string, post: string)
    ensures Contains(pre + mid + post, mid)
  {
    var hay := pre + mid + post;
    assert hay[|pre|..|pre| + |mid|] == mid;
    assert OccursAt(hay, mid, |pre|);
    ContainsIff(hay, mid);
  }

  /** The join of a contiguous run of a list occurs inside the join of the whole list. */
  lemma JoinOfRunContained(p: seq<string>, i: nat, j: nat, sep: string)
    requires i < j <= |p|
    ensures Contains(Join(p, sep), Join(p[i..j], sep))
  {
    var pre, mid, post := p[..i], p[i..j], p[j..];
    assert p == pre + mid + post;
    var prefix := if |pre| == 0 then "" else Join(pre, sep) + sep;
    var suffix := if |post| == 0 then "" else sep + Join(post, sep);
    if |pre| > 0 {
      JoinAppend(pre, mid, sep);
      assert Join(pre + mid, sep) == prefix + Join(mid, sep);
    } else {
      assert pre + mid == mid;
    }
    if |post| > 0 {
      JoinAppend(pre + mid, post, sep);
      assert Join(p, sep) == Join(pre + mid, sep) + suffix;
    } else {
      assert p == pre + mid;
    }
    assert Join(p, sep) == prefix + Join(mid, sep) + suffix;
    ContainsMiddle(prefix, Join(mid, sep), suffix);
  }
}
