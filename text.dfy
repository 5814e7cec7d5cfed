/**
 * The Python string operations the core relies on, over `string` (a sequence of
 * code points): `str(n)` for a count, the `{n:4d}` field, `join`, `split`,
 * `lower`, `endswith`, substring search, and the way a text stream is cut into
 * lines by `readlines()` or by iterating over an open file.
 */
module Text {

  /** A run of n blanks (an indentation or a field's padding). */
  function Spaces(n: nat): string
  {
    seq(n, _ => ' ')
  }

  /** `"".join(pieces)`. */
  function Concat(pieces: seq<string>): string
  {
    if pieces == [] then "" else pieces[0] + Concat(pieces[1..])
  }

  // ---------------------------------------------------------------------------
  // Decimal numerals: str(n) for n >= 0, and reading one back.

  predicate IsDigit(c: char)
  {
    '0' <= c <= '9'
  }

  predicate AllDigits(s: string)
  {
    forall i :: 0 <= i < |s| ==> IsDigit(s[i])
  }

  function DigitChar(d: nat): (c: char)
    requires d < 10
    ensures IsDigit(c)
  {
    ('0' as int + d) as char
  }

  function DigitValue(c: char): nat
    requires IsDigit(c)
  {
    c as int - '0' as int
  }

  /** `str(n)` for a non-negative integer: its decimal digits, most significant first. */
  function NatToString(n: nat): string
    decreases n
  {
    if n < 10 then [DigitChar(n)] else NatToString(n / 10) + [DigitChar(n % 10)]
  }

  /** The number a run of decimal digits denotes. */
  function ParseDigits(s: string): nat
    requires AllDigits(s)
  {
    if s == [] then 0 else 10 * ParseDigits(s[..|s| - 1]) + DigitValue(s[|s| - 1])
  }

  /** `str(n)` is a non-empty run of digits without a leading zero, and reads back as n. */
  lemma {:induction false} NatToStringRoundTrip(n: nat)
    ensures 0 < |NatToString(n)| && AllDigits(NatToString(n))
    ensures NatToString(n)[0] == '0' ==> n == 0
    ensures ParseDigits(NatToString(n)) == n
  {
    var s := NatToString(n);
    if n >= 10 {
      NatToStringRoundTrip(n / 10);
      assert s[..|s| - 1] == NatToString(n / 10);
      assert s[0] == NatToString(n / 10)[0];
    }
  }

  /** Python's `f"{v:4d}"` applied to the numeral s: right-aligned in a field of the
      given width, never truncated. */
  function RightAlign(s: string, width: nat): string
  {
    (if |s| < width then Spaces(width - |s|) else "") + s
  }

  // ---------------------------------------------------------------------------
  // join / split with a one-character separator, and counting a character.

  /** `sep.join(parts)`. */
  function Join(parts: seq<string>, sep: char): string
  {
    if |parts| == 0 then "" else if |parts| == 1 then parts[0] else parts[0] + [sep] + Join(parts[1..], sep)
  }

  /** `s.split(sep)`: the pieces between the separators; there is always at least one. */
  function Split(s: string, sep: char): (pieces: seq<string>)
    ensures |pieces| >= 1
    decreases |s|
  {
    if s == [] then [""]
    else
      var rest := Split(s[1..], sep);
      if s[0] == sep then [""] + rest else [[s[0]] + rest[0]] + rest[1..]
  }

  lemma {:induction false} SplitWithoutSeparator(w: string, sep: char)
    requires sep !in w
    ensures Split(w, sep) == [w]
  {
    if w != [] {
      SplitWithoutSeparator(w[1..], sep);
      assert [w[0]] + w[1..] == w;
    }
  }

  lemma {:induction false} SplitAfterPiece(w: string, sep: char, rest: string)
    requires sep !in w
    ensures Split(w + [sep] + rest, sep) == [w] + Split(rest, sep)
  {
    var s := w + [sep] + rest;
    if w == [] {
      assert s[1..] == rest;
    } else {
      assert s[1..] == w[1..] + [sep] + rest;
      SplitAfterPiece(w[1..], sep, rest);
      assert [w[0]] + w[1..] == w;
    }
  }

  /** Splitting a joined list gives the list back, when no part holds the separator. */
  lemma {:induction false} SplitJoin(parts: seq<string>, sep: char)
    requires |parts| >= 1
    requires forall i :: 0 <= i < |parts| ==> sep !in parts[i]
    ensures Split(Join(parts, sep), sep) == parts
  {
    if |parts| == 1 {
      SplitWithoutSeparator(parts[0], sep);
    } else {
      SplitJoin(parts[1..], sep);
      SplitAfterPiece(parts[0], sep, Join(parts[1..], sep));
      assert [parts[0]] + parts[1..] == parts;
    }
  }

  /** `s.count(c)` for a single character c. */
  function CountChar(s: string, c: char): nat
  {
    if s == [] then 0 else (if s[0] == c then 1 else 0) + CountChar(s[1..], c)
  }

  lemma {:induction false} CountCharAppend(a: string, b: string, c: char)
    ensures CountChar(a + b, c) == CountChar(a, c) + CountChar(b, c)
  {
    if a != [] {
      assert (a + b)[1..] == a[1..] + b;
      CountCharAppend(a[1..], b, c);
    } else {
      assert a + b == b;
    }
  }

  lemma {:induction false} CountCharAbsent(s: string, c: char)
    requires c !in s
    ensures CountChar(s, c) == 0
  {
    if s != [] {
      CountCharAbsent(s[1..], c);
    }
  }

  /** A joined list holds one separator fewer than it has parts, when no part holds one. */
  lemma {:induction false} CountSeparatorsOfJoin(parts: seq<string>, sep: char)
    requires |parts| >= 1
    requires forall i :: 0 <= i < |parts| ==> sep !in parts[i]
    ensures CountChar(Join(parts, sep), sep) == |parts| - 1
  {
    CountCharAbsent(parts[0], sep);
    if |parts| > 1 {
      CountSeparatorsOfJoin(parts[1..], sep);
      CountCharAppend(parts[0], [sep], sep);
      CountCharAppend(parts[0] + [sep], Join(parts[1..], sep), sep);
    }
  }

  // ---------------------------------------------------------------------------
  // lower(), endswith(), substring search.

  /** Lower-cases one character (ASCII letters only). */
  function LowerChar(c: char): char
  {
    if 'A' <= c <= 'Z' then (c as int + 32) as char else c
  }

  /** `s.lower()`, restricted to the ASCII letters. */
  function Lower(s: string): string
  {
    seq(|s|, i requires 0 <= i < |s| => LowerChar(s[i]))
  }

  /** `s.endswith(suffix)`. */
  predicate EndsWith(s: string, suffix: string)
  {
    |suffix| <= |s| && s[|s| - |suffix|..] == suffix
  }

  predicate IsPrefix(p: string, s: string)
  {
    |p| <= |s| && s[..|p|] == p
  }

  /** `p in s`, which is also `re.search(p, s)` when p has no special characters. */
  predicate IsSubstring(p: string, s: string)
    decreases |s|
  {
    IsPrefix(p, s) || (s != [] && IsSubstring(p, s[1..]))
  }

  // ---------------------------------------------------------------------------
  // Lines of a text stream.

  /** Length of the first line of s, its terminating '\n' included; all of s when s has no '\n'. */
  function FirstLineLength(s: string): (k: nat)
    ensures k <= |s|
    ensures s != [] ==> 0 < k
    decreases |s|
  {
    if s == [] then 0 else if s[0] == '\n' then 1 else 1 + FirstLineLength(s[1..])
  }

  /** The lines `readlines()` returns, and that iterating over the open file yields:
      every line keeps its '\n', and a trailing piece without one is a line too. */
  function SplitLines(s: string): seq<string>
    decreases |s|
  {
    if s == [] then [] else
      var k := FirstLineLength(s);
      [s[..k]] + SplitLines(s[k..])
  }

  /** The first line holds exactly one '\n', at its end, unless it runs to the end of s. */
  lemma {:induction false} FirstLineShape(s: string)
    requires s != []
    ensures var k := FirstLineLength(s);
      (forall i :: 0 <= i < k - 1 ==> s[i] != '\n') && (s[k - 1] == '\n' || k == |s|)
  {
    if s[0] != '\n' && |s| > 1 {
      FirstLineShape(s[1..]);
    }
  }

  /** Cutting a text into lines loses nothing: the lines concatenate back to the text. */
  lemma {:induction false} SplitLinesConcat(s: string)
    ensures Concat(SplitLines(s)) == s
    decreases |s|
  {
    if s != [] {
      var k := FirstLineLength(s);
      SplitLinesConcat(s[k..]);
      assert SplitLines(s)[1..] == SplitLines(s[k..]);
      assert s[..k] + s[k..] == s;
    }
  }

  /** Every line is non-empty, every line but the last ends with '\n', and no line
      holds a '\n' anywhere else. */
  lemma {:induction false} SplitLinesShape(s: string)
    ensures forall j :: 0 <= j < |SplitLines(s)| ==> SplitLines(s)[j] != ""
    ensures forall j :: 0 <= j < |SplitLines(s)| - 1 ==> SplitLines(s)[j][|SplitLines(s)[j]| - 1] == '\n'
    ensures forall j, i :: 0 <= j < |SplitLines(s)| && 0 <= i < |SplitLines(s)[j]| - 1 ==> SplitLines(s)[j][i] != '\n'
    decreases |s|
  {
    if s != [] {
      var k := FirstLineLength(s);
      FirstLineShape(s);
      SplitLinesShape(s[k..]);
      var ls := SplitLines(s);
      assert ls[1..] == SplitLines(s[k..]);
      assert forall j :: 1 <= j < |ls| ==> ls[j] == SplitLines(s[k..])[j - 1];
      if |ls| > 1 {
        assert s[k..] != [];
        assert k < |s|;
      }
    }
  }

  /** The number of lines is the number of '\n' characters, plus one for a trailing
      piece that has none. */
  lemma {:induction false} SplitLinesCount(s: string)
    ensures |SplitLines(s)| == CountChar(s, '\n') + (if s != [] && s[|s| - 1] != '\n' then 1 else 0)
    decreases |s|
  {
    if s != [] {
      var k := FirstLineLength(s);
      FirstLineNewlines(s);
      SplitLinesCount(s[k..]);
      assert s[..k] + s[k..] == s;
      CountCharAppend(s[..k], s[k..], '\n');
      if k < |s| {
        assert s[k..][|s[k..]| - 1] == s[|s| - 1];
      } else {
        assert s[k..] == [];
      }
    }
  }

  /** The first line holds one '\n' when it ends in one, and none when it runs to the
      end of s. */
  lemma {:induction false} FirstLineNewlines(s: string)
    requires s != []
    ensures var k := FirstLineLength(s);
      CountChar(s[..k], '\n') == (if s[k - 1] == '\n' then 1 else 0)
      && (s[k - 1] != '\n' ==> k == |s|)
    decreases |s|
  {
    var k := FirstLineLength(s);
    if s[0] == '\n' {
      assert s[..k] == ['\n'];
    } else if |s| == 1 {
      assert s[..k] == s;
    } else {
      FirstLineNewlines(s[1..]);
      assert s[..k][1..] == s[1..][..k - 1];
    }
  }

  // ---------------------------------------------------------------------------
  // Reading a right-aligned number back.

  /** Number of blanks s starts with. */
  function LeadingSpaces(s: string): (n: nat)
    ensures n <= |s|
    decreases |s|
  {
    if s != [] && s[0] == ' ' then 1 + LeadingSpaces(s[1..]) else 0
  }

  /** Number of decimal digits s starts with. */
  function LeadingDigits(s: string): (n: nat)
    ensures n <= |s| && AllDigits(s[..n])
    decreases |s|
  {
    if s != [] && IsDigit(s[0]) then
      var n := 1 + LeadingDigits(s[1..]);
      assert forall i :: 1 <= i < n ==> s[..n][i] == s[1..][..n - 1][i - 1];
      n
    else 0
  }

  lemma {:induction false} LeadingSpacesOf(pad: string, t: string)
    requires forall i :: 0 <= i < |pad| ==> pad[i] == ' '
    requires t != [] && t[0] != ' '
    ensures LeadingSpaces(pad + t) == |pad|
  {
    if pad != [] {
      assert (pad + t)[1..] == pad[1..] + t;
      LeadingSpacesOf(pad[1..], t);
    } else {
      assert pad + t == t;
    }
  }

  lemma {:induction false} LeadingDigitsOf(d: string, t: string)
    requires AllDigits(d)
    requires t != [] && !IsDigit(t[0])
    ensures LeadingDigits(d + t) == |d|
  {
    if d != [] {
      assert (d + t)[1..] == d[1..] + t;
      LeadingDigitsOf(d[1..], t);
    } else {
      assert d + t == t;
    }
  }
}
