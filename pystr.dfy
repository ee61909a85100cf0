/**
 * The handful of Python `str` and `os.path` built-ins the server leans on, written out
 * as Dafny functions over `string` (= `seq<char>`): `lower`, `upper`, `split()`,
 * `strip`, `join`, `endswith`, `str(int)`, slicing, `os.path.join` and
 * `os.path.basename`.  Case mapping is restricted to ASCII letters.
 */
module PyStr {

  /** The characters for which Python's `str.isspace()` holds; `split()` and `strip()`
      without arguments treat exactly these as whitespace. */
  const Whitespace: set<char> :=
    {'\t', '\n', '\U{000B}', '\U{000C}', '\r', '\U{001C}', '\U{001D}', '\U{001E}', '\U{001F}', ' ',
     '\U{0085}', '\U{00A0}', '\U{1680}', '\U{2000}', '\U{2001}', '\U{2002}', '\U{2003}', '\U{2004}',
     '\U{2005}', '\U{2006}', '\U{2007}', '\U{2008}', '\U{2009}', '\U{200A}', '\U{2028}', '\U{2029}',
     '\U{202F}', '\U{205F}', '\U{3000}'}

  predicate IsSpace(c: char) {
    c in Whitespace
  }

  // ---------------------------------------------------------------- case mapping

  function LowerChar(c: char): char {
    if 'A' <= c <= 'Z' then (c as int + 32) as char else c
  }

  function UpperChar(c: char): char {
    if 'a' <= c <= 'z' then (c as int - 32) as char else c
  }

  /** `s.lower()`, ASCII letters only. */
  function Lower(s: string): (r: string)
    ensures |r| == |s|
    ensures forall k | 0 <= k < |s| :: r[k] == LowerChar(s[k])
  {
    seq(|s|, k requires 0 <= k < |s| => LowerChar(s[k]))
  }

  /** `s.upper()`, ASCII letters only. */
  function Upper(s: string): (r: string)
    ensures |r| == |s|
    ensures forall k | 0 <= k < |s| :: r[k] == UpperChar(s[k])
  {
    seq(|s|, k requires 0 <= k < |s| => UpperChar(s[k]))
  }

  /** Case mapping never turns whitespace into non-whitespace or back. */
  lemma CaseKeepsSpace(c: char)
    ensures IsSpace(LowerChar(c)) <==> IsSpace(c)
    ensures IsSpace(UpperChar(c)) <==> IsSpace(c)
  {
  }

  // ---------------------------------------------------------------- split / join

  /** A word produced by `split()`: non-empty and free of whitespace. */
  predicate IsWord(w: string) {
    w != [] && forall k | 0 <= k < |w| :: !IsSpace(w[k])
  }

  /** Number of leading characters of `s` that are not whitespace. */
  function WordLength(s: string): (n: nat)
    ensures n <= |s|
    ensures forall k | 0 <= k < n :: !IsSpace(s[k])
    ensures n < |s| ==> IsSpace(s[n])
  {
    if s == [] || IsSpace(s[0]) then 0 else 1 + WordLength(s[1..])
  }

  /** `s.split()`: the maximal runs of non-whitespace characters, in order. */
  function Split(s: string): (ws: seq<string>)
    ensures forall k | 0 <= k < |ws| :: IsWord(ws[k])
    decreases |s|
  {
    if s == [] then []
    else if IsSpace(s[0]) then Split(s[1..])
    else
      var n := WordLength(s);
      [s[..n]] + Split(s[n..])
  }

  /** `sep.join(ws)`. */
  function Join(ws: seq<string>, sep: string): string {
    if ws == [] then []
    else if |ws| == 1 then ws[0]
    else ws[0] + sep + Join(ws[1..], sep)
  }

  /** `split()` yields nothing exactly when the text is empty or all whitespace. */
  lemma {:induction false} SplitEmptyIffBlank(s: string)
    ensures Split(s) == [] <==> forall k | 0 <= k < |s| :: IsSpace(s[k])
    decreases |s|
  {
    if s != [] && IsSpace(s[0]) {
      SplitEmptyIffBlank(s[1..]);
      if forall k | 0 <= k < |s[1..]| :: IsSpace(s[1..][k]) {
        forall k | 0 <= k < |s| ensures IsSpace(s[k]) {
          if k > 0 { assert s[k] == s[1..][k - 1]; }
        }
      }
    }
  }

  lemma WordLengthOfWordThenSpace(w: string, rest: string)
    requires IsWord(w) && rest != [] && IsSpace(rest[0])
    ensures WordLength(w + rest) == |w|
  {
    var s := w + rest;
    assert forall k | 0 <= k < |w| :: s[k] == w[k];
    assert s[|w|] == rest[0];
  }

  lemma WordLengthOfWord(w: string)
    requires IsWord(w)
    ensures WordLength(w) == |w|
  {
  }

  /** Round trip: splitting words joined by single spaces gives the words back. */
  lemma {:induction false} SplitJoin(ws: seq<string>)
    requires forall k | 0 <= k < |ws| :: IsWord(ws[k])
    ensures Split(Join(ws, " ")) == ws
    decreases |ws|
  {
    if |ws| == 1 {
      var w := ws[0];
      WordLengthOfWord(w);
      assert w[..|w|] == w;
      assert w[|w|..] == [];
    } else if |ws| > 1 {
      var w, tail := ws[0], Join(ws[1..], " ");
      var s := w + " " + tail;
      WordLengthOfWordThenSpace(w, " " + tail);
      assert s == w + (" " + tail);
      assert s[..|w|] == w;
      assert s[|w|..] == " " + tail;
      assert (" " + tail)[1..] == tail;
      SplitJoin(ws[1..]);
    }
  }

  // ---------------------------------------------------------------- strip

  /** The first index at or after `from` whose character is not in `chars`, or `|s|`. */
  function SkipLeading(s: string, chars: set<char>, from: nat): (i: nat)
    requires from <= |s|
    ensures from <= i <= |s|
    ensures forall k | from <= k < i :: s[k] in chars
    ensures i < |s| ==> s[i] !in chars
    decreases |s| - from
  {
    if from == |s| || s[from] !in chars then from else SkipLeading(s, chars, from + 1)
  }

  /** The end of `s[lo..hi]` once the characters of `chars` at its end are dropped. */
  function SkipTrailing(s: string, chars: set<char>, lo: nat, hi: nat): (e: nat)
    requires lo <= hi <= |s|
    ensures lo <= e <= hi
    ensures forall k | e <= k < hi :: s[k] in chars
    ensures lo < e ==> s[e - 1] !in chars
  {
    if hi == lo || s[hi - 1] !in chars then hi else SkipTrailing(s, chars, lo, hi - 1)
  }

  /** `s.strip(chars)`: the slice of `s` left after removing every leading and every
      trailing character that belongs to `chars`. */
  function Strip(s: string, chars: set<char>): (r: string)
    ensures r != [] ==> r[0] !in chars && r[|r| - 1] !in chars
    ensures var i := SkipLeading(s, chars, 0);
      && i + |r| <= |s| && r == s[i..i + |r|]
      && (forall k | 0 <= k < i :: s[k] in chars)
      && (forall k | i + |r| <= k < |s| :: s[k] in chars)
  {
    var i := SkipLeading(s, chars, 0);
    s[i..SkipTrailing(s, chars, i, |s|)]
  }

  /** Stripping leaves nothing exactly when every character is one of those stripped. */
  lemma StripEmptyIff(s: string, chars: set<char>)
    ensures Strip(s, chars) == [] <==> forall k | 0 <= k < |s| :: s[k] in chars
  {
  }

  /** `s.strip()` with Python's whitespace. */
  function StripSpace(s: string): string {
    Strip(s, Whitespace)
  }

  // ---------------------------------------------------------------- small helpers

  /** `s[:n]`. */
  function Prefix(s: string, n: nat): (r: string)
    ensures |r| <= n && |r| <= |s| && r == s[..|r|]
    ensures |s| <= n ==> r == s
  {
    if |s| <= n then s else s[..n]
  }

  /** `s.endswith(suffix)`. */
  predicate EndsWith(s: string, suffix: string) {
    |suffix| <= |s| && s[|s| - |suffix|..] == suffix
  }

  /** `s.split(c)[0]`: the text before the first occurrence of `c`, or all of `s`. */
  function BeforeFirst(s: string, c: char): (r: string)
    ensures |r| <= |s| && r == s[..|r|]
    ensures forall k | 0 <= k < |r| :: r[k] != c
    ensures |r| < |s| ==> s[|r|] == c
  {
    if s == [] || s[0] == c then [] else [s[0]] + BeforeFirst(s[1..], c)
  }

  // ---------------------------------------------------------------- str(int)

  predicate IsDigit(c: char) {
    '0' <= c <= '9'
  }

  function DigitChar(d: nat): (c: char)
    requires d < 10
    ensures IsDigit(c)
  {
    ('0' as int + d) as char
  }

  /** `str(n)` for a non-negative `n`: decimal digits with no leading zero. */
  function NatToString(n: nat): (r: string)
    ensures r != [] && forall k | 0 <= k < |r| :: IsDigit(r[k])
    ensures r[0] == '0' <==> n == 0
    ensures n == 0 ==> r == "0"
    decreases n
  {
    if n < 10 then [DigitChar(n)] else NatToString(n / 10) + [DigitChar(n % 10)]
  }

  /** The number a string of decimal digits denotes (Python's `int(s)` on such a string). */
  function DecimalValue(s: string): nat
    requires forall k | 0 <= k < |s| :: IsDigit(s[k])
  {
    if s == [] then 0
    else
      var last := s[|s| - 1];
      assert IsDigit(last);
      10 * DecimalValue(s[..|s| - 1]) + (last as int - '0' as int)
  }

  /** Round trip: reading back the decimal text of `n` gives `n`. */
  lemma {:induction false} DecimalRoundTrip(n: nat)
    ensures DecimalValue(NatToString(n)) == n
    decreases n
  {
    if n >= 10 {
      var s := NatToString(n);
      DecimalRoundTrip(n / 10);
      assert s[..|s| - 1] == NatToString(n / 10);
    }
  }

  // ---------------------------------------------------------------- os.path

  /** `os.path.join(dir, name)` for two POSIX path components. */
  function JoinPath(dir: string, name: string): string {
    if name != [] && name[0] == '/' then name
    else if dir == [] || dir[|dir| - 1] == '/' then dir + name
    else dir + "/" + name
  }

  /** `os.path.basename(p)`: the text after the last '/'. */
  function BaseName(p: string): (r: string)
    ensures |r| <= |p| && r == p[|p| - |r|..]
    ensures forall k | 0 <= k < |r| :: r[k] != '/'
    ensures |r| < |p| ==> p[|p| - |r| - 1] == '/'
  {
    if p == [] || p[|p| - 1] == '/' then [] else BaseName(p[..|p| - 1]) + [p[|p| - 1]]
  }

  lemma {:induction false} BaseNameAfterSlash(pre: string, name: string)
    requires pre == [] || pre[|pre| - 1] == '/'
    requires forall k | 0 <= k < |name| :: name[k] != '/'
    ensures BaseName(pre + name) == name
    decreases |name|
  {
    if name != [] {
      var p := pre + name;
      assert p[..|p| - 1] == pre + name[..|name| - 1];
      BaseNameAfterSlash(pre, name[..|name| - 1]);
    } else {
      assert pre + name == pre;
    }
  }

  /** Round trip: the base name of a joined path is the file name that was joined. */
  lemma BaseNameOfJoin(dir: string, name: string)
    requires forall k | 0 <= k < |name| :: name[k] != '/'
    ensures BaseName(JoinPath(dir, name)) == name
  {
    if dir == [] || dir[|dir| - 1] == '/' {
      BaseNameAfterSlash(dir, name);
    } else {
      BaseNameAfterSlash(dir + "/", name);
    }
  }
}
