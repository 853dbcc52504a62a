/** The Python `str` operations the core relies on, restricted to ASCII where
    Python consults the Unicode database (`lower`, `isalnum`, `strip`,
    `capitalize`, `int`). */
module Text {
  import opened Wrappers

  predicate IsUpper(c: char) { 'A' <= c <= 'Z' }
  predicate IsLower(c: char) { 'a' <= c <= 'z' }
  predicate IsDigit(c: char) { '0' <= c <= '9' }
  predicate IsAlnum(c: char) { IsUpper(c) || IsLower(c) || IsDigit(c) }

  /** The ASCII characters Python's `str.isspace` (and so `strip` and
      `split()`) treats as whitespace: space, tab, the line and form breaks,
      and the four separators U+001C..U+001F. */
  predicate IsSpace(c: char) {
    c == ' ' || c == '\t' || c == '\n' || c == '\r' || c == '\U{000B}' || c == '\U{000C}'
    || ('\U{001C}' <= c <= '\U{001F}')
  }

  function LowerChar(c: char): (r: char)
    ensures !IsUpper(r)
    ensures IsUpper(c) || r == c
    ensures IsAlnum(c) <==> IsAlnum(r)
  {
    if IsUpper(c) then (c as int + 32) as char else c
  }

  function UpperChar(c: char): (r: char)
    ensures !IsLower(r)
    ensures IsLower(c) || r == c
  {
    if IsLower(c) then (c as int - 32) as char else c
  }

  /** `s.lower()` */
  function Lower(s: string): (r: string)
    ensures |r| == |s|
    ensures forall i :: 0 <= i < |s| ==> r[i] == LowerChar(s[i])
  {
    seq(|s|, i requires 0 <= i < |s| => LowerChar(s[i]))
  }

  predicate NoUpper(s: string) { forall i :: 0 <= i < |s| ==> !IsUpper(s[i]) }

  lemma LowerHasNoUpper(s: string)
    ensures NoUpper(Lower(s))
  {
  }

  /** A string is its own lower-case form exactly when it has no upper-case
      letter. */
  lemma LowerFixed(s: string)
    ensures Lower(s) == s <==> NoUpper(s)
  {
    if NoUpper(s) {
      assert forall i :: 0 <= i < |s| ==> Lower(s)[i] == s[i];
    }
  }

  /** `s.isalnum()`: false on the empty string. */
  predicate IsAlnumStr(s: string) {
    |s| > 0 && forall i :: 0 <= i < |s| ==> IsAlnum(s[i])
  }

  /** `s.capitalize()`: first character upper-case, the rest lower-case. */
  function Capitalize(s: string): (r: string)
    ensures |r| == |s|
    ensures |s| > 0 ==> r[0] == UpperChar(s[0]) && r[1..] == Lower(s[1..])
  {
    if s == [] then [] else [UpperChar(s[0])] + Lower(s[1..])
  }

  // ---------------------------------------------------------------------------
  // Searching

  /** `sub` occurs in `s` starting at index `i`. */
  predicate OccursAt(s: string, sub: string, i: int) {
    0 <= i && i + |sub| <= |s| && s[i..i + |sub|] == sub
  }

  /** `sub in s` */
  predicate Contains(s: string, sub: string) {
    exists i :: 0 <= i <= |s| - |sub| && OccursAt(s, sub, i)
  }

  function FindFrom(s: string, sub: string, k: nat): (r: int)
    decreases |s| - k
    ensures r == -1 || (k <= r && OccursAt(s, sub, r))
    ensures r == -1 ==> forall i :: k <= i ==> !OccursAt(s, sub, i)
    ensures r != -1 ==> forall i :: k <= i < r ==> !OccursAt(s, sub, i)
  {
    if k + |sub| > |s| then -1
    else if s[k..k + |sub|] == sub then k
    else FindFrom(s, sub, k + 1)
  }

  /** `s.find(sub)`: the first index of `sub` in `s`, or -1. */
  function Find(s: string, sub: string): (r: int)
    ensures r == -1 <==> !Contains(s, sub)
    ensures r != -1 ==> OccursAt(s, sub, r) && forall i :: 0 <= i < r ==> !OccursAt(s, sub, i)
  {
    FindFrom(s, sub, 0)
  }

  function RFindUpTo(s: string, sub: string, k: int): (r: int)
    decreases k + 1
    ensures r == -1 || (r <= k && OccursAt(s, sub, r))
    ensures r == -1 ==> forall i :: i <= k ==> !OccursAt(s, sub, i)
    ensures r != -1 ==> forall i :: r < i <= k ==> !OccursAt(s, sub, i)
  {
    if k < 0 then -1
    else if OccursAt(s, sub, k) then k
    else RFindUpTo(s, sub, k - 1)
  }

  /** `s.rfind(sub)`: the last index of `sub` in `s`, or -1. */
  function RFind(s: string, sub: string): (r: int)
    ensures r == -1 <==> !Contains(s, sub)
    ensures r != -1 ==> OccursAt(s, sub, r) && forall i :: r < i ==> !OccursAt(s, sub, i)
  {
    RFindUpTo(s, sub, |s| - |sub|)
  }

  // ---------------------------------------------------------------------------
  // Replacing

  /** `s.replace(pat, rep)`: every non-overlapping occurrence, left to right. */
  function Replace(s: string, pat: string, rep: string): string
    requires pat != []
    decreases |s|
  {
    if |s| < |pat| then s
    else if s[..|pat|] == pat then rep + Replace(s[|pat|..], pat, rep)
    else [s[0]] + Replace(s[1..], pat, rep)
  }

  /** A string that does not contain the pattern is left unchanged. */
  lemma {:induction false} ReplaceAbsent(s: string, pat: string, rep: string)
    requires pat != []
    requires !Contains(s, pat)
    ensures Replace(s, pat, rep) == s
    decreases |s|
  {
    if |s| >= |pat| {
      assert !OccursAt(s, pat, 0);
      assert s[..|pat|] != pat;
      forall i | 0 <= i <= |s[1..]| - |pat|
        ensures !OccursAt(s[1..], pat, i)
      {
        assert s[1..][i..i + |pat|] == s[i + 1..i + 1 + |pat|];
        assert !OccursAt(s, pat, i + 1);
      }
      ReplaceAbsent(s[1..], pat, rep);
    }
  }

  /** A pattern that occurs only as the suffix of a string is replaced
      there and nowhere else. */
  lemma {:induction false} ReplaceSuffix(stem: string, pat: string, rep: string)
    requires pat != []
    requires forall i :: 0 <= i < |stem| ==> !OccursAt(stem + pat, pat, i)
    ensures Replace(stem + pat, pat, rep) == stem + rep
    decreases |stem|
  {
    var s := stem + pat;
    if stem == [] {
      assert s == pat;
      assert s[|pat|..] == [];
    } else {
      assert !OccursAt(s, pat, 0);
      assert s[1..] == stem[1..] + pat;
      forall i | 0 <= i < |stem[1..]|
        ensures !OccursAt(stem[1..] + pat, pat, i)
      {
        assert (stem[1..] + pat)[i..i + |pat|] == s[i + 1..i + 1 + |pat|];
        assert !OccursAt(s, pat, i + 1);
      }
      ReplaceSuffix(stem[1..], pat, rep);
      assert [stem[0]] + (stem[1..] + rep) == stem + rep;
    }
  }

  /** Replacing one character by another maps the string character-wise. */
  lemma {:induction false} ReplaceChar(s: string, a: char, b: char)
    ensures |Replace(s, [a], [b])| == |s|
    ensures forall i :: 0 <= i < |s| ==> Replace(s, [a], [b])[i] == (if s[i] == a then b else s[i])
    decreases |s|
  {
    if |s| >= 1 {
      ReplaceChar(s[1..], a, b);
      assert s[..1] == [s[0]];
      var rest := Replace(s[1..], [a], [b]);
      assert Replace(s, [a], [b]) == (if s[0] == a then [b] else [s[0]]) + rest;
    }
  }

  /** Replacing a character by nothing deletes exactly that character. */
  lemma {:induction false} ReplaceDelete(s: string, c: char)
    ensures forall x :: x in Replace(s, [c], []) <==> x in s && x != c
    decreases |s|
  {
    if |s| >= 1 {
      ReplaceDelete(s[1..], c);
      assert s[..1] == [s[0]];
      assert s == [s[0]] + s[1..];
      var rest := Replace(s[1..], [c], []);
      assert Replace(s, [c], []) == (if s[0] == c then [] else [s[0]]) + rest;
    }
  }

  /** `s.startswith(p)` */
  predicate StartsWith(s: string, p: string) {
    |p| <= |s| && s[..|p|] == p
  }

  /** `s.endswith(p)` */
  predicate EndsWith(s: string, p: string) {
    |p| <= |s| && s[|s| - |p|..] == p
  }

  lemma StartsWithContains(s: string, p: string)
    requires StartsWith(s, p)
    ensures Contains(s, p)
  {
    assert OccursAt(s, p, 0);
  }

  // ---------------------------------------------------------------------------
  // Stripping

  /** `s.lstrip()` */
  function LStrip(s: string): (r: string)
    ensures |r| <= |s| && r == s[|s| - |r|..]
    ensures r == [] || !IsSpace(r[0])
    ensures forall i :: 0 <= i < |s| - |r| ==> IsSpace(s[i])
  {
    if s != [] && IsSpace(s[0]) then LStrip(s[1..]) else s
  }

  /** `s.rstrip()` */
  function RStrip(s: string): (r: string)
    ensures |r| <= |s| && r == s[..|r|]
    ensures r == [] || !IsSpace(r[|r| - 1])
    ensures forall i :: |r| <= i < |s| ==> IsSpace(s[i])
  {
    if s != [] && IsSpace(s[|s| - 1]) then RStrip(s[..|s| - 1]) else s
  }

  /** `s.strip()` */
  function Strip(s: string): (r: string)
    ensures r == [] || (!IsSpace(r[0]) && !IsSpace(r[|r| - 1]))
  {
    RStrip(LStrip(s))
  }

  /** A string with no space at either end is its own strip. */
  lemma StripUnchanged(s: string)
    requires s != [] && !IsSpace(s[0]) && !IsSpace(s[|s| - 1])
    ensures Strip(s) == s
  {
  }

  // ---------------------------------------------------------------------------
  // Splitting and joining

  /** `sep.join(parts)` */
  function Join(sep: string, parts: seq<string>): string
  {
    if |parts| == 0 then ""
    else if |parts| == 1 then parts[0]
    else parts[0] + sep + Join(sep, parts[1..])
  }

  lemma JoinCons(sep: string, first: string, rest: seq<string>)
    requires rest != []
    ensures Join(sep, [first] + rest) == first + sep + Join(sep, rest)
  {
    assert ([first] + rest)[1..] == rest;
  }

  /** The first index of `c` in `s`, or -1. */
  function CharIndex(s: string, c: char): (r: int)
    ensures -1 <= r < |s|
    ensures r == -1 <==> c !in s
    ensures r != -1 ==> s[r] == c && c !in s[..r]
  {
    if s == [] then -1
    else if s[0] == c then 0
    else
      var j := CharIndex(s[1..], c);
      assert s[1..] == s[1..][..|s| - 1];
      if j == -1 then -1
      else
        assert s[..j + 1] == [s[0]] + s[1..][..j];
        j + 1
  }

  /** `s.split(c)` for a one-character separator: never an empty list. */
  function SplitOn(s: string, c: char): (r: seq<string>)
    decreases |s|
    ensures |r| >= 1
    ensures forall k :: 0 <= k < |r| ==> c !in r[k]
  {
    var i := CharIndex(s, c);
    if i == -1 then [s]
    else [s[..i]] + SplitOn(s[i + 1..], c)
  }

  /** Splitting on a character and joining with it again gives back the string. */
  lemma {:induction false} JoinSplitOn(s: string, c: char)
    ensures Join([c], SplitOn(s, c)) == s
    decreases |s|
  {
    var i := CharIndex(s, c);
    if i != -1 {
      var rest := SplitOn(s[i + 1..], c);
      assert SplitOn(s, c) == [s[..i]] + rest;
      assert Join([c], rest) == s[i + 1..] by {
        JoinSplitOn(s[i + 1..], c);
      }
      assert Join([c], [s[..i]] + rest) == s[..i] + [c] + Join([c], rest) by {
        JoinCons([c], s[..i], rest);
      }
      Around(s, i);
    }
  }

  /** Joining pieces free of `c` with `c` and splitting on `c` again gives
      back the pieces. */
  lemma {:induction false} SplitOnJoin(parts: seq<string>, c: char)
    requires parts != []
    requires forall k :: 0 <= k < |parts| ==> c !in parts[k]
    ensures SplitOn(Join([c], parts), c) == parts
    decreases |parts|
  {
    if |parts| > 1 {
      var p, rest := parts[0], parts[1..];
      var s := Join([c], parts);
      assert parts == [p] + rest;
      JoinCons([c], p, rest);
      assert s[..|p|] == p && s[|p|] == c;
      assert CharIndex(s, c) == |p|;
      assert s[|p| + 1..] == Join([c], rest);
      SplitOnJoin(rest, c);
    }
  }

  /** A string is what comes before index `i`, the character at `i` and
      what comes after it. */
  lemma Around(s: string, i: int)
    requires 0 <= i < |s|
    ensures s == s[..i] + [s[i]] + s[i + 1..]
  {
  }

  /** No whitespace in `w`. */
  predicate NoSpace(w: string) { forall j :: 0 <= j < |w| ==> !IsSpace(w[j]) }

  /** Every character of `w` occurs in `s`. */
  predicate CharsFrom(w: string, s: string) { forall j :: 0 <= j < |w| ==> w[j] in s }

  /** The whitespace-free runs of `s`, in order: `s.split()`. */
  function SplitWhitespace(s: string): (r: seq<string>)
    decreases |s|
    ensures forall k :: 0 <= k < |r| ==> r[k] != [] && NoSpace(r[k])
  {
    if s == [] then []
    else if IsSpace(s[0]) then SplitWhitespace(s[1..])
    else
      var w := WordPrefix(s);
      assert NoSpace(w);
      [w] + SplitWhitespace(s[|w|..])
  }

  /** Every character of every word of `s.split()` is a character of `s`,
      stated for any property the characters of `s` all have. */
  lemma {:induction false} SplitWhitespaceChars(s: string, P: char -> bool)
    requires forall j :: 0 <= j < |s| ==> P(s[j])
    ensures forall k, j :: 0 <= k < |SplitWhitespace(s)| && 0 <= j < |SplitWhitespace(s)[k]| ==> P(SplitWhitespace(s)[k][j])
    decreases |s|
  {
    if s != [] {
      if IsSpace(s[0]) {
        assert forall j :: 0 <= j < |s[1..]| ==> s[1..][j] == s[j + 1];
        SplitWhitespaceChars(s[1..], P);
      } else {
        var w := WordPrefix(s);
        var u := s[|w|..];
        assert forall j :: 0 <= j < |u| ==> u[j] == s[|w| + j];
        SplitWhitespaceChars(u, P);
        var rest := SplitWhitespace(u);
        var r := SplitWhitespace(s);
        assert r == [w] + rest;
        forall k, j | 0 <= k < |r| && 0 <= j < |r[k]| ensures P(r[k][j]) {
          if k == 0 {
            assert r[k][j] == s[j];
          } else {
            assert r[k] == rest[k - 1];
          }
        }
      }
    }
  }

  /** The longest prefix of `t` without whitespace. */
  function WordPrefix(t: string): (w: string)
    ensures w <= t
    ensures forall j :: 0 <= j < |w| ==> !IsSpace(t[j])
    ensures |w| == |t| || IsSpace(t[|w|])
    ensures t != [] && !IsSpace(t[0]) ==> w != []
  {
    if t == [] || IsSpace(t[0]) then [] else [t[0]] + WordPrefix(t[1..])
  }

  /** Every character of `Join(sep, parts)` comes from a part or from `sep`. */
  lemma {:induction false} JoinChars(sep: string, parts: seq<string>, P: char -> bool)
    requires forall j :: 0 <= j < |sep| ==> P(sep[j])
    requires forall k, j :: 0 <= k < |parts| && 0 <= j < |parts[k]| ==> P(parts[k][j])
    ensures forall j :: 0 <= j < |Join(sep, parts)| ==> P(Join(sep, parts)[j])
  {
    if |parts| > 1 {
      JoinChars(sep, parts[1..], P);
      var rest := Join(sep, parts[1..]);
      assert Join(sep, parts) == parts[0] + sep + rest;
      forall j | 0 <= j < |Join(sep, parts)| ensures P(Join(sep, parts)[j]) {
        if j < |parts[0]| {
          assert Join(sep, parts)[j] == parts[0][j];
        } else if j < |parts[0]| + |sep| {
          assert Join(sep, parts)[j] == sep[j - |parts[0]|];
        } else {
          assert Join(sep, parts)[j] == rest[j - |parts[0]| - |sep|];
        }
      }
    }
  }

  // ---------------------------------------------------------------------------
  // Integers

  function DigitValue(c: char): nat
    requires IsDigit(c)
  {
    c as int - '0' as int
  }

  /** The value of a run of ASCII digits, most significant first. */
  function DigitsValue(d: string): nat
    requires forall i :: 0 <= i < |d| ==> IsDigit(d[i])
  {
    if d == [] then 0 else 10 * DigitsValue(d[..|d| - 1]) + DigitValue(d[|d| - 1])
  }

  predicate AllDigits(d: string) { forall i :: 0 <= i < |d| ==> IsDigit(d[i]) }

  predicate DigitsOrUnderscores(d: string) { forall i :: 0 <= i < |d| ==> IsDigit(d[i]) || d[i] == '_' }

  /** Digits with single underscores between them, as Python's `int` accepts. */
  predicate IsDigitGroup(d: string) {
    && |d| > 0 && IsDigit(d[0]) && IsDigit(d[|d| - 1])
    && forall i {:trigger d[i]} :: 0 <= i < |d| ==> IsDigit(d[i]) || (d[i] == '_' && i + 1 < |d| && IsDigit(d[i + 1]))
  }

  function DropUnderscores(d: string): (r: string)
    ensures DigitsOrUnderscores(d) ==> AllDigits(r)
  {
    if d == [] then [] else (if d[0] == '_' then [] else [d[0]]) + DropUnderscores(d[1..])
  }

  /** `int(s)` on a string: surrounding whitespace, an optional sign, then an
      ASCII digit group; `None` where Python raises `ValueError`. */
  function ParseInt(s: string): (r: Option<int>)
  {
    var t := Strip(s);
    if t == [] then None
    else
      var neg := t[0] == '-';
      var body := if t[0] == '-' || t[0] == '+' then t[1..] else t;
      if !IsDigitGroup(body) then None
      else
        var digits := DropUnderscores(body);
        assert DigitsOrUnderscores(body);
        var v: int := DigitsValue(digits);
        Some(if neg then -v else v)
  }

  function DigitChar(n: nat): (c: char)
    requires n < 10
    ensures IsDigit(c) && DigitValue(c) == n
  {
    ('0' as int + n) as char
  }

  /** `str(n)` for a natural number. */
  function NatToString(n: nat): (r: string)
    ensures |r| > 0
    ensures forall i :: 0 <= i < |r| ==> IsDigit(r[i])
    ensures DigitsValue(r) == n
  {
    if n < 10 then [DigitChar(n)]
    else
      var r := NatToString(n / 10) + [DigitChar(n % 10)];
      assert r[..|r| - 1] == NatToString(n / 10);
      assert DigitsValue(r) == 10 * DigitsValue(NatToString(n / 10)) + DigitValue(r[|r| - 1]);
      r
  }

  /** `str(i)` for an integer. */
  function IntToString(i: int): (r: string)
    ensures |r| > 0
  {
    if i < 0 then "-" + NatToString(-i) else NatToString(i)
  }

  function Pow10(w: nat): (r: nat)
    ensures r >= 1
  {
    if w == 0 then 1 else 10 * Pow10(w - 1)
  }

  /** `f"{n:0{w}d}"` for a number of at most `w` digits: exactly `w` digits. */
  function Pad(n: nat, w: nat): (r: string)
    requires n < Pow10(w)
    ensures |r| == w && AllDigits(r)
    ensures DigitsValue(r) == n
  {
    if w == 0 then []
    else
      var r := Pad(n / 10, w - 1) + [DigitChar(n % 10)];
      assert r[..|r| - 1] == Pad(n / 10, w - 1);
      r
  }

  lemma {:induction false} StripDigits(s: string)
    requires forall i :: 0 <= i < |s| ==> IsDigit(s[i])
    ensures Strip(s) == s
  {
    if s != [] {
      assert !IsSpace(s[0]) && !IsSpace(s[|s| - 1]);
      assert LStrip(s) == s;
      assert RStrip(s) == s;
    }
  }

  lemma {:induction false} DropUnderscoresOfDigits(s: string)
    requires forall i :: 0 <= i < |s| ==> IsDigit(s[i])
    ensures DropUnderscores(s) == s
  {
    if s != [] {
      DropUnderscoresOfDigits(s[1..]);
      assert s == [s[0]] + s[1..];
    }
  }

  /** `int` reads back a zero-padded number. */
  lemma ParsePad(n: nat, w: nat)
    requires 0 < w && n < Pow10(w)
    ensures ParseInt(Pad(n, w)) == Some(n)
  {
    var z := Pad(n, w);
    StripDigits(z);
    DropUnderscoresOfDigits(z);
    assert IsDigitGroup(z);
  }
}
