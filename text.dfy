/**
 * String primitives that the validator uses on attribute values and raw
 * text: substring search, prefix tests, ASCII/Latin-1 case mapping,
 * whitespace trimming, first-occurrence replacement and splitting on a
 * set of delimiter characters.
 */
module Text {

  /** A value that may be absent (a missing attribute, a failed match). */
  datatype Option<T> = None | Some(value: T)

  /** The value of an option as a sequence of at most one element. */
  function ComoSecuencia<T>(o: Option<T>): (r: seq<T>)
    ensures |r| == (if o.Some? then 1 else 0)
  {
    if o.Some? then [o.value] else []
  }

  /** `p` is a prefix of `s` (JavaScript `s.startsWith(p)`). */
  predicate StartsWith(s: string, p: string)
  {
    |p| <= |s| && s[..|p|] == p
  }

  /** `sub` occurs in `s` (JavaScript `s.includes(sub)`). */
  predicate Contains(s: string, sub: string)
    decreases |s|
  {
    StartsWith(s, sub) || (|s| > 0 && Contains(s[1..], sub))
  }

  /** An occurrence of `sub` at a fixed offset is found by `Contains`. */
  lemma {:induction false} ContainsAt(s: string, sub: string, i: nat)
    requires i + |sub| <= |s| && s[i..i + |sub|] == sub
    ensures Contains(s, sub)
    decreases i
  {
    if i == 0 {
      assert s[..|sub|] == sub;
    } else {
      assert s[1..][i - 1..i - 1 + |sub|] == s[i..i + |sub|];
      ContainsAt(s[1..], sub, i - 1);
    }
  }

  /** Where `Contains` finds `sub`: an offset at which it occurs. */
  lemma {:induction false} ContainsIndex(s: string, sub: string) returns (i: nat)
    requires Contains(s, sub)
    ensures i + |sub| <= |s| && s[i..i + |sub|] == sub
    decreases |s|
  {
    if StartsWith(s, sub) {
      i := 0;
    } else {
      var j := ContainsIndex(s[1..], sub);
      assert s[1..][j..j + |sub|] == s[j + 1..j + 1 + |sub|];
      i := j + 1;
    }
  }

  /** Containment is transitive: a text containing `a` contains everything `a` contains. */
  lemma ContainsTransitive(s: string, a: string, b: string)
    requires Contains(a, b)
    ensures Contains(s, a) ==> Contains(s, b)
  {
    if Contains(s, a) {
      var i := ContainsIndex(s, a);
      var j := ContainsIndex(a, b);
      assert s[i..i + |a|] == a;
      forall k | 0 <= k < |b| ensures s[i + j + k] == b[k] {
        assert s[i + j + k] == s[i..i + |a|][j + k];
        assert a[j..j + |b|][k] == a[j + k];
      }
      assert s[i + j..i + j + |b|] == b;
      ContainsAt(s, b, i + j);
    }
  }

  /** A text containing `a` contains every piece of `a`. */
  lemma ContainsPiece(s: string, a: string, b: string, i: nat)
    requires i + |b| <= |a| && a[i..i + |b|] == b
    ensures Contains(s, a) ==> Contains(s, b)
  {
    ContainsAt(a, b, i);
    ContainsTransitive(s, a, b);
  }

  /** A text glued around `sub` contains it. */
  lemma {:induction false} ContainsInfix(a: string, sub: string, b: string)
    ensures Contains(a + sub + b, sub)
  {
    var s := a + sub + b;
    assert s[|a|..|a| + |sub|] == sub;
    ContainsAt(s, sub, |a|);
  }

  /** A text that lacks one of the characters of `sub` does not contain `sub`. */
  lemma {:induction false} NotContainsMissingChar(s: string, sub: string, j: nat)
    requires j < |sub|
    requires forall i :: 0 <= i < |s| ==> s[i] != sub[j]
    ensures !Contains(s, sub)
    decreases |s|
  {
    if |sub| <= |s| {
      assert s[..|sub|][j] != sub[j];
    }
    if |s| > 0 {
      NotContainsMissingChar(s[1..], sub, j);
    }
  }

  function LowerChar(c: char): char
  {
    if 'A' <= c <= 'Z' then (c as int + 32) as char
    else if '\U{C0}' <= c <= '\U{DE}' && c != '\U{D7}' then (c as int + 32) as char
    else c
  }

  function UpperChar(c: char): char
  {
    if 'a' <= c <= 'z' then (c as int - 32) as char
    else if '\U{E0}' <= c <= '\U{FE}' && c != '\U{F7}' then (c as int - 32) as char
    else c
  }

  /** `s.toLowerCase()` on Basic Latin and Latin-1 letters. */
  function Lower(s: string): (r: string)
    ensures |r| == |s|
  {
    seq(|s|, i requires 0 <= i < |s| => LowerChar(s[i]))
  }

  /** `s.toUpperCase()` on Basic Latin and Latin-1 letters (no `ß` expansion). */
  function Upper(s: string): (r: string)
    ensures |r| == |s|
  {
    seq(|s|, i requires 0 <= i < |s| => UpperChar(s[i]))
  }

  /** Upper-casing twice is upper-casing once. */
  lemma UpperIdempotent(s: string)
    ensures Upper(Upper(s)) == Upper(s)
  {
  }

  /** Upper-casing ignores how the text was cased before. */
  lemma UpperLower(s: string)
    ensures Upper(Lower(s)) == Upper(s)
  {
  }

  /** Lower-casing ignores how the text was cased before. */
  lemma LowerUpper(s: string)
    ensures Lower(Upper(s)) == Lower(s)
  {
  }

  /**
   * The characters `String.prototype.trim` removes: the ECMAScript white
   * space (tab, vertical tab, form feed, the byte-order mark and every
   * space separator) and the line terminators.
   */
  predicate IsSpace(c: char)
  {
    c == ' ' || c == '\t' || c == '\n' || c == '\r' || c == '\U{0B}' || c == '\U{0C}'
    || c == '\U{A0}' || c == '\U{FEFF}' || c == '\U{1680}' || '\U{2000}' <= c <= '\U{200A}'
    || c == '\U{2028}' || c == '\U{2029}' || c == '\U{202F}' || c == '\U{205F}' || c == '\U{3000}'
  }

  function TrimStart(s: string): (r: string)
    ensures |r| <= |s|
    ensures r == s[|s| - |r|..]
    ensures |r| > 0 ==> !IsSpace(r[0])
    decreases |s|
  {
    if |s| > 0 && IsSpace(s[0]) then TrimStart(s[1..]) else s
  }

  function TrimEnd(s: string): (r: string)
    ensures |r| <= |s|
    ensures r == s[..|r|]
    ensures |r| > 0 ==> !IsSpace(r[|r| - 1])
    decreases |s|
  {
    if |s| > 0 && IsSpace(s[|s| - 1]) then TrimEnd(s[..|s| - 1]) else s
  }

  /** `s.trim()`: the text without leading and trailing white space. */
  function Trim(s: string): (r: string)
    ensures |r| <= |s|
    ensures |r| > 0 ==> !IsSpace(r[0]) && !IsSpace(r[|r| - 1])
  {
    TrimEnd(TrimStart(s))
  }

  /** The longest prefix of `s` made of decimal digits. */
  function LeadingDigits(s: string): (d: string)
    ensures |d| <= |s| && d == s[..|d|]
    ensures forall i :: 0 <= i < |d| ==> '0' <= d[i] <= '9'
    ensures |d| < |s| ==> !('0' <= s[|d|] <= '9')
    decreases |s|
  {
    if |s| > 0 && '0' <= s[0] <= '9' then [s[0]] + LeadingDigits(s[1..]) else ""
  }

  predicate AllZeros(d: string)
  {
    forall i :: 0 <= i < |d| ==> d[i] == '0'
  }

  /**
   * `parseFloat(s) === 0`: after leading white space and an optional sign,
   * the longest decimal numeral `digits [. digits]` has at least one digit
   * and all of its digits are zero; whatever follows it is ignored.
   */
  predicate ParsesToZero(s: string)
  {
    var t := TrimStart(s);
    var u := if |t| > 0 && (t[0] == '+' || t[0] == '-') then t[1..] else t;
    var a := LeadingDigits(u);
    var rest := u[|a|..];
    var b := if |rest| > 0 && rest[0] == '.' then LeadingDigits(rest[1..]) else "";
    |a| + |b| > 0 && AllZeros(a) && AllZeros(b)
  }

  /** Index of the first occurrence of `pat` in `s`, or -1 (`s.indexOf(pat)`). */
  function IndexOf(s: string, pat: string): (k: int)
    requires |pat| > 0
    ensures k == -1 || 0 <= k <= |s| - |pat|
    ensures k >= 0 ==> s[k..k + |pat|] == pat
    decreases |s|
  {
    if |s| < |pat| then -1
    else if s[..|pat|] == pat then 0
    else
      var k := IndexOf(s[1..], pat);
      if k < 0 then -1 else k + 1
  }

  /** No occurrence before the index `IndexOf` reports. */
  lemma {:induction false} IndexOfIsFirst(s: string, pat: string, i: nat)
    requires |pat| > 0
    requires i + |pat| <= |s| && s[i..i + |pat|] == pat
    ensures 0 <= IndexOf(s, pat) <= i
    decreases |s|
  {
    if s[..|pat|] != pat {
      assert i > 0;
      assert s[1..][i - 1..i - 1 + |pat|] == s[i..i + |pat|];
      IndexOfIsFirst(s[1..], pat, i - 1);
    }
  }

  /**
   * `s.replace(pat, rep)` with a string pattern: the FIRST occurrence of
   * `pat` becomes `rep`; a text without `pat` is returned unchanged.
   */
  function ReplaceFirst(s: string, pat: string, rep: string): string
    requires |pat| > 0
  {
    var k := IndexOf(s, pat);
    if k < 0 then s else s[..k] + rep + s[k + |pat|..]
  }

  /** The pieces joined back, with `sep` between consecutive pieces (`parts.join(sep)`). */
  function Join(parts: seq<string>, sep: char): (s: string)
    requires |parts| >= 1
    decreases |parts|
  {
    if |parts| == 1 then parts[0] else parts[0] + [sep] + Join(parts[1..], sep)
  }

  /** The pieces of `s` between the delimiter characters of `seps`, in order. */
  function SplitOn(s: string, seps: set<char>): (parts: seq<string>)
    ensures |parts| >= 1
    ensures forall k :: 0 <= k < |parts| ==> forall j :: 0 <= j < |parts[k]| ==> parts[k][j] !in seps
    decreases |s|
  {
    if s == [] then [""]
    else
      var rest := SplitOn(s[1..], seps);
      if s[0] in seps then [""] + rest
      else [[s[0]] + rest[0]] + rest[1..]
  }

  /** Splitting on one character and joining on it again gives back the text. */
  lemma {:induction false} JoinSplitOn(s: string, sep: char)
    ensures Join(SplitOn(s, {sep}), sep) == s
    decreases |s|
  {
    if s != [] {
      var rest := SplitOn(s[1..], {sep});
      JoinSplitOn(s[1..], sep);
      if s[0] == sep {
        assert ([""] + rest)[1..] == rest;
        assert s == [sep] + s[1..];
      } else {
        var parts := [[s[0]] + rest[0]] + rest[1..];
        assert parts[1..] == rest[1..];
        if |rest| > 1 {
          assert rest[1..] == rest[1..];
          assert Join(rest, sep) == rest[0] + [sep] + Join(rest[1..], sep);
          assert Join(parts, sep) == [s[0]] + rest[0] + [sep] + Join(rest[1..], sep);
        }
        assert s == [s[0]] + s[1..];
      }
    }
  }
}
