/** Python string behaviour the services rely on: `str.strip()`, `str.split()`,
    blank tests, prefix tests, `int(str)` and the ordering of strings. */
module Text {
  import opened Wrappers
  import opened Decimal

  /** The characters Python `str.isspace()` accepts. */
  const SpaceChars: set<char> := {
    '\t', '\n', '\U{0B}', '\U{0C}', '\r', '\U{1C}', '\U{1D}', '\U{1E}', '\U{1F}', ' ',
    '\U{85}', '\U{A0}', '\U{1680}',
    '\U{2000}', '\U{2001}', '\U{2002}', '\U{2003}', '\U{2004}', '\U{2005}',
    '\U{2006}', '\U{2007}', '\U{2008}', '\U{2009}', '\U{200A}',
    '\U{2028}', '\U{2029}', '\U{202F}', '\U{205F}', '\U{3000}'
  }

  /** Python `str.isspace()` for one character. */
  predicate IsSpace(c: char) {
    c in SpaceChars
  }

  predicate AllSpace(s: string) {
    forall i :: 0 <= i < |s| ==> IsSpace(s[i])
  }

  /** The number of whitespace characters that start `s`. */
  function LeadingSpaces(s: string): (n: nat)
    ensures n <= |s|
  {
    if s == [] || !IsSpace(s[0]) then 0 else 1 + LeadingSpaces(s[1..])
  }

  /** The number of whitespace characters that end `s`. */
  function TrailingSpaces(s: string): (n: nat)
    ensures n <= |s|
  {
    if s == [] || !IsSpace(s[|s| - 1]) then 0 else 1 + TrailingSpaces(s[..|s| - 1])
  }

  /** Python `str.strip()` with no argument: the leading run of whitespace is
      dropped, then the trailing one. */
  function Strip(s: string): string {
    var t := s[LeadingSpaces(s)..];
    t[..|t| - TrailingSpaces(t)]
  }

  /** `not s or not s.strip()`: empty or whitespace only. */
  predicate IsBlank(s: string) {
    Strip(s) == ""
  }

  lemma {:induction false} LeadingSpacesShape(s: string)
    ensures AllSpace(s[..LeadingSpaces(s)])
    ensures LeadingSpaces(s) == |s| || !IsSpace(s[LeadingSpaces(s)])
  {
    if s != [] && IsSpace(s[0]) {
      LeadingSpacesShape(s[1..]);
      var n := LeadingSpaces(s[1..]);
      var u := s[..n + 1];
      forall i | 0 <= i < |u| ensures IsSpace(u[i]) {
        if i > 0 {
          assert u[i] == s[1..][..n][i - 1];
        }
      }
    }
  }

  lemma {:induction false} TrailingSpacesShape(s: string)
    ensures AllSpace(s[|s| - TrailingSpaces(s)..])
    ensures TrailingSpaces(s) == |s| || !IsSpace(s[|s| - 1 - TrailingSpaces(s)])
  {
    if s != [] && IsSpace(s[|s| - 1]) {
      var init := s[..|s| - 1];
      TrailingSpacesShape(init);
      var n := TrailingSpaces(init);
      var u := s[|s| - (n + 1)..];
      forall i | 0 <= i < |u| ensures IsSpace(u[i]) {
        if i < n {
          assert u[i] == init[|init| - n..][i];
        }
      }
    }
  }

  /** What `strip()` keeps neither starts nor ends with whitespace, and what
      it drops is whitespace. */
  lemma StripShape(s: string)
    ensures var a := LeadingSpaces(s);
      var b := TrailingSpaces(s[a..]);
      && Strip(s) == s[a..|s| - b]
      && AllSpace(s[..a]) && AllSpace(s[|s| - b..])
      && (Strip(s) == [] || (!IsSpace(Strip(s)[0]) && !IsSpace(Strip(s)[|Strip(s)| - 1])))
  {
    var a := LeadingSpaces(s);
    var t := s[a..];
    LeadingSpacesShape(s);
    TrailingSpacesShape(t);
    assert t[|t| - TrailingSpaces(t)..] == s[|s| - TrailingSpaces(t)..];
  }

  lemma BlankIffAllSpace(s: string)
    ensures IsBlank(s) <==> AllSpace(s)
  {
    var a := LeadingSpaces(s);
    var t := s[a..];
    LeadingSpacesShape(s);
    TrailingSpacesShape(t);
    if IsBlank(s) {
      assert t[|t| - TrailingSpaces(t)..] == t;
      assert a == |s|;
      assert s[..a] == s;
    }
  }

  /** A non-empty Python string (truthy). */
  predicate Truthy(s: Option<string>) {
    s.Some? && s.value != ""
  }

  /** `x or ""` on an optional string. */
  function OrEmpty(s: Option<string>): (r: string)
    ensures Truthy(s) ==> r == s.value
    ensures !Truthy(s) ==> r == ""
  {
    if s.Some? then s.value else ""
  }

  /** `s.startswith(p)`, also SQL `LIKE 'p%'` for a prefix without wildcards. */
  predicate StartsWith(s: string, p: string) {
    |p| <= |s| && s[..|p|] == p
  }

  /** SQL `LIKE '%k%'` for a keyword without wildcards: `k` occurs in `s`. */
  predicate Contains(s: string, k: string) {
    exists i :: 0 <= i <= |s| - |k| && OccursAt(s, k, i)
  }

  predicate OccursAt(s: string, k: string, i: int) {
    0 <= i <= |s| - |k| && s[i..i + |k|] == k
  }

  /** Lexicographic order of strings by code point. */
  predicate LexLess(a: string, b: string) {
    if a == [] then b != []
    else if b == [] then false
    else if a[0] != b[0] then a[0] < b[0]
    else LexLess(a[1..], b[1..])
  }

  lemma {:induction false} LexIrreflexive(a: string)
    ensures !LexLess(a, a)
  {
    if a != [] { LexIrreflexive(a[1..]); }
  }

  lemma {:induction false} LexTransitive(a: string, b: string, c: string)
    requires LexLess(a, b) && LexLess(b, c)
    ensures LexLess(a, c)
  {
    if a != [] && b != [] && c != [] && a[0] == b[0] && b[0] == c[0] {
      LexTransitive(a[1..], b[1..], c[1..]);
    }
  }

  lemma {:induction false} LexTotal(a: string, b: string)
    requires a != b
    ensures LexLess(a, b) || LexLess(b, a)
  {
    if a != [] && b != [] && a[0] == b[0] {
      assert a == [a[0]] + a[1..] && b == [b[0]] + b[1..];
      LexTotal(a[1..], b[1..]);
    }
  }

  /** Python `str.split()` with no argument: the maximal runs of non-space
      characters, left to right. */
  function SplitWhitespace(s: string): (words: seq<string>)
    ensures forall w :: w in words ==> w != [] && NoSpace(w)
    decreases |s|
  {
    if s == [] then []
    else if IsSpace(s[0]) then SplitWhitespace(s[1..])
    else
      var n := WordLength(s);
      [s[..n]] + SplitWhitespace(s[n..])
  }

  predicate NoSpace(s: string) {
    forall i :: 0 <= i < |s| ==> !IsSpace(s[i])
  }

  /** Length of the run of non-space characters that starts `s`. */
  function WordLength(s: string): (n: nat)
    ensures n <= |s| && NoSpace(s[..n])
    ensures n == |s| || IsSpace(s[n])
    ensures s != [] && !IsSpace(s[0]) ==> n >= 1
  {
    if s == [] || IsSpace(s[0]) then 0
    else
      var n := WordLength(s[1..]);
      assert s[..n + 1] == [s[0]] + s[1..][..n];
      n + 1
  }

  /** The string with every whitespace character removed. */
  function RemoveSpaces(s: string): string {
    if s == [] then [] else (if IsSpace(s[0]) then [] else [s[0]]) + RemoveSpaces(s[1..])
  }

  function Concat(words: seq<string>): string {
    if words == [] then [] else words[0] + Concat(words[1..])
  }

  lemma {:induction false} RemoveSpacesOfWord(w: string)
    requires NoSpace(w)
    ensures RemoveSpaces(w) == w
  {
    if w != [] {
      RemoveSpacesOfWord(w[1..]);
    }
  }

  lemma {:induction false} RemoveSpacesAppend(a: string, b: string)
    ensures RemoveSpaces(a + b) == RemoveSpaces(a) + RemoveSpaces(b)
  {
    if a != [] {
      assert (a + b)[1..] == a[1..] + b;
      RemoveSpacesAppend(a[1..], b);
    } else {
      assert a + b == b;
    }
  }

  /** The words of `split()` are exactly the non-space characters of `s`, in order. */
  lemma {:induction false} SplitKeepsText(s: string)
    ensures Concat(SplitWhitespace(s)) == RemoveSpaces(s)
    decreases |s|
  {
    if s == [] {
    } else if IsSpace(s[0]) {
      SplitKeepsText(s[1..]);
    } else {
      var n := WordLength(s);
      SplitKeepsText(s[n..]);
      assert s == s[..n] + s[n..];
      RemoveSpacesAppend(s[..n], s[n..]);
      RemoveSpacesOfWord(s[..n]);
    }
  }

  /** Whitespace-only input has no words. */
  lemma {:induction false} SplitBlank(s: string)
    requires AllSpace(s)
    ensures SplitWhitespace(s) == []
    decreases |s|
  {
    if s != [] {
      SplitBlank(s[1..]);
    }
  }

  predicate DigitsOrUnderscores(u: string) {
    forall i :: 0 <= i < |u| ==> IsDigit(u[i]) || u[i] == '_'
  }

  /** No two underscores side by side at index `i`. */
  predicate SingleUnderscoreAt(u: string, i: nat)
    requires i + 1 < |u|
  {
    !(u[i] == '_' && u[i + 1] == '_')
  }

  /** Digits with single underscores between digits, as Python `int()` accepts. */
  predicate DigitGroups(u: string) {
    |u| >= 1 && IsDigit(u[0]) && IsDigit(u[|u| - 1]) && DigitsOrUnderscores(u)
    && forall i: nat :: i + 1 < |u| ==> SingleUnderscoreAt(u, i)
  }

  function RemoveUnderscores(u: string): (r: string)
    ensures DigitsOrUnderscores(u) ==> AllDigits(r)
    ensures AllDigits(u) ==> r == u
  {
    if u == [] then []
    else
      var rest := RemoveUnderscores(u[1..]);
      if u[0] == '_' then rest else [u[0]] + rest
  }

  predicate SignedDigits(t: string) {
    (|t| >= 1 && (t[0] == '-' || t[0] == '+') && DigitGroups(t[1..])) || DigitGroups(t)
  }

  /** Python `int(s)` for base-10 text: surrounding whitespace, an optional
      sign, digits with single underscores. None where Python raises ValueError. */
  function ParsePythonInt(s: string): (r: Option<int>)
    ensures r.Some? <==> SignedDigits(Strip(s))
  {
    ParseSigned(Strip(s))
  }

  /** `int(t)` once the surrounding whitespace is gone. */
  function ParseSigned(t: string): (r: Option<int>)
    ensures r.Some? <==> SignedDigits(t)
  {
    if |t| >= 1 && (t[0] == '-' || t[0] == '+') then
      if DigitGroups(t[1..]) then
        var v: int := Parse(RemoveUnderscores(t[1..]));
        Some(if t[0] == '-' then -v else v)
      else None
    else if DigitGroups(t) then Some(Parse(RemoveUnderscores(t)))
    else None
  }

  lemma DigitsAreGroups(u: string)
    requires AllDigits(u) && |u| >= 1
    ensures DigitGroups(u)
  {
  }

  /** `int(str(i)) == i`. */
  lemma {:induction false} ParseIntRoundTrip(i: int)
    ensures ParsePythonInt(FromInt(i)) == Some(i)
  {
    var s := FromInt(i);
    assert !IsSpace(s[0]) && !IsSpace(s[|s| - 1]);
    StripOfNonSpace(s);
    SignedRoundTrip(i);
  }

  lemma SignedRoundTrip(i: int)
    ensures ParseSigned(FromInt(i)) == Some(i)
  {
    var s := FromInt(i);
    var n: nat := if i < 0 then -i else i;
    var d := FromNat(n);
    ParseFromNat(n);
    DigitsAreGroups(d);
    assert RemoveUnderscores(d) == d;
    if i < 0 {
      assert s[0] == '-' && s[1..] == d;
    } else {
      assert s == d;
      assert !(s[0] == '-' || s[0] == '+');
    }
  }

  lemma StripOfNonSpace(s: string)
    requires s != [] && !IsSpace(s[0]) && !IsSpace(s[|s| - 1])
    ensures Strip(s) == s
  {
  }
}
