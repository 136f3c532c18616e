/** The parts of Python's `str` that the modelled code relies on: `isspace`,
    `strip`, `split()`, `lower`, `startswith`, `", ".join` and `str(int)`,
    together with the regular-expression word class `\w` used by `\b`. */
module PyText {
  import opened Wrappers

  /** `str.isspace()`: the characters that `strip()`, `split()` and the regex
      class `\s` treat as white space. */
  predicate IsSpace(c: char) {
    ('\t' <= c <= '\r') || ('\U{1c}' <= c <= '\U{1f}') || c == ' '
    || c == '\U{85}' || c == '\U{a0}' || c == '\U{1680}'
    || ('\U{2000}' <= c <= '\U{200a}') || c == '\U{2028}' || c == '\U{2029}'
    || c == '\U{202f}' || c == '\U{205f}' || c == '\U{3000}'
  }

  /** The regex word class `\w`, restricted to ASCII. */
  predicate IsWordChar(c: char) {
    ('a' <= c <= 'z') || ('A' <= c <= 'Z') || ('0' <= c <= '9') || c == '_'
  }

  function LowerChar(c: char): char {
    if 'A' <= c <= 'Z' then (c as int + 32) as char else c
  }

  /** `str.lower()`, restricted to ASCII letters. */
  function Lower(s: string): string {
    seq(|s|, i requires 0 <= i < |s| => LowerChar(s[i]))
  }

  predicate NoSpace(s: string) {
    forall i :: 0 <= i < |s| ==> !IsSpace(s[i])
  }

  predicate StartsWith(s: string, prefix: string) {
    |prefix| <= |s| && s[..|prefix|] == prefix
  }

  // ---------------------------------------------------------------------
  // strip()
  // ---------------------------------------------------------------------

  /** Length of the longest all-white-space prefix of `s`. */
  function LeadingSpaces(s: string): (n: nat)
    ensures n <= |s|
    ensures forall k :: 0 <= k < n ==> IsSpace(s[k])
    ensures n < |s| ==> !IsSpace(s[n])
  {
    if s == [] || !IsSpace(s[0]) then 0 else 1 + LeadingSpaces(s[1..])
  }

  /** Length of the longest all-white-space suffix of `s`. */
  function TrailingSpaces(s: string): (n: nat)
    ensures n <= |s|
    ensures forall k :: |s| - n <= k < |s| ==> IsSpace(s[k])
    ensures n < |s| ==> !IsSpace(s[|s| - 1 - n])
  {
    if s == [] || !IsSpace(s[|s| - 1]) then 0 else 1 + TrailingSpaces(s[..|s| - 1])
  }

  predicate IsStripped(s: string) {
    s == [] || (!IsSpace(s[0]) && !IsSpace(s[|s| - 1]))
  }

  /** `str.strip()`: what is left after removing white space, and only white
      space, from both ends. */
  function Strip(s: string): (r: string)
    ensures IsStripped(r)
    ensures LeadingSpaces(s) + |r| <= |s|
    ensures r == s[LeadingSpaces(s)..LeadingSpaces(s) + |r|]
    ensures forall k :: 0 <= k < |s| && (k < LeadingSpaces(s) || LeadingSpaces(s) + |r| <= k) ==> IsSpace(s[k])
  {
    var a := LeadingSpaces(s);
    if a == |s| then "" else s[a..|s| - TrailingSpaces(s)]
  }

  lemma StrippedIsFixed(s: string)
    requires IsStripped(s)
    ensures Strip(s) == s
  {
    if s != [] {
      assert LeadingSpaces(s) == 0;
      assert TrailingSpaces(s) == 0;
    }
  }

  /** Stripping twice is stripping once. */
  lemma StripIdempotent(s: string)
    ensures Strip(Strip(s)) == Strip(s)
  {
    StrippedIsFixed(Strip(s));
  }

  predicate AllSpace(s: string) {
    forall k :: 0 <= k < |s| ==> IsSpace(s[k])
  }

  lemma {:induction false} LeadingAfterSpaces(x: string, w: string)
    requires AllSpace(x)
    ensures LeadingSpaces(x + w) == |x| + LeadingSpaces(w)
  {
    if x == [] {
      assert x + w == w;
    } else {
      assert (x + w)[0] == x[0];
      assert (x + w)[1..] == x[1..] + w;
      LeadingAfterSpaces(x[1..], w);
    }
  }

  lemma {:induction false} TrailingBeforeSpaces(w: string, y: string)
    requires AllSpace(y)
    ensures TrailingSpaces(w + y) == TrailingSpaces(w) + |y|
  {
    if y == [] {
      assert w + y == w;
    } else {
      var y' := y[..|y| - 1];
      assert (w + y)[|w + y| - 1] == y[|y| - 1];
      assert (w + y)[..|w + y| - 1] == w + y';
      TrailingBeforeSpaces(w, y');
    }
  }

  /** A string made of white space, a stripped core and white space strips to
      that core. */
  lemma StripOfPadded(x: string, r: string, y: string)
    requires AllSpace(x) && AllSpace(y) && IsStripped(r)
    ensures Strip(x + r + y) == r
  {
    var t := x + r + y;
    LeadingAfterSpaces(x, r + y);
    assert t == x + (r + y);
    if r == [] {
      assert r + y == y;
      LeadingAfterSpaces(y, []);
      assert y + [] == y;
    } else {
      assert (r + y)[0] == r[0];
      TrailingBeforeSpaces(x + r, y);
      assert (x + r)[|x + r| - 1] == r[|r| - 1];
      assert t[|x|..|x| + |r|] == r;
    }
  }

  /** A string is its leading white space, its stripped form and its
      trailing white space. */
  lemma StripSplits(s: string)
    ensures var a := LeadingSpaces(s);
      var r := Strip(s);
      && a + |r| <= |s|
      && s == s[..a] + r + s[a + |r|..]
      && AllSpace(s[..a]) && AllSpace(s[a + |r|..])
  {
    var a, r := LeadingSpaces(s), Strip(s);
    var p1, p2 := s[..a], s[a + |r|..];
    assert AllSpace(p2) by {
      forall k | 0 <= k < |p2| ensures IsSpace(p2[k]) { assert p2[k] == s[a + |r| + k]; }
    }
    assert s == p1 + s[a..a + |r|] + p2;
  }

  lemma Regroup(pre: string, p1: string, r: string, p2: string, post: string)
    ensures pre + (p1 + r + p2) + post == (pre + p1) + r + (p2 + post)
  {
  }

  lemma SpacesAppend(x: string, y: string)
    requires AllSpace(x) && AllSpace(y)
    ensures AllSpace(x + y)
  {
    forall k | 0 <= k < |x + y| ensures IsSpace((x + y)[k]) {
      if k < |x| { assert (x + y)[k] == x[k]; } else { assert (x + y)[k] == y[k - |x|]; }
    }
  }

  /** Only white space separates a string from its stripped form: gluing
      white space to either end does not change the result. */
  lemma StripIgnoresPadding(pre: string, s: string, post: string)
    requires AllSpace(pre) && AllSpace(post)
    ensures Strip(pre + s + post) == Strip(s)
  {
    var a, r := LeadingSpaces(s), Strip(s);
    var p1, p2 := s[..a], s[a + |r|..];
    StripSplits(s);
    Regroup(pre, p1, r, p2, post);
    SpacesAppend(pre, p1);
    SpacesAppend(p2, post);
    StripOfPadded(pre + p1, r, p2 + post);
  }

  // ---------------------------------------------------------------------
  // split()
  // ---------------------------------------------------------------------

  /** The characters of `s` that are not white space, in order. */
  function NonSpace(s: string): string {
    if s == [] then [] else (if IsSpace(s[0]) then [] else [s[0]]) + NonSpace(s[1..])
  }

  function Concat(ws: seq<string>): string {
    if ws == [] then [] else ws[0] + Concat(ws[1..])
  }

  lemma {:induction false} NonSpaceAppend(a: string, b: string)
    ensures NonSpace(a + b) == NonSpace(a) + NonSpace(b)
  {
    if a == [] {
      assert a + b == b;
    } else {
      var h := if IsSpace(a[0]) then [] else [a[0]];
      assert (a + b)[0] == a[0];
      assert (a + b)[1..] == a[1..] + b;
      assert NonSpace(a + b) == h + NonSpace(a[1..] + b);
      NonSpaceAppend(a[1..], b);
      assert NonSpace(a) == h + NonSpace(a[1..]);
    }
  }

  lemma {:induction false} NonSpaceOfWord(s: string)
    requires NoSpace(s)
    ensures NonSpace(s) == s
  {
    if s != [] { NonSpaceOfWord(s[1..]); }
  }

  /** Length of the longest prefix of `s` free of white space. */
  function WordLength(s: string): (n: nat)
    ensures n <= |s|
    ensures NoSpace(s[..n])
    ensures n < |s| ==> IsSpace(s[n])
  {
    if s == [] || IsSpace(s[0]) then 0 else 1 + WordLength(s[1..])
  }

  /** `str.split()` with no separator: the maximal runs of non-white-space
      characters. No word is empty or holds white space. */
  function Words(s: string): (ws: seq<string>)
    ensures forall i :: 0 <= i < |ws| ==> ws[i] != [] && NoSpace(ws[i])
    decreases |s|
  {
    if s == [] then []
    else if IsSpace(s[0]) then Words(s[1..])
    else
      var n := WordLength(s);
      [s[..n]] + Words(s[n..])
  }

  /** The words of `s` hold exactly its non-white-space characters, in order. */
  lemma {:induction false} WordsCoverText(s: string)
    ensures Concat(Words(s)) == NonSpace(s)
    decreases |s|
  {
    if s == [] {
    } else if IsSpace(s[0]) {
      WordsCoverText(s[1..]);
    } else {
      var n := WordLength(s);
      var rest := Words(s[n..]);
      WordsCoverText(s[n..]);
      assert s == s[..n] + s[n..];
      NonSpaceAppend(s[..n], s[n..]);
      NonSpaceOfWord(s[..n]);
      assert Words(s) == [s[..n]] + rest;
      assert ([s[..n]] + rest)[1..] == rest;
    }
  }

  /** `set(s.lower().split())`. */
  function WordSet(s: string): set<string> {
    set w | w in Words(Lower(s))
  }

  // ---------------------------------------------------------------------
  // lower()
  // ---------------------------------------------------------------------

  lemma LowerCharFacts(c: char)
    ensures LowerChar(LowerChar(c)) == LowerChar(c)
    ensures IsSpace(LowerChar(c)) == IsSpace(c)
    ensures IsWordChar(LowerChar(c)) == IsWordChar(c)
  {
  }

  lemma LowerIdempotent(s: string)
    ensures Lower(Lower(s)) == Lower(s)
  {
    forall i | 0 <= i < |s| ensures Lower(Lower(s))[i] == Lower(s)[i] {
      LowerCharFacts(s[i]);
    }
  }

  lemma LowerSlice(s: string, a: nat, b: nat)
    requires a <= b <= |s|
    ensures Lower(s[a..b]) == Lower(s)[a..b]
  {
  }

  lemma LowerAppend(s: string, t: string)
    ensures Lower(s + t) == Lower(s) + Lower(t)
  {
  }

  lemma LowerOfSpaces(x: string)
    requires AllSpace(x)
    ensures Lower(x) == x
  {
  }

  lemma LowerOfStripped(r: string)
    requires IsStripped(r)
    ensures IsStripped(Lower(r))
  {
    if r != [] {
      LowerCharFacts(r[0]);
      LowerCharFacts(r[|r| - 1]);
    }
  }

  /** Lower-casing touches no white space, so it commutes with `strip()`. */
  lemma StripLower(s: string)
    ensures Strip(Lower(s)) == Lower(Strip(s))
  {
    var a, r := LeadingSpaces(s), Strip(s);
    var pre, post := s[..a], s[a + |r|..];
    assert s == pre + r + post;
    LowerAppend(pre + r, post);
    LowerAppend(pre, r);
    assert AllSpace(pre);
    LowerOfSpaces(pre);
    assert AllSpace(post) by {
      forall k | 0 <= k < |post| ensures IsSpace(post[k]) { assert post[k] == s[a + |r| + k]; }
    }
    LowerOfSpaces(post);
    assert Lower(s) == pre + Lower(r) + post;
    StripIgnoresPadding(pre, Lower(r), post);
    LowerOfStripped(r);
    StrippedIsFixed(Lower(r));
  }

  // ---------------------------------------------------------------------
  // ", ".join(...) and str(int)
  // ---------------------------------------------------------------------

  /** `sep.join(xs)`. */
  function Join(xs: seq<string>, sep: string): string {
    if xs == [] then ""
    else if |xs| == 1 then xs[0]
    else xs[0] + sep + Join(xs[1..], sep)
  }

  function DigitChar(d: nat): char
    requires d < 10
  {
    ('0' as int + d) as char
  }

  predicate IsDigits(s: string) {
    forall i :: 0 <= i < |s| ==> '0' <= s[i] <= '9'
  }

  /** Decimal digits of `n`, without leading zeros. */
  function Digits(n: nat): (s: string)
    ensures 1 <= |s| && IsDigits(s)
    ensures n > 0 ==> s[0] != '0'
  {
    if n < 10 then [DigitChar(n)] else Digits(n / 10) + [DigitChar(n % 10)]
  }

  /** The number a string of decimal digits denotes. */
  function DigitsValue(s: string): nat
    requires IsDigits(s)
  {
    if s == [] then 0 else 10 * DigitsValue(s[..|s| - 1]) + (s[|s| - 1] as int - '0' as int)
  }

  /** Reading back the digits of `n` gives `n`. */
  lemma {:induction false} DigitsRoundTrip(n: nat)
    ensures DigitsValue(Digits(n)) == n
  {
    if n >= 10 {
      DigitsRoundTrip(n / 10);
      var s := Digits(n);
      assert s[..|s| - 1] == Digits(n / 10);
    }
  }

  /** `str(i)` for a Python int. */
  function IntString(i: int): string {
    if i < 0 then "-" + Digits(-i) else Digits(i)
  }

  /** `int(s)` for an optionally signed string of decimal digits. */
  function ParseInt(s: string): (r: Option<int>)
  {
    if s != [] && s[0] == '-' && |s| > 1 && IsDigits(s[1..]) then Some(-(DigitsValue(s[1..]) as int))
    else if s != [] && IsDigits(s) then Some(DigitsValue(s))
    else None
  }

  lemma ParseDigits(n: nat)
    ensures ParseInt(Digits(n)) == Some(n)
  {
    var s := Digits(n);
    DigitsRoundTrip(n);
    assert '0' <= s[0] <= '9';
  }

  lemma ParseNegatedDigits(n: nat)
    ensures ParseInt("-" + Digits(n)) == Some(-(n as int))
  {
    var s := "-" + Digits(n);
    DigitsRoundTrip(n);
    assert s[1..] == Digits(n);
  }

  /** `int(str(i)) == i`: the decimal rendering is lossless. */
  lemma IntStringRoundTrip(i: int)
    ensures ParseInt(IntString(i)) == Some(i)
  {
    if i < 0 {
      ParseNegatedDigits(-i);
    } else {
      ParseDigits(i);
    }
  }
}
