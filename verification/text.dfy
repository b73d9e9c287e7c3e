/** String helpers shared by the Python back end and the TypeScript front end:
    the two languages' whitespace sets, trimming, `split(sep)[0]`, lower-casing
    for keyword matching, substring search and decimal rendering of numbers. */
module Text {
  import opened Wrappers

  function Min(a: int, b: int): int { if a <= b then a else b }

  function Max(a: int, b: int): int { if a >= b then a else b }

  /** Truthiness of an optional string in Python (`if s:`, `s or t`) and in
      JavaScript (`s && …`, `s || …`): present and not empty. */
  predicate Truthy(s: Option<string>) {
    s.Some? && s.value != ""
  }

  /** Python's `str.isspace`: the characters `str.strip()` removes. */
  predicate IsPySpace(c: char) {
    c == ' ' || ('\t' <= c <= '\r') || ('\U{1C}' <= c <= '\U{1F}')
    || c == '\U{85}' || c == '\U{A0}' || c == '\U{1680}'
    || ('\U{2000}' <= c <= '\U{200A}') || c == '\U{2028}' || c == '\U{2029}'
    || c == '\U{202F}' || c == '\U{205F}' || c == '\U{3000}'
  }

  /** ECMAScript WhiteSpace and LineTerminator: the characters `String.prototype.trim()` removes. */
  predicate IsJsSpace(c: char) {
    c == ' ' || ('\t' <= c <= '\r') || c == '\U{A0}' || c == '\U{1680}'
    || ('\U{2000}' <= c <= '\U{200A}') || c == '\U{2028}' || c == '\U{2029}'
    || c == '\U{202F}' || c == '\U{205F}' || c == '\U{3000}' || c == '\U{FEFF}'
  }

  predicate AllOf(s: string, p: char -> bool) {
    forall i :: 0 <= i < |s| ==> p(s[i])
  }

  /** Drops the leading characters of `s` that satisfy `ws`. */
  function TrimStart(s: string, ws: char -> bool): (r: string)
    ensures |r| <= |s| && r == s[|s| - |r|..]
    ensures r == [] || !ws(r[0])
    ensures AllOf(s[..|s| - |r|], ws)
    decreases |s|
  {
    if s != [] && ws(s[0]) then TrimStart(s[1..], ws) else s
  }

  /** Drops the trailing characters of `s` that satisfy `ws`. */
  function TrimEnd(s: string, ws: char -> bool): (r: string)
    ensures |r| <= |s| && r == s[..|r|]
    ensures r == [] || !ws(r[|r| - 1])
    ensures AllOf(s[|r|..], ws)
    decreases |s|
  {
    if s != [] && ws(s[|s| - 1]) then TrimEnd(s[..|s| - 1], ws) else s
  }

  /** Python's `str.strip()` (with `ws` = IsPySpace) and JavaScript's
      `String.prototype.trim()` (with `ws` = IsJsSpace): empty exactly when
      `s` is all whitespace, otherwise free of whitespace at either end (and
      the middle of `s`, see TrimIsMiddle). */
  function Trim(s: string, ws: char -> bool): (r: string)
    ensures r == [] <==> AllOf(s, ws)
    ensures r == [] || (!ws(r[0]) && !ws(r[|r| - 1]))
  {
    TrimEnds(s, ws);
    TrimEnd(TrimStart(s, ws), ws)
  }

  /** What Trim keeps is the middle of its input, with only whitespace before and after it. */
  lemma TrimIsMiddle(s: string, ws: char -> bool)
    ensures exists i :: Between(s, Trim(s, ws), i, ws)
  {
    var t := TrimStart(s, ws);
    var r := TrimEnd(t, ws);
    assert Trim(s, ws) == r;
    var i := |s| - |t|;
    TrimSlices(s, t, r, i, ws);
    assert Between(s, r, i, ws);
  }

  /** `r` sits at position `i` of `s` with only whitespace before and after it. */
  predicate Between(s: string, r: string, i: int, ws: char -> bool) {
    0 <= i <= |s| - |r| && r == s[i..i + |r|] && AllOf(s[..i], ws) && AllOf(s[i + |r|..], ws)
  }

  lemma TrimEnds(s: string, ws: char -> bool)
    ensures var r := TrimEnd(TrimStart(s, ws), ws);
      (r == [] <==> AllOf(s, ws)) && (r == [] || !ws(r[0]))
  {
    var t := TrimStart(s, ws);
    var r := TrimEnd(t, ws);
    var i := |s| - |t|;
    TrimSlices(s, t, r, i, ws);
    TrimEmpty(s, t, r, i, ws);
    if r != [] {
      assert r[0] == t[0];
    }
  }

  /** Where the two trimmed pieces sit inside the original string. */
  lemma TrimSlices(s: string, t: string, r: string, i: int, ws: char -> bool)
    requires t == TrimStart(s, ws) && r == TrimEnd(t, ws) && i == |s| - |t|
    ensures 0 <= i <= |s| - |r| && r == s[i..i + |r|]
    ensures AllOf(s[..i], ws) && AllOf(s[i + |r|..], ws)
  {
    SliceOfSuffix(s, t, r, i);
  }

  /** A prefix `r` of the suffix `t` of `s` starting at `i` is a slice of
      `s`, and what follows it in `t` is what follows it in `s`. */
  lemma SliceOfSuffix(s: string, t: string, r: string, i: int)
    requires 0 <= i <= |s| && t == s[i..] && |r| <= |t| && r == t[..|r|]
    ensures r == s[i..i + |r|] && s[i + |r|..] == t[|r|..]
  {
  }

  lemma TrimEmpty(s: string, t: string, r: string, i: int, ws: char -> bool)
    requires t == TrimStart(s, ws) && r == TrimEnd(t, ws) && i == |s| - |t|
    requires 0 <= i <= |s| - |r| && r == s[i..i + |r|]
    requires AllOf(s[..i], ws) && AllOf(s[i + |r|..], ws)
    ensures r == [] <==> AllOf(s, ws)
  {
    if r == [] {
      assert t[|r|..] == t;
      assert t == [];
      assert s[..i] == s;
    } else {
      assert s[i] == r[0];
    }
  }

  /** Trimming undoes whitespace padding: whatever whitespace surrounds a word
      that neither starts nor ends with whitespace, Trim gives back the word. */
  lemma {:induction false} TrimPadded(pre: string, word: string, post: string, ws: char -> bool)
    requires AllOf(pre, ws) && AllOf(post, ws)
    requires word == [] || (!ws(word[0]) && !ws(word[|word| - 1]))
    ensures Trim(pre + word + post, ws) == word
  {
    var s := pre + word + post;
    if word == [] {
      forall k | 0 <= k < |s| ensures ws(s[k]) {
        if k < |pre| { assert s[k] == pre[k]; } else { assert s[k] == post[k - |pre|]; }
      }
    } else {
      assert s == pre + (word + post);
      TrimStartSkips(pre, word + post, ws);
      TrimEndSkips(word, post, ws);
    }
  }

  lemma {:induction false} TrimStartSkips(pre: string, rest: string, ws: char -> bool)
    requires AllOf(pre, ws)
    requires rest == [] || !ws(rest[0])
    ensures TrimStart(pre + rest, ws) == rest
  {
    if pre == [] {
      assert pre + rest == rest;
    } else {
      assert (pre + rest)[1..] == pre[1..] + rest;
      TrimStartSkips(pre[1..], rest, ws);
    }
  }

  lemma {:induction false} TrimEndSkips(rest: string, post: string, ws: char -> bool)
    requires AllOf(post, ws)
    requires rest == [] || !ws(rest[|rest| - 1])
    ensures TrimEnd(rest + post, ws) == rest
  {
    if post == [] {
      assert rest + post == rest;
    } else {
      var s := rest + post;
      assert s[..|s| - 1] == rest + post[..|post| - 1];
      TrimEndSkips(rest, post[..|post| - 1], ws);
    }
  }

  /** Python's `s.split(sep)[0]`: the text before the first `sep`, or all of
      `s` when it has none. */
  function FirstField(s: string, sep: char): (r: string)
    ensures |r| <= |s| && r == s[..|r|]
    ensures sep !in r
    ensures |r| < |s| ==> s[|r|] == sep
  {
    if s == [] || s[0] == sep then [] else [s[0]] + FirstField(s[1..], sep)
  }

  /** The first field ends at the first separator: it is everything before it. */
  lemma {:induction false} FirstFieldStops(field: string, rest: string, sep: char)
    requires sep !in field
    requires rest == [] || rest[0] == sep
    ensures FirstField(field + rest, sep) == field
  {
    if field != [] {
      assert (field + rest)[1..] == field[1..] + rest;
      FirstFieldStops(field[1..], rest, sep);
    } else {
      assert field + rest == rest;
    }
  }

  /** A character that lower-casing leaves as it is. */
  predicate KeepsCase(c: char) {
    !('A' <= c <= 'Z') && c != '\U{212A}' && c != '\U{130}'
  }

  /** Python's `str.lower()` as far as ASCII letters are concerned: A-Z map to
      a-z, and the two non-ASCII characters whose lower case contains an ASCII
      letter (KELVIN SIGN to "k", LATIN CAPITAL I WITH DOT ABOVE to "i" and a
      combining dot) are mapped as Python maps them. Every other character is
      kept; the lower case Python gives it holds no ASCII character either, so
      whether an ASCII keyword occurs in the result is the same. */
  function LowerChar(c: char): (r: string)
    ensures |r| >= 1
    ensures forall i :: 0 <= i < |r| ==> KeepsCase(r[i])
    ensures KeepsCase(c) ==> r == [c]
    // An ASCII capital becomes the small letter at the same place in the alphabet.
    ensures 'A' <= c <= 'Z' ==> |r| == 1 && 'a' <= r[0] <= 'z' && r[0] as int - 'a' as int == c as int - 'A' as int
  {
    if 'A' <= c <= 'Z' then [(c as int + 32) as char]
    else if c == '\U{212A}' then "k"
    else if c == '\U{130}' then "i\U{307}"
    else [c]
  }

  /** Lower-casing leaves no capital behind, never shortens the text and
      leaves text without capitals as it is. */
  function Lower(s: string): (r: string)
    ensures |r| >= |s|
    ensures forall i :: 0 <= i < |r| ==> KeepsCase(r[i])
    ensures (forall i :: 0 <= i < |s| ==> KeepsCase(s[i])) ==> r == s
  {
    if s == [] then [] else LowerChar(s[0]) + Lower(s[1..])
  }

  /** Lower-casing works piece by piece. */
  lemma {:induction false} LowerConcat(a: string, b: string)
    ensures Lower(a + b) == Lower(a) + Lower(b)
  {
    if a == [] {
      assert a + b == b;
    } else {
      assert (a + b)[1..] == a[1..] + b;
      LowerConcat(a[1..], b);
    }
  }

  /** Python's `sub in s`. */
  predicate Contains(s: string, sub: string) {
    exists i :: 0 <= i <= |s| && sub <= s[i..]
  }

  /** Keyword matching on the lowered text is case-insensitive: a message
      that contains `w` in any case has `Lower(w)` in its lower case. */
  lemma LowerKeepsContains(s: string, w: string)
    requires Contains(s, w)
    ensures Contains(Lower(s), Lower(w))
  {
    var i :| 0 <= i <= |s| && w <= s[i..];
    var before, after := s[..i], s[i + |w|..];
    assert s == before + w + after;
    LowerConcat(before + w, after);
    LowerConcat(before, w);
    ContainsMiddle(Lower(before), Lower(w), Lower(after));
  }

  /** The middle piece of a concatenation occurs in it. */
  lemma ContainsMiddle(a: string, b: string, c: string)
    ensures Contains(a + b + c, b)
  {
    assert b <= (a + b + c)[|a|..];
  }

  predicate IsDigit(c: char) { '0' <= c <= '9' }

  function DigitChar(d: nat): (c: char)
    requires d < 10
    ensures IsDigit(c) && c as int - '0' as int == d
  {
    ('0' as int + d) as char
  }

  /** The decimal rendering of a whole number, as JavaScript's template
      literals and Python's f-strings print one: digits only, no leading zero. */
  function NatToString(n: nat): (s: string)
    ensures 1 <= |s| && AllOf(s, IsDigit)
    ensures |s| > 1 ==> s[0] != '0'
    decreases n
  {
    if n < 10 then [DigitChar(n)] else NatToString(n / 10) + [DigitChar(n % 10)]
  }

  /** The number a string of decimal digits denotes. */
  function DigitsValue(s: string): nat
    requires AllOf(s, IsDigit)
  {
    if s == [] then 0
    else DigitsValue(s[..|s| - 1]) * 10 + (s[|s| - 1] as int - '0' as int)
  }

  /** Reading back the decimal rendering gives the number. */
  lemma {:induction false} NatToStringRoundTrip(n: nat)
    ensures DigitsValue(NatToString(n)) == n
    decreases n
  {
    if n >= 10 {
      var s := NatToString(n);
      assert s[..|s| - 1] == NatToString(n / 10);
      NatToStringRoundTrip(n / 10);
    }
  }
}
