/** The string operations the builder relies on: Python's `str.strip()`,
    `str.lower()` on ASCII letters, the substring test `needle in hay`, and
    the decimal digits that `int()` reads. */
module Text {

  /** The characters for which Python's `str.isspace()` holds; these are the
      characters `str.strip()` removes from both ends. */
  predicate IsSpace(c: char) {
    || c == ' '
    || '\t' <= c <= '\r'
    || '\U{1C}' <= c <= '\U{1F}'
    || c == '\U{85}' || c == '\U{A0}' || c == '\U{1680}'
    || '\U{2000}' <= c <= '\U{200A}'
    || c == '\U{2028}' || c == '\U{2029}' || c == '\U{202F}' || c == '\U{205F}' || c == '\U{3000}'
  }

  predicate AllSpaces(s: string) {
    forall i :: 0 <= i < |s| ==> IsSpace(s[i])
  }

  /** A string with no whitespace at either end. */
  predicate Stripped(s: string) {
    s == [] || (!IsSpace(s[0]) && !IsSpace(s[|s| - 1]))
  }

  /** The length of the longest run of whitespace that starts `s`. */
  function LeadingSpaces(s: string): (n: nat)
    ensures n <= |s|
    ensures forall i :: 0 <= i < n ==> IsSpace(s[i])
    ensures n < |s| ==> !IsSpace(s[n])
  {
    if |s| > 0 && IsSpace(s[0]) then 1 + LeadingSpaces(s[1..]) else 0
  }

  /** The length of the longest run of whitespace that ends `s`. */
  function TrailingSpaces(s: string): (n: nat)
    ensures n <= |s|
    ensures forall i :: |s| - n <= i < |s| ==> IsSpace(s[i])
    ensures n < |s| ==> !IsSpace(s[|s| - 1 - n])
  {
    if |s| > 0 && IsSpace(s[|s| - 1]) then 1 + TrailingSpaces(s[..|s| - 1]) else 0
  }

  /** The contracts of LeadingSpaces and TrailingSpaces determine them. */
  lemma LeadingSpacesUnique(s: string, n: nat)
    requires n <= |s| && AllSpaces(s[..n])
    requires n < |s| ==> !IsSpace(s[n])
    ensures LeadingSpaces(s) == n
  {
  }

  lemma TrailingSpacesUnique(s: string, n: nat)
    requires n <= |s| && AllSpaces(s[|s| - n..])
    requires n < |s| ==> !IsSpace(s[|s| - 1 - n])
    ensures TrailingSpaces(s) == n
  {
  }

  /** Python's `s.strip()`: drop the leading whitespace, then the trailing
      whitespace of what is left. */
  function Strip(s: string): (r: string)
    ensures Stripped(r)
    ensures Stripped(s) ==> r == s
  {
    var t := s[LeadingSpaces(s)..];
    t[..|t| - TrailingSpaces(t)]
  }

  /** Surrounding whitespace, however much, does not change the result of Strip. */
  lemma {:induction false} StripPadded(pad: string, s: string, pad': string)
    requires AllSpaces(pad) && AllSpaces(pad')
    ensures Strip(pad + s + pad') == Strip(s)
  {
    if LeadingSpaces(s) == |s| {
      StripPaddedBlank(pad, s, pad');
    } else {
      StripPaddedWord(pad, s, pad');
    }
  }

  lemma {:induction false} StripPaddedBlank(pad: string, s: string, pad': string)
    requires AllSpaces(pad) && AllSpaces(pad') && LeadingSpaces(s) == |s|
    ensures Strip(pad + s + pad') == Strip(s)
  {
    assert AllSpaces(s);
    AllSpacesConcat(pad, s);
    AllSpacesConcat(pad + s, pad');
    StripAllSpaces(s);
    StripAllSpaces(pad + s + pad');
  }

  lemma {:induction false} StripPaddedWord(pad: string, s: string, pad': string)
    requires AllSpaces(pad) && AllSpaces(pad') && LeadingSpaces(s) < |s|
    ensures Strip(pad + s + pad') == Strip(s)
  {
    var w := pad + s + pad';
    assert Strip(w) == Strip(s) by {
      var l := LeadingSpaces(s);
      var n := |pad| + l;
      var t := s[l..];
      var u := t + pad';
      PaddedPrefixSpaces(pad, s, pad', l);
      assert w[n..] == u;
      assert w[n] == s[l];
      StripSkipsLeading(w, n);
      StripTrailingPadded(t, pad');
      assert Strip(w) == u[..|u| - TrailingSpaces(u)];
      assert Strip(s) == t[..|t| - TrailingSpaces(t)];
    }
  }

  /** The leading whitespace of `s` stays whitespace behind a whitespace pad. */
  lemma {:induction false} PaddedPrefixSpaces(pad: string, s: string, pad': string, l: nat)
    requires AllSpaces(pad) && l <= |s| && forall i :: 0 <= i < l ==> IsSpace(s[i])
    ensures AllSpaces((pad + s + pad')[..|pad| + l])
  {
    var w := pad + s + pad';
    var prefix := w[..|pad| + l];
    forall i | 0 <= i < |prefix| ensures IsSpace(prefix[i]) {
      if i < |pad| {
        assert w[i] == pad[i];
      } else {
        assert w[i] == s[i - |pad|];
      }
    }
  }

  /** A string of whitespace strips to the empty string. */
  lemma {:induction false} StripAllSpaces(s: string)
    requires AllSpaces(s)
    ensures Strip(s) == []
  {
    assert s[..|s|] == s;
    LeadingSpacesUnique(s, |s|);
  }

  /** Strip drops a whitespace run of length `n` that is followed by a non-space. */
  lemma {:induction false} StripSkipsLeading(w: string, n: nat)
    requires n < |w| && AllSpaces(w[..n]) && !IsSpace(w[n])
    ensures var t := w[n..]; Strip(w) == t[..|t| - TrailingSpaces(t)]
  {
    LeadingSpacesUnique(w, n);
  }

  lemma AllSpacesConcat(a: string, b: string)
    requires AllSpaces(a) && AllSpaces(b)
    ensures AllSpaces(a + b)
  {
  }

  /** Whitespace appended to a string that starts with a non-space is
      removed together with the string's own trailing whitespace. */
  lemma {:induction false} StripTrailingPadded(t: string, pad': string)
    requires |t| > 0 && !IsSpace(t[0]) && AllSpaces(pad')
    ensures var u := t + pad'; u[..|u| - TrailingSpaces(u)] == t[..|t| - TrailingSpaces(t)]
  {
    var u := t + pad';
    var n := TrailingSpaces(t);
    var k := |t| - n;
    assert k > 0;
    assert AllSpaces(t[k..]);
    assert u[k..] == t[k..] + pad';
    AllSpacesConcat(t[k..], pad');
    assert |u| - (n + |pad'|) == k;
    assert u[k - 1] == t[k - 1];
    TrailingSpacesUnique(u, n + |pad'|);
    assert u[..k] == t[..k];
  }

  /** ASCII lower-casing of one character. */
  function LowerChar(c: char): char {
    if 'A' <= c <= 'Z' then (c as int + 32) as char else c
  }

  predicate IsUpper(c: char) {
    'A' <= c <= 'Z'
  }

  /** Python's `s.lower()`, restricted to ASCII letters: no capital is left,
      every other character stays where it was, and each capital becomes the
      letter 32 code points above it. */
  function Lower(s: string): (r: string)
    ensures |r| == |s|
    ensures forall i :: 0 <= i < |r| ==> !IsUpper(r[i])
    ensures forall i :: 0 <= i < |s| && !IsUpper(s[i]) ==> r[i] == s[i]
    ensures forall i :: 0 <= i < |s| && IsUpper(s[i]) ==> r[i] as int == s[i] as int + 32
  {
    seq(|s|, i requires 0 <= i < |s| => LowerChar(s[i]))
  }

  /** A string whose every character is its own lower case is unchanged by Lower. */
  lemma LowerFixed(s: string)
    requires forall i :: 0 <= i < |s| ==> LowerChar(s[i]) == s[i]
    ensures Lower(s) == s
  {
  }

  /** Lower-casing twice is lower-casing once. */
  lemma {:induction false} LowerIdempotent(s: string)
    ensures Lower(Lower(s)) == Lower(s)
  {
    var r := Lower(s);
    assert forall i :: 0 <= i < |r| ==> Lower(r)[i] == r[i];
  }

  /** Lower-casing leaves whitespace where it was, so it commutes with Strip. */
  lemma {:induction false} StripLower(s: string)
    ensures Strip(Lower(s)) == Lower(Strip(s))
  {
    var l := LeadingSpaces(s);
    var t := s[l..];
    LowerKeepsSpaces(s);
    LowerSuffix(s, l);
    LowerKeepsSpaces(t);
    var k := |t| - TrailingSpaces(t);
    LowerPrefix(t, k);
    calc {
      Strip(Lower(s));
      Lower(s)[l..][..k];
      Lower(t)[..k];
      Lower(t[..k]);
      Lower(Strip(s));
    }
  }

  lemma LowerPrefix(s: string, k: nat)
    requires k <= |s|
    ensures Lower(s)[..k] == Lower(s[..k])
  {
  }

  lemma LowerSuffix(s: string, k: nat)
    requires k <= |s|
    ensures Lower(s)[k..] == Lower(s[k..])
  {
  }

  /** Lower-casing changes no character's whitespace status. */
  lemma {:induction false} LowerKeepsSpaces(s: string)
    ensures LeadingSpaces(Lower(s)) == LeadingSpaces(s)
    ensures TrailingSpaces(Lower(s)) == TrailingSpaces(s)
  {
    var u := Lower(s);
    var l, n := LeadingSpaces(s), TrailingSpaces(s);
    assert forall i :: 0 <= i < |s| ==> IsSpace(u[i]) == IsSpace(s[i]);
    LeadingSpacesUnique(u, l);
    TrailingSpacesUnique(u, n);
  }

  /** The normalisation `name.strip().lower()`. */
  function Normalize(s: string): string {
    Lower(Strip(s))
  }

  /** A name without surrounding whitespace is only lower-cased. */
  lemma NormalizeStripped(s: string)
    requires Stripped(s)
    ensures Normalize(s) == Lower(s)
  {
  }

  /** Normalising twice is normalising once, so the parser's own
      `strip().lower()` of an already normalised key changes nothing. */
  lemma {:induction false} NormalizeIdempotent(s: string)
    ensures Normalize(Normalize(s)) == Normalize(s)
  {
    var n := Normalize(s);
    assert Stripped(n);
    assert Lower(n) == n;
  }

  /** Normalisation ignores the ASCII case of a name and any whitespace around it. */
  lemma {:induction false} NormalizeIgnoresCaseAndPadding(name: string, other: string, pad: string, pad': string)
    requires Lower(name) == Lower(other)
    requires AllSpaces(pad) && AllSpaces(pad')
    ensures Normalize(pad + name + pad') == Normalize(other)
  {
    calc {
      Normalize(pad + name + pad');
      Lower(Strip(pad + name + pad'));
      { StripPadded(pad, name, pad'); }
      Lower(Strip(name));
      { StripLower(name); }
      Strip(Lower(name));
      Strip(Lower(other));
      { StripLower(other); }
      Lower(Strip(other));
      Normalize(other);
    }
  }

  /** Python's `needle in hay` for two strings: `needle` starts at some
      position of `hay` (the empty string is in every string). */
  predicate Contains(hay: string, needle: string) {
    exists i :: 0 <= i <= |hay| && needle <= hay[i..]
  }

  /** A needle longer than `hay` is not a substring of it. */
  lemma NotContainedLonger(hay: string, needle: string)
    requires |needle| > |hay|
    ensures !Contains(hay, needle)
  {
  }

  /** A needle holding a character that `hay` lacks is not a substring of it. */
  lemma {:induction false} NotContainsMissingChar(hay: string, needle: string, j: nat)
    requires j < |needle|
    requires forall i :: 0 <= i < |hay| ==> hay[i] != needle[j]
    ensures !Contains(hay, needle)
  {
    forall i | 0 <= i <= |hay| ensures !(needle <= hay[i..]) {
      if i + j < |hay| {
        assert hay[i..][j] == hay[i + j];
      }
    }
  }

  predicate IsDigit(c: char) {
    '0' <= c <= '9'
  }

  predicate AllDigits(s: string) {
    forall i :: 0 <= i < |s| ==> IsDigit(s[i])
  }

  function DigitValue(c: char): nat
    requires IsDigit(c)
  {
    c as int - '0' as int
  }

  function DigitChar(d: nat): (c: char)
    requires d < 10
    ensures IsDigit(c) && DigitValue(c) == d
  {
    ('0' as int + d) as char
  }

  /** The value of a string of ASCII decimal digits, as `int(s)` reads it;
      leading zeros are allowed and the length is not bounded. */
  function DecimalValue(s: string): nat
    requires AllDigits(s)
  {
    if s == [] then 0 else 10 * DecimalValue(s[..|s| - 1]) + DigitValue(s[|s| - 1])
  }

  /** The usual decimal rendering of `n`, without leading zeros. */
  function Decimal(n: nat): (s: string)
    ensures |s| > 0 && AllDigits(s)
  {
    if n < 10 then [DigitChar(n)] else Decimal(n / 10) + [DigitChar(n % 10)]
  }

  /** Reading a rendered number gives the number back. */
  lemma {:induction false} DecimalRoundTrip(n: nat)
    ensures DecimalValue(Decimal(n)) == n
  {
    if n >= 10 {
      DecimalRoundTrip(n / 10);
      var s := Decimal(n);
      assert s[..|s| - 1] == Decimal(n / 10);
    }
  }
}
