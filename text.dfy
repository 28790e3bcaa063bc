/**
 * The few Python string operations the bot relies on: `str.lower`,
 * `str.strip`, `str.replace` of one character, `str(int)`, and the
 * prefix/suffix/split helpers used to read fields back out of the
 * messages the tools produce.
 */
module Text {
  import opened Wrappers

  // ----- str.lower ---------------------------------------------------------

  /** Upper-case letters of ASCII and of Latin-1 (U+00C0..U+00DE, without the multiplication sign U+00D7). */
  predicate IsUpper(c: char) {
    ('A' <= c <= 'Z') || ('\U{C0}' <= c <= '\U{DE}' && c != '\U{D7}')
  }

  /** Lower-case letters of ASCII and Latin-1, the images of `IsUpper` under `LowerChar`. */
  predicate IsLowerImage(c: char) {
    ('a' <= c <= 'z') || ('\U{E0}' <= c <= '\U{FE}' && c != '\U{F7}')
  }

  /** One character of `str.lower`: both ranges sit 32 code points below their lower-case forms. */
  function LowerChar(c: char): (r: char)
    ensures !IsUpper(r)
    ensures IsUpper(c) ==> IsLowerImage(r) && r as int == c as int + 32
    ensures !IsUpper(c) ==> r == c
  {
    if IsUpper(c) then (c as int + 32) as char else c
  }

  /** `s.lower()`, character by character. */
  function Lower(s: string): (r: string)
    ensures |r| == |s|
    ensures forall i :: 0 <= i < |s| ==> r[i] == LowerChar(s[i])
  {
    if s == [] then [] else [LowerChar(s[0])] + Lower(s[1..])
  }

  /** A string without capitals is its own lower-case form. */
  lemma LowerNoCapitals(s: string)
    requires forall i :: 0 <= i < |s| ==> !IsUpper(s[i])
    ensures Lower(s) == s
  {
  }

  /** The ASCII capital of a lower-case ASCII letter; every other character is its own. */
  function AsciiUpper(c: char): char
  {
    if 'a' <= c <= 'z' then (c as int - 32) as char else c
  }

  lemma LowerCharIs(c: char, t: char)
    requires 'a' <= t <= 'z' || t == ' '
    ensures LowerChar(c) == t <==> c == t || c == AsciiUpper(t)
  {
  }

  /** `text` spells `phrase` letter for letter, each letter as written or in upper case. */
  predicate SpellsCaseless(text: string, phrase: string)
  {
    |text| == |phrase| && forall i :: 0 <= i < |text| ==> text[i] == phrase[i] || text[i] == AsciiUpper(phrase[i])
  }

  /**
   * A string lower-cases to a phrase of lower-case ASCII letters and spaces
   * exactly when it spells the phrase letter for letter, each letter in
   * either case.
   */
  lemma LowerEqualsPhrase(text: string, phrase: string)
    requires forall i :: 0 <= i < |phrase| ==> 'a' <= phrase[i] <= 'z' || phrase[i] == ' '
    ensures Lower(text) == phrase <==> SpellsCaseless(text, phrase)
  {
    if |text| == |phrase| {
      forall i | 0 <= i < |text| ensures LowerChar(text[i]) == phrase[i] <==> text[i] == phrase[i] || text[i] == AsciiUpper(phrase[i]) {
        LowerCharIs(text[i], phrase[i]);
      }
      if Lower(text) != phrase {
        var k :| 0 <= k < |text| && Lower(text)[k] != phrase[k];
        assert LowerChar(text[k]) != phrase[k];
      }
    }
  }

  /** `Lower` is determined character by character. */
  lemma LowerByChars(s: string, t: string)
    requires |s| == |t| && forall i :: 0 <= i < |s| ==> LowerChar(s[i]) == t[i]
    ensures Lower(s) == t
  {
  }

  /** Lower-casing twice is lower-casing once. */
  lemma LowerIdempotent(s: string)
    ensures Lower(Lower(s)) == Lower(s)
  {
  }

  // ----- str.strip ---------------------------------------------------------

  /** Python's `str.isspace`: the characters `str.strip()` removes when given no argument. */
  predicate IsSpace(c: char) {
    c == ' ' || ('\t' <= c <= '\r') || ('\U{1C}' <= c <= '\U{1F}')
    || c == '\U{85}' || c == '\U{A0}' || c == '\U{1680}'
    || ('\U{2000}' <= c <= '\U{200A}') || c == '\U{2028}' || c == '\U{2029}'
    || c == '\U{202F}' || c == '\U{205F}' || c == '\U{3000}'
  }

  /** `s.lstrip()`: what is dropped is all white space, and what is kept does not start with white space. */
  function TrimLeft(s: string): (r: string)
    ensures |r| <= |s| && r == s[|s| - |r|..]
    ensures forall i :: 0 <= i < |s| - |r| ==> IsSpace(s[i])
    ensures |r| > 0 ==> !IsSpace(r[0])
  {
    if |s| > 0 && IsSpace(s[0]) then TrimLeft(s[1..]) else s
  }

  /** `s.rstrip()`: what is dropped is all white space, and what is kept does not end with white space. */
  function TrimRight(s: string): (r: string)
    ensures |r| <= |s| && r == s[..|r|]
    ensures forall i :: |r| <= i < |s| ==> IsSpace(s[i])
    ensures |r| > 0 ==> !IsSpace(r[|r| - 1])
  {
    if |s| > 0 && IsSpace(s[|s| - 1]) then TrimRight(s[..|s| - 1]) else s
  }

  /** `s.strip()`: neither end of the result is white space. */
  function Strip(s: string): (r: string)
    ensures |r| <= |s|
    ensures |r| > 0 ==> !IsSpace(r[0]) && !IsSpace(r[|r| - 1])
  {
    TrimRight(TrimLeft(s))
  }

  /** A string without capitals keeps none after `strip()`. */
  lemma StripNoCapitals(s: string)
    requires forall i :: 0 <= i < |s| ==> !IsUpper(s[i])
    ensures forall i :: 0 <= i < |Strip(s)| ==> !IsUpper(Strip(s)[i])
  {
    var l := TrimLeft(s);
    forall i | 0 <= i < |l| ensures !IsUpper(l[i]) {
      assert l[i] == s[|s| - |l| + i];
    }
    var r := TrimRight(l);
    forall i | 0 <= i < |r| ensures !IsUpper(r[i]) {
      assert r[i] == l[i];
    }
  }

  predicate AllSpace(w: string) {
    forall i :: 0 <= i < |w| ==> IsSpace(w[i])
  }

  lemma {:induction false} TrimLeftOf(w: string, t: string)
    requires AllSpace(w)
    requires |t| > 0 ==> !IsSpace(t[0])
    ensures TrimLeft(w + t) == t
  {
    if w != [] {
      assert (w + t)[1..] == w[1..] + t;
      TrimLeftOf(w[1..], t);
    }
  }

  lemma {:induction false} TrimRightOf(t: string, w: string)
    requires AllSpace(w)
    requires |t| > 0 ==> !IsSpace(t[|t| - 1])
    ensures TrimRight(t + w) == t
  {
    if w != [] {
      assert (t + w)[..|t + w| - 1] == t + w[..|w| - 1];
      TrimRightOf(t, w[..|w| - 1]);
    }
  }

  /** `strip()` returns exactly the core of a string padded with white space on both sides. */
  lemma StripOf(w1: string, core: string, w2: string)
    requires AllSpace(w1) && AllSpace(w2)
    requires |core| > 0 ==> !IsSpace(core[0]) && !IsSpace(core[|core| - 1])
    ensures Strip(w1 + core + w2) == core
  {
    if core == [] {
      assert w1 + core + w2 == (w1 + w2) + [];
      TrimLeftOf(w1 + w2, []);
    } else {
      assert w1 + core + w2 == w1 + (core + w2);
      TrimLeftOf(w1, core + w2);
      TrimRightOf(core, w2);
    }
  }

  /** A string that neither starts nor ends with white space is its own `strip()`. */
  lemma StripTrimmed(s: string)
    requires |s| > 0 ==> !IsSpace(s[0]) && !IsSpace(s[|s| - 1])
    ensures Strip(s) == s
  {
    StripOf([], s, []);
    assert [] + s + [] == s;
  }

  // ----- str.replace of one character by another ---------------------------

  /** `s.replace(a, b)` for single characters `a` and `b`. */
  function ReplaceChar(s: string, a: char, b: char): (r: string)
    ensures |r| == |s|
    ensures forall i :: 0 <= i < |s| ==> r[i] == (if s[i] == a then b else s[i])
  {
    if s == [] then [] else [if s[0] == a then b else s[0]] + ReplaceChar(s[1..], a, b)
  }

  /** Replacing a character that does not occur changes nothing. */
  lemma ReplaceAbsent(s: string, a: char, b: char)
    requires a !in s
    ensures ReplaceChar(s, a, b) == s
  {
  }

  // ----- str(int) and its decoder ------------------------------------------

  predicate IsDigit(c: char) {
    '0' <= c <= '9'
  }

  predicate AllDigits(s: string) {
    forall i :: 0 <= i < |s| ==> IsDigit(s[i])
  }

  function DigitChar(d: nat): (c: char)
    requires d < 10
    ensures IsDigit(c) && c as int - '0' as int == d
  {
    (d + '0' as int) as char
  }

  /** The decimal digits of `n`, most significant first, with no leading zero. */
  function NatToDecimal(n: nat): (r: string)
    ensures |r| > 0 && AllDigits(r)
    ensures |r| > 1 ==> r[0] != '0'
    decreases n
  {
    if n < 10 then [DigitChar(n)] else NatToDecimal(n / 10) + [DigitChar(n % 10)]
  }

  /** Python's `str(i)` for an integer: a minus sign for negative values, then the digits. */
  function IntToDecimal(i: int): (r: string)
    ensures |r| > 0
    ensures forall k :: 0 <= k < |r| ==> IsDigit(r[k]) || r[k] == '-'
  {
    if i < 0 then "-" + NatToDecimal(-i) else NatToDecimal(i)
  }

  /** The number a string of decimal digits denotes. */
  function DecimalValue(s: string): nat
    requires AllDigits(s)
  {
    if s == [] then 0 else DecimalValue(s[..|s| - 1]) * 10 + (s[|s| - 1] as int - '0' as int)
  }

  /** Reads an optionally negative decimal integer; `None` for anything else. */
  function ParseInt(s: string): Option<int>
  {
    if |s| > 0 && s[0] == '-' then
      if |s| > 1 && AllDigits(s[1..]) then (var v: int := DecimalValue(s[1..]); Some(-v)) else None
    else if |s| > 0 && AllDigits(s) then Some(DecimalValue(s))
    else None
  }

  lemma {:induction false} DecimalRoundTrip(n: nat)
    ensures DecimalValue(NatToDecimal(n)) == n
    decreases n
  {
    if n >= 10 {
      var s := NatToDecimal(n);
      DecimalRoundTrip(n / 10);
      assert s[..|s| - 1] == NatToDecimal(n / 10);
    }
  }

  /** Reading back what `str(i)` wrote gives `i`. */
  lemma ParseIntRoundTrip(i: int)
    ensures ParseInt(IntToDecimal(i)) == Some(i)
  {
    if i < 0 {
      DecimalRoundTrip(-i);
      assert IntToDecimal(i)[1..] == NatToDecimal(-i);
    } else {
      DecimalRoundTrip(i);
    }
  }

  /**
   * `str(i)` never pads: a text such as "007", "00" or "-0" is the decimal
   * text of no integer, although it reads as one.
   */
  lemma NoPaddedDecimal(i: int, pad: string)
    requires (|pad| > 1 && pad[0] == '0') || pad == "-0"
    ensures IntToDecimal(i) != pad
  {
    if i < 0 {
      var digits := NatToDecimal(-i);
      if -i < 10 {
        assert digits[0] == DigitChar(-i) != '0';
      }
      assert digits != "0";
      assert IntToDecimal(i)[1..] == digits;
    }
  }

  /** Two integers print the same only if they are equal. */
  lemma IntToDecimalInjective(a: int, b: int)
    requires IntToDecimal(a) == IntToDecimal(b)
    ensures a == b
  {
    ParseIntRoundTrip(a);
    ParseIntRoundTrip(b);
  }

  /** Decimal text never contains a separator the message templates rely on. */
  lemma DecimalHasNoSeparator(i: int, c: char)
    requires !IsDigit(c) && c != '-'
    ensures c !in IntToDecimal(i)
  {
  }

  // ----- prefixes, suffixes, splitting -------------------------------------

  function RemovePrefix(s: string, p: string): (r: Option<string>)
    ensures r.Some? <==> p <= s
    ensures r.Some? ==> s == p + r.value
  {
    if p <= s then Some(s[|p|..]) else None
  }

  function RemoveSuffix(s: string, p: string): (r: Option<string>)
    ensures r.Some? <==> |p| <= |s| && s[|s| - |p|..] == p
    ensures r.Some? ==> s == r.value + p
  {
    if |p| <= |s| && s[|s| - |p|..] == p then Some(s[..|s| - |p|]) else None
  }

  /** Splits at the first `c`: the left part holds no `c`. */
  function SplitAtFirst(s: string, c: char): (r: Option<(string, string)>)
    ensures r.Some? <==> c in s
    ensures r.Some? ==> s == r.value.0 + [c] + r.value.1 && c !in r.value.0
  {
    if s == [] then None
    else if s[0] == c then Some(([], s[1..]))
    else
      match SplitAtFirst(s[1..], c)
      case None => None
      case Some(p) => Some(([s[0]] + p.0, p.1))
  }

  /** Splits at the last `c`: the right part holds no `c`. */
  function SplitAtLast(s: string, c: char): (r: Option<(string, string)>)
    ensures r.Some? <==> c in s
    ensures r.Some? ==> s == r.value.0 + [c] + r.value.1 && c !in r.value.1
  {
    if s == [] then None
    else if s[|s| - 1] == c then Some((s[..|s| - 1], []))
    else
      match SplitAtLast(s[..|s| - 1], c)
      case None => None
      case Some(p) => Some((p.0, p.1 + [s[|s| - 1]]))
  }

  /** Splitting at the first separator recovers the pieces when the left one holds none. */
  lemma {:induction false} SplitAtFirstOf(a: string, c: char, b: string)
    requires c !in a
    ensures SplitAtFirst(a + [c] + b, c) == Some((a, b))
  {
    var s := a + [c] + b;
    if a == [] {
      assert s[1..] == b;
    } else {
      assert s[1..] == a[1..] + [c] + b;
      SplitAtFirstOf(a[1..], c, b);
      assert [s[0]] + a[1..] == a;
    }
  }

  /** Splitting at the last separator recovers the pieces when the right one holds none. */
  lemma {:induction false} SplitAtLastOf(a: string, c: char, b: string)
    requires c !in b
    ensures SplitAtLast(a + [c] + b, c) == Some((a, b))
  {
    var s := a + [c] + b;
    if b == [] {
      assert s[..|s| - 1] == a;
    } else {
      assert s[..|s| - 1] == a + [c] + b[..|b| - 1];
      SplitAtLastOf(a, c, b[..|b| - 1]);
      assert b[..|b| - 1] + [s[|s| - 1]] == b;
    }
  }
}
