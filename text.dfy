/** String helpers the pages use: JavaScript's `\s` class, digit filtering, case mapping,
    substring search, `slice(-n)`, and the decimal conversions `String(n)` and `parseInt`. */
module Text {
  import opened Types
  import opened Lists

  // ---------------------------------------------------------------------------
  // Character classes

  /** The characters matched by `\s` in a JavaScript regular expression. */
  predicate IsWhitespace(c: char) {
    c == ' ' || c == '\t' || c == '\n' || c == '\r' || c == '\U{000B}' || c == '\U{000C}'
    || c == '\U{00A0}' || c == '\U{1680}' || ('\U{2000}' <= c <= '\U{200A}')
    || c == '\U{2028}' || c == '\U{2029}' || c == '\U{202F}' || c == '\U{205F}'
    || c == '\U{3000}' || c == '\U{FEFF}'
  }

  /** The characters of `[0-9]`. */
  predicate IsDigit(c: char) {
    '0' <= c <= '9'
  }

  predicate AllDigits(s: string) {
    forall i :: 0 <= i < |s| ==> IsDigit(s[i])
  }

  // ---------------------------------------------------------------------------
  // Removing characters

  /** `s.replace(/\s/g, '')` (and `/\s+/g`, which removes the same characters). */
  function StripWhitespace(s: string): (r: string)
    ensures |r| <= |s|
    ensures forall i :: 0 <= i < |r| ==> !IsWhitespace(r[i])
  {
    if s == [] then []
    else if IsWhitespace(s[0]) then StripWhitespace(s[1..])
    else [s[0]] + StripWhitespace(s[1..])
  }

  /** Removing whitespace keeps every other character, as often as it occurs, in order. */
  lemma {:induction false} StripWhitespaceKeepsTheRest(s: string)
    ensures forall c :: multiset(StripWhitespace(s))[c] == if IsWhitespace(c) then 0 else multiset(s)[c]
    ensures IsSubsequence(StripWhitespace(s), s)
  {
    if s != [] {
      StripWhitespaceKeepsTheRest(s[1..]);
      assert s == [s[0]] + s[1..];
      var rest := StripWhitespace(s[1..]);
      if !IsWhitespace(s[0]) {
        assert ([s[0]] + rest)[1..] == rest;
      }
    }
  }

  /** `s.replace(/[^0-9]/gi, '')`: only the decimal digits of `s`, in order. */
  function KeepDigits(s: string): (r: string)
    ensures |r| <= |s|
    ensures AllDigits(r)
  {
    if s == [] then []
    else if IsDigit(s[0]) then [s[0]] + KeepDigits(s[1..])
    else KeepDigits(s[1..])
  }

  /** Filtering for digits keeps every digit, as often as it occurs, in order. */
  lemma {:induction false} KeepDigitsKeepsDigits(s: string)
    ensures forall c :: multiset(KeepDigits(s))[c] == if IsDigit(c) then multiset(s)[c] else 0
    ensures IsSubsequence(KeepDigits(s), s)
  {
    if s != [] {
      KeepDigitsKeepsDigits(s[1..]);
      assert s == [s[0]] + s[1..];
      var rest := KeepDigits(s[1..]);
      if IsDigit(s[0]) {
        assert ([s[0]] + rest)[1..] == rest;
      }
    }
  }

  /** The digits the checkout form extracts from a typed value: whitespace removed, then every
      other non-digit. */
  function Digits(s: string): string {
    KeepDigits(StripWhitespace(s))
  }

  lemma {:induction false} StripWhitespaceAppend(a: string, b: string)
    ensures StripWhitespace(a + b) == StripWhitespace(a) + StripWhitespace(b)
  {
    if a == [] {
      assert a + b == b;
    } else {
      assert (a + b)[0] == a[0];
      assert (a + b)[1..] == a[1..] + b;
      StripWhitespaceAppend(a[1..], b);
    }
  }

  lemma {:induction false} KeepDigitsAppend(a: string, b: string)
    ensures KeepDigits(a + b) == KeepDigits(a) + KeepDigits(b)
  {
    if a == [] {
      assert a + b == b;
    } else {
      assert (a + b)[0] == a[0];
      assert (a + b)[1..] == a[1..] + b;
      KeepDigitsAppend(a[1..], b);
    }
  }

  /** A string of digits passes through both filters unchanged. */
  lemma {:induction false} DigitsOfDigits(s: string)
    requires AllDigits(s)
    ensures StripWhitespace(s) == s && KeepDigits(s) == s && Digits(s) == s
  {
    if s != [] {
      DigitsOfDigits(s[1..]);
    }
  }

  /** Removing whitespace first does not change which digits are kept. */
  lemma {:induction false} DigitsIgnoresWhitespace(s: string)
    ensures Digits(s) == KeepDigits(s)
  {
    if s != [] {
      DigitsIgnoresWhitespace(s[1..]);
    }
  }

  // ---------------------------------------------------------------------------
  // Case mapping (ASCII letters)

  function LowerChar(c: char): char {
    if 'A' <= c <= 'Z' then (c as int + 32) as char else c
  }

  function UpperChar(c: char): char {
    if 'a' <= c <= 'z' then (c as int - 32) as char else c
  }

  /** `s.toLowerCase()`, on ASCII letters. */
  function Lower(s: string): (r: string)
    ensures |r| == |s| && forall i :: 0 <= i < |s| ==> r[i] == LowerChar(s[i])
  {
    seq(|s|, i requires 0 <= i < |s| => LowerChar(s[i]))
  }

  /** `s.toUpperCase()`, on ASCII letters. */
  function Upper(s: string): (r: string)
    ensures |r| == |s| && forall i :: 0 <= i < |s| ==> r[i] == UpperChar(s[i])
  {
    seq(|s|, i requires 0 <= i < |s| => UpperChar(s[i]))
  }

  // ---------------------------------------------------------------------------
  // Substring search

  /** `h.includes(n)`. */
  function Contains(h: string, n: string): bool {
    if n <= h then true
    else if h == [] then false
    else Contains(h[1..], n)
  }

  /** `n` occurs in `h` starting at offset `i`. */
  predicate OccursAt(h: string, n: string, i: nat) {
    i + |n| <= |h| && h[i..i + |n|] == n
  }

  /** `includes` holds exactly when the needle occurs at some offset of the haystack. */
  lemma {:induction false} ContainsIff(h: string, n: string)
    ensures Contains(h, n) <==> exists i: nat :: OccursAt(h, n, i)
  {
    if n <= h {
      assert OccursAt(h, n, 0);
    } else if h == [] {
    } else {
      ContainsIff(h[1..], n);
      if Contains(h[1..], n) {
        var i: nat :| OccursAt(h[1..], n, i);
        assert h[1..][i..i + |n|] == h[i + 1..i + 1 + |n|];
        assert OccursAt(h, n, i + 1);
      } else {
        forall i: nat | i + |n| <= |h|
          ensures !OccursAt(h, n, i)
        {
          if i == 0 {
            assert h[0..0 + |n|] == h[..|n|];
          } else {
            SliceOfTail(h, i, |n|);
            assert !OccursAt(h[1..], n, i - 1);
          }
        }
      }
    }
  }

  lemma SliceOfTail(h: string, i: nat, len: nat)
    requires 1 <= i && i + len <= |h|
    ensures h[i..i + len] == h[1..][i - 1..i - 1 + len]
  {
  }

  /** The case-insensitive search the admin tables apply to one field:
      `text.toLowerCase().includes(search.toLowerCase())`. */
  function MatchesSearch(text: string, search: string): bool {
    Contains(Lower(text), Lower(search))
  }

  /** An empty search string matches every field. */
  lemma EmptySearchMatches(text: string)
    ensures MatchesSearch(text, "")
  {
  }

  // ---------------------------------------------------------------------------
  // Length

  /** `s.length` in JavaScript, which counts UTF-16 code units: one for a character of the Basic
      Multilingual Plane, two (a surrogate pair) for any other. */
  function Utf16Length(s: string): (n: nat)
    ensures |s| <= n <= 2 * |s|
    ensures n == |s| <==> forall i :: 0 <= i < |s| ==> s[i] as int <= 0xFFFF
  {
    if s == [] then 0
    else (if s[0] as int <= 0xFFFF then 1 else 2) + Utf16Length(s[1..])
  }

  /** Code units add up over concatenation. */
  lemma {:induction false} Utf16LengthAppend(a: string, b: string)
    ensures Utf16Length(a + b) == Utf16Length(a) + Utf16Length(b)
  {
    if a == [] {
      assert a + b == b;
    } else {
      assert (a + b)[1..] == a[1..] + b;
      Utf16LengthAppend(a[1..], b);
    }
  }

  // ---------------------------------------------------------------------------
  // Short identifiers

  /** `s.slice(-n)` for a positive `n`: the last `n` characters, or all of `s` when it is shorter. */
  function TakeLast(s: string, n: nat): string
    requires n > 0
  {
    if |s| <= n then s else s[|s| - n..]
  }

  /** `id.slice(-n).toUpperCase()`, the short form of an identifier the admin tables display. */
  function ShortId(id: string, n: nat): (r: string)
    requires n > 0
    ensures |r| == if |id| <= n then |id| else n
    ensures forall i :: 0 <= i < |r| ==> r[i] == UpperChar(id[|id| - |r| + i])
  {
    Upper(TakeLast(id, n))
  }

  /** A shorter short id is the tail of a longer one. */
  lemma ShortIdSuffix(id: string, m: nat, n: nat)
    requires 0 < m <= n
    ensures ShortId(id, m) <= ShortId(id, n)[|ShortId(id, n)| - |ShortId(id, m)|..]
  {
    var a, b := ShortId(id, m), ShortId(id, n);
    assert a == b[|b| - |a|..];
  }

  // ---------------------------------------------------------------------------
  // Decimal printing: `String(n)` for an integer

  function DigitChar(d: nat): char
    requires d < 10
  {
    ('0' as int + d) as char
  }

  function NatToString(n: nat): (r: string)
    ensures |r| >= 1
    ensures AllDigits(r)
  {
    if n < 10 then [DigitChar(n)] else NatToString(n / 10) + [DigitChar(n % 10)]
  }

  /** `String(n)`. */
  function IntToString(n: int): string {
    if n < 0 then "-" + NatToString(-n) else NatToString(n)
  }

  // ---------------------------------------------------------------------------
  // Parsing: `parseInt(s)` with no radix argument

  /** The value of a digit character in bases up to 16, or 16 for any other character. */
  function DigitValue(c: char): nat {
    if '0' <= c <= '9' then c as int - '0' as int
    else if 'a' <= c <= 'f' then c as int - 'a' as int + 10
    else if 'A' <= c <= 'F' then c as int - 'A' as int + 10
    else 16
  }

  /** The longest prefix of `s` made of digits of the given radix. */
  function DigitPrefix(s: string, radix: nat): (r: string)
    ensures r <= s
    ensures forall i :: 0 <= i < |r| ==> DigitValue(r[i]) < radix
    ensures |r| < |s| ==> DigitValue(s[|r|]) >= radix
  {
    if s == [] || DigitValue(s[0]) >= radix then [] else [s[0]] + DigitPrefix(s[1..], radix)
  }

  /** The number written by `ds` in the given radix, most significant digit first. */
  function ValueOf(ds: string, radix: nat): nat {
    if ds == [] then 0
    else ValueOf(ds[..|ds| - 1], radix) * radix
         + (if DigitValue(ds[|ds| - 1]) < radix then DigitValue(ds[|ds| - 1]) else 0)
  }

  function SkipWhitespace(s: string): (r: string)
    ensures |r| <= |s| && r == s[|s| - |r|..]
    ensures r != [] ==> !IsWhitespace(r[0])
  {
    if s != [] && IsWhitespace(s[0]) then SkipWhitespace(s[1..]) else s
  }

  /** The digits after an optional sign: a `0x`/`0X` prefix switches to base 16; the result is
      `None` (NaN) when no digit follows. */
  function ParseUnsigned(u: string): (r: Option<int>)
    ensures r.Some? ==> r.value >= 0
  {
    if |u| >= 2 && u[0] == '0' && (u[1] == 'x' || u[1] == 'X') then
      var ds := DigitPrefix(u[2..], 16);
      if ds == [] then None else Some(ValueOf(ds, 16))
    else
      var ds := DigitPrefix(u, 10);
      if ds == [] then None else Some(ValueOf(ds, 10))
  }

  /** `parseInt(s)`: leading whitespace is skipped, one sign is accepted, and the longest run of
      digits that follows is read; `None` stands for NaN. */
  function ParseInt(s: string): Option<int> {
    var t := SkipWhitespace(s);
    if t != [] && t[0] == '-' then
      match ParseUnsigned(t[1..])
      case None => None
      case Some(v) => Some(-v)
    else if t != [] && t[0] == '+' then
      match ParseUnsigned(t[1..])
      case None => None
      case Some(v) => Some(v)
    else
      match ParseUnsigned(t)
      case None => None
      case Some(v) => Some(v)
  }

  lemma {:induction false} DigitPrefixOfDigits(s: string)
    requires AllDigits(s)
    ensures DigitPrefix(s, 10) == s
  {
    if s != [] {
      DigitPrefixOfDigits(s[1..]);
    }
  }

  lemma {:induction false} ValueOfNatToString(n: nat)
    ensures ValueOf(NatToString(n), 10) == n
  {
    if n >= 10 {
      var s := NatToString(n);
      assert s[..|s| - 1] == NatToString(n / 10);
      ValueOfNatToString(n / 10);
    }
  }

  /** A string of decimal digits parses to the number it writes. */
  lemma {:induction false} ParseDigits(ds: string)
    requires ds != [] && AllDigits(ds)
    ensures ParseInt(ds) == Some(ValueOf(ds, 10))
  {
    assert !IsWhitespace(ds[0]);
    assert SkipWhitespace(ds) == ds;
    assert ds[0] != '-' && ds[0] != '+';
    assert !(|ds| >= 2 && ds[0] == '0' && (ds[1] == 'x' || ds[1] == 'X'));
    DigitPrefixOfDigits(ds);
    assert ParseUnsigned(ds) == Some(ValueOf(ds, 10));
  }

  /** A minus sign followed by decimal digits parses to the negated number. */
  lemma {:induction false} ParseNegatedDigits(ds: string)
    requires ds != [] && AllDigits(ds)
    ensures ParseInt("-" + ds) == Some(-(ValueOf(ds, 10) as int))
  {
    var s := "-" + ds;
    assert s[0] == '-';
    assert SkipWhitespace(s) == s;
    assert s[1..] == ds;
    assert IsDigit(ds[0]);
    assert !(|ds| >= 2 && ds[0] == '0' && (ds[1] == 'x' || ds[1] == 'X'));
    DigitPrefixOfDigits(ds);
    assert ParseUnsigned(ds) == Some(ValueOf(ds, 10));
  }

  /** `parseInt(String(n)) === n` for every integer `n`. */
  lemma {:induction false} ParseIntToString(n: int)
    ensures ParseInt(IntToString(n)) == Some(n)
  {
    if n < 0 {
      var ds := NatToString(-n);
      assert IntToString(n) == "-" + ds;
      ValueOfNatToString(-n);
      assert ValueOf(ds, 10) == -n;
      ParseNegatedDigits(ds);
      assert ParseInt("-" + ds) == Some(n);
    } else {
      var ds := NatToString(n);
      assert IntToString(n) == ds;
      ValueOfNatToString(n);
      ParseDigits(ds);
      assert ParseInt(ds) == Some(n);
    }
  }

  // ---------------------------------------------------------------------------
  // Prices: `String(price)` and `parseFloat` for amounts held in whole cents

  /** The fraction part `String` prints for `f` hundredths: nothing for a whole amount, and no
      trailing zero. */
  function FractionText(f: nat): (r: string)
    requires f < 100
    ensures r == [] || (r[0] == '.' && AllDigits(r[1..]) && 2 <= |r| <= 3)
  {
    if f == 0 then ""
    else if f % 10 == 0 then ['.', DigitChar(f / 10)]
    else ['.', DigitChar(f / 10), DigitChar(f % 10)]
  }

  function UnsignedCentsText(c: nat): string {
    NatToString(c / 100) + FractionText(c % 100)
  }

  /** `String(c / 100)`: the shortest decimal text of an amount of `c` cents. */
  function CentsText(c: int): string {
    if c < 0 then "-" + UnsignedCentsText(-c) else UnsignedCentsText(c)
  }

  /** The cents written by the first two digits after the decimal point. */
  function FractionCents(fs: string): nat {
    (if |fs| >= 1 && DigitValue(fs[0]) < 10 then DigitValue(fs[0]) * 10 else 0)
    + (if |fs| >= 2 && DigitValue(fs[1]) < 10 then DigitValue(fs[1]) else 0)
  }

  /** Integer digits, then an optional `.` and fraction digits; `None` when neither part has a
      digit. */
  function ParseUnsignedCents(u: string): (r: Option<int>)
    ensures r.Some? ==> r.value >= 0
  {
    var ds := DigitPrefix(u, 10);
    var rest := u[|ds|..];
    var fs := if rest != [] && rest[0] == '.' then DigitPrefix(rest[1..], 10) else [];
    if ds == [] && fs == [] then None else Some(ValueOf(ds, 10) * 100 + FractionCents(fs))
  }

  /** `parseFloat(s)` in whole cents: leading whitespace is skipped, one sign is accepted, and the
      longest decimal number that follows is read, fraction digits past the second dropped;
      `None` stands for NaN. */
  function ParseCents(s: string): Option<int> {
    var t := SkipWhitespace(s);
    if t != [] && t[0] == '-' then
      match ParseUnsignedCents(t[1..])
      case None => None
      case Some(v) => Some(-v)
    else if t != [] && t[0] == '+' then
      ParseUnsignedCents(t[1..])
    else
      ParseUnsignedCents(t)
  }

  /** The digit prefix of digits followed by a non-digit is those digits. */
  lemma {:induction false} DigitPrefixStops(ds: string, rest: string)
    requires AllDigits(ds) && (rest == [] || DigitValue(rest[0]) >= 10)
    ensures DigitPrefix(ds + rest, 10) == ds
  {
    if ds == [] {
      assert ds + rest == rest;
    } else {
      assert (ds + rest)[0] == ds[0];
      assert (ds + rest)[1..] == ds[1..] + rest;
      DigitPrefixStops(ds[1..], rest);
    }
  }

  lemma FractionOfText(f: nat)
    requires f < 100
    ensures var r := FractionText(f);
            r == [] || FractionCents(DigitPrefix(r[1..], 10)) == f
  {
    var r := FractionText(f);
    if r != [] {
      DigitPrefixOfDigits(r[1..]);
    }
  }

  lemma UnsignedCentsRoundTrip(c: nat)
    ensures ParseUnsignedCents(UnsignedCentsText(c)) == Some(c)
  {
    var ds, fr := NatToString(c / 100), FractionText(c % 100);
    var u := ds + fr;
    assert fr == [] || DigitValue(fr[0]) >= 10;
    DigitPrefixStops(ds, fr);
    assert u[|ds|..] == fr;
    FractionOfText(c % 100);
    ValueOfNatToString(c / 100);
  }

  /** Text starting with a digit is read without a sign. */
  lemma ParseCentsOfDigitLed(u: string)
    requires u != [] && IsDigit(u[0])
    ensures ParseCents(u) == ParseUnsignedCents(u)
  {
    assert SkipWhitespace(u) == u;
  }

  /** A minus sign before text starting with a digit negates it. */
  lemma ParseCentsOfNegated(u: string, v: int)
    requires u != [] && IsDigit(u[0]) && ParseUnsignedCents(u) == Some(v)
    ensures ParseCents("-" + u) == Some(-v)
  {
    var s := "-" + u;
    assert s[0] == '-' && s[1..] == u;
    assert SkipWhitespace(s) == s;
  }

  /** `parseFloat(String(price))` gives back the price, for every amount in cents. */
  lemma CentsTextRoundTrip(c: int)
    ensures ParseCents(CentsText(c)) == Some(c)
  {
    var m: nat := if c < 0 then -c else c;
    var u := UnsignedCentsText(m);
    assert u[0] == NatToString(m / 100)[0];
    UnsignedCentsRoundTrip(m);
    if c < 0 {
      ParseCentsOfNegated(u, m);
    } else {
      ParseCentsOfDigitLed(u);
    }
  }
}
