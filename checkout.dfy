/** The checkout form of the cart page: card-number and expiry formatting, card-brand detection,
    the ordered validation of the payment form, and the step machine
    cart -> payment -> processing -> success (or back to payment when the order is refused). */
module Checkout {
  import opened Types
  import opened Text

  // ===========================================================================
  // Card brand

  datatype CardType = Visa | Mastercard | Amex | Unknown

  /** The brand a leading character suggests: 4 Visa, 5 Mastercard, 3 American Express. */
  function BrandOf(c: char): CardType {
    if c == '4' then Visa else if c == '5' then Mastercard else if c == '3' then Amex else Unknown
  }

  /** `detectCardType`: whitespace is removed and the first remaining character decides. */
  function DetectCardType(number: string): CardType {
    var clean := StripWhitespace(number);
    if clean == [] then Unknown else BrandOf(clean[0])
  }

  /** The brand is read from the first character that is not whitespace; a value made only of
      whitespace has no brand. */
  lemma {:induction false} DetectCardTypeReadsFirstNonWhitespace(number: string, i: nat)
    requires i <= |number|
    requires forall j :: 0 <= j < i ==> IsWhitespace(number[j])
    ensures i == |number| ==> DetectCardType(number) == Unknown
    ensures i < |number| && !IsWhitespace(number[i]) ==> DetectCardType(number) == BrandOf(number[i])
  {
    if i > 0 {
      assert IsWhitespace(number[0]);
      assert StripWhitespace(number) == StripWhitespace(number[1..]);
      DetectCardTypeReadsFirstNonWhitespace(number[1..], i - 1);
    } else if number != [] && !IsWhitespace(number[0]) {
      assert StripWhitespace(number)[0] == number[0];
    }
  }

  // ===========================================================================
  // Card number formatting

  const MaxCardDigits: nat := 16

  function Min(a: int, b: int): int {
    if a <= b then a else b
  }

  /** `v.match(/\d{4,16}/g)[0]` on a string of digits: its first 16 digits, or nothing when it
      holds fewer than 4. */
  function CardRun(v: string): (m: string)
    requires AllDigits(v)
    ensures |m| == if |v| < 4 then 0 else Min(MaxCardDigits, |v|)
    ensures m <= v && AllDigits(m)
  {
    if |v| < 4 then [] else v[..Min(MaxCardDigits, |v|)]
  }

  /** `match.substring(i, i + 4)` for i = 0, 4, 8, ... */
  function Chunks(m: string): (parts: seq<string>)
    ensures |parts| == 0 <==> m == []
  {
    if m == [] then []
    else if |m| <= 4 then [m]
    else [m[..4]] + Chunks(m[4..])
  }

  /** `parts.join(' ')`. */
  function JoinWithSpaces(parts: seq<string>): string {
    if parts == [] then []
    else if |parts| == 1 then parts[0]
    else parts[0] + " " + JoinWithSpaces(parts[1..])
  }

  /** `formatCardNumber(value)`: the first 16 digits in groups of four, or the typed value itself
      when it holds fewer than four digits. */
  function FormattedCardNumber(value: string): string {
    var parts := Chunks(CardRun(Digits(value)));
    if |parts| > 0 then JoinWithSpaces(parts) else value
  }

  /** The loop that cuts the matched digits into groups of four. */
  method SplitIntoFours(m: string) returns (parts: seq<string>)
    ensures parts == Chunks(m)
  {
    parts := [];
    var i := 0;
    while i < |m|
      invariant 0 <= i && i % 4 == 0
      invariant i <= |m| || m == [] || i < |m| + 4
      invariant parts + Chunks(m[Min(i, |m|)..]) == Chunks(m)
    {
      var rest := m[i..];
      if |rest| > 4 {
        assert rest[..4] == m[i..i + 4] && rest[4..] == m[i + 4..];
        assert Chunks(rest) == [rest[..4]] + Chunks(rest[4..]);
      } else {
        assert m[i..Min(i + 4, |m|)] == rest;
        assert m[Min(i + 4, |m|)..] == [];
        assert Chunks(rest) == [rest];
      }
      assert Chunks(rest) == [m[i..Min(i + 4, |m|)]] + Chunks(m[Min(i + 4, |m|)..]);
      parts := parts + [m[i..Min(i + 4, |m|)]];
      i := i + 4;
    }
  }

  /** The groups concatenate back to the matched digits; every group has four characters
      except the last, which has one to four. */
  lemma {:induction false} ChunksShape(m: string)
    ensures Concat(Chunks(m)) == m
    ensures forall k :: 0 <= k < |Chunks(m)| - 1 ==> |Chunks(m)[k]| == 4
    ensures m != [] ==> 1 <= |Chunks(m)[|Chunks(m)| - 1]| <= 4
  {
    if |m| > 4 {
      ChunksShape(m[4..]);
      assert m == m[..4] + m[4..];
    }
  }

  function Concat(parts: seq<string>): string {
    if parts == [] then [] else parts[0] + Concat(parts[1..])
  }

  /** The grouped text of more than four digits is the first group, a space, and the grouped
      text of the rest. */
  lemma GroupedHead(m: string)
    requires |m| > 4
    ensures JoinWithSpaces(Chunks(m)) == m[..4] + " " + JoinWithSpaces(Chunks(m[4..]))
  {
    var parts := [m[..4]] + Chunks(m[4..]);
    assert Chunks(m) == parts && |parts| >= 2;
    assert parts[1..] == Chunks(m[4..]);
  }

  lemma {:induction false} GroupedLength(m: string)
    requires m != []
    ensures |JoinWithSpaces(Chunks(m))| == |m| + (|m| - 1) / 4
  {
    if |m| > 4 {
      GroupedLength(m[4..]);
      GroupedHead(m);
    }
  }

  lemma {:induction false} GroupedAt(m: string, i: nat)
    requires m != [] && i < |JoinWithSpaces(Chunks(m))|
    ensures if i % 5 == 4 then JoinWithSpaces(Chunks(m))[i] == ' '
            else i - i / 5 < |m| && JoinWithSpaces(Chunks(m))[i] == m[i - i / 5]
  {
    if |m| > 4 {
      GroupedHead(m);
      var t := m[4..];
      if i >= 5 {
        GroupedAt(t, i - 5);
        FiveFewer(i);
      }
    }
  }

  lemma FiveFewer(i: nat)
    requires i >= 5
    ensures (i - 5) % 5 == i % 5 && (i - 5) / 5 == i / 5 - 1
  {
  }

  /** The grouped text of `m`: one space after every fourth digit, no space at either end;
      every other character is the next digit of `m`. */
  lemma GroupedLayout(m: string)
    requires m != []
    ensures |JoinWithSpaces(Chunks(m))| == |m| + (|m| - 1) / 4
    ensures forall i :: 0 <= i < |JoinWithSpaces(Chunks(m))| ==>
      if i % 5 == 4 then JoinWithSpaces(Chunks(m))[i] == ' '
      else JoinWithSpaces(Chunks(m))[i] == m[i - i / 5]
  {
    GroupedLength(m);
    forall i | 0 <= i < |JoinWithSpaces(Chunks(m))|
      ensures if i % 5 == 4 then JoinWithSpaces(Chunks(m))[i] == ' '
              else i - i / 5 < |m| && JoinWithSpaces(Chunks(m))[i] == m[i - i / 5]
    {
      GroupedAt(m, i);
    }
  }

  /** Removing the spaces from the grouped text of a digit string gives the digits back. */
  lemma {:induction false} GroupedDigits(m: string)
    requires m != [] && AllDigits(m)
    ensures StripWhitespace(JoinWithSpaces(Chunks(m))) == m
    ensures Digits(JoinWithSpaces(Chunks(m))) == m
  {
    var r := JoinWithSpaces(Chunks(m));
    if |m| <= 4 {
      DigitsOfDigits(m);
    } else {
      var t := m[4..];
      GroupedDigits(t);
      var rt := JoinWithSpaces(Chunks(t));
      assert Chunks(m) == [m[..4]] + Chunks(t);
      assert r == m[..4] + (" " + rt);
      DigitsOfDigits(m[..4]);
      StripWhitespaceAppend(m[..4], " " + rt);
      StripWhitespaceAppend(" ", rt);
      assert StripWhitespace(" ") == [];
      assert m == m[..4] + t;
      DigitsOfDigits(m);
    }
  }

  /** With at least four digits typed, the result is the first min(16, n) digits in groups of
      four separated by single spaces; removing the spaces gives exactly those digits. */
  lemma CardNumberGrouped(value: string)
    requires |Digits(value)| >= 4
    ensures var r := FormattedCardNumber(value);
            var m := Digits(value)[..Min(MaxCardDigits, |Digits(value)|)];
            && StripWhitespace(r) == m
            && |r| == |m| + (|m| - 1) / 4
            && forall i :: 0 <= i < |r| ==> if i % 5 == 4 then r[i] == ' ' else r[i] == m[i - i / 5]
  {
    var m := CardRun(Digits(value));
    GroupedDigits(m);
    GroupedLayout(m);
  }

  /** With fewer than four digits typed, the typed value is kept as it is, non-digits included. */
  lemma CardNumberTooShortKept(value: string)
    requires |Digits(value)| < 4
    ensures FormattedCardNumber(value) == value
  {
  }

  /** Formatting a formatted card number changes nothing. */
  lemma CardNumberFormatIdempotent(value: string)
    ensures FormattedCardNumber(FormattedCardNumber(value)) == FormattedCardNumber(value)
  {
    var v := Digits(value);
    if |v| >= 4 {
      var m := CardRun(v);
      var r := JoinWithSpaces(Chunks(m));
      GroupedDigits(m);
      assert Digits(r) == m;
      assert CardRun(m) == m;
    }
  }

  /** The digits left in a formatted card number start with the same digit as the typed value's,
      so they show the same brand. */
  lemma FormattedKeepsBrand(value: string)
    ensures DetectCardType(Digits(FormattedCardNumber(value))) == DetectCardType(Digits(value))
  {
    var v := Digits(value);
    if |v| >= 4 {
      var m := CardRun(v);
      GroupedDigits(m);
      DigitsOfDigits(m);
      DigitsOfDigits(v);
      assert StripWhitespace(m)[0] == m[0] == v[0] == StripWhitespace(v)[0];
    }
  }

  // ===========================================================================
  // Expiry formatting

  /** `formatExpiryDate`: the digits as `MM/YY` once two are typed, otherwise the digits alone. */
  function FormatExpiryDate(value: string): string {
    var v := Digits(value);
    if |v| >= 2 then v[..2] + "/" + v[2..Min(4, |v|)] else v
  }

  /** At most five characters: two digits, a slash and up to two digits when at least two digits
      were typed (the digits being the first up to four typed), else the digits alone. */
  lemma ExpiryShape(value: string)
    ensures var r := FormatExpiryDate(value);
            var v := Digits(value);
            && |r| <= 5
            && (|v| >= 2 ==> |r| >= 3 && r[2] == '/' && AllDigits(r[..2]) && AllDigits(r[3..])
                             && r[..2] + r[3..] == v[..Min(4, |v|)])
            && (|v| < 2 ==> r == v && AllDigits(r))
  {
    var r := FormatExpiryDate(value);
    var v := Digits(value);
    if |v| >= 2 {
      assert r[..2] == v[..2] && r[3..] == v[2..Min(4, |v|)];
    }
  }

  /** The digits of two digit strings joined by a slash are the two strings run together. */
  lemma DigitsAroundSlash(head: string, tail: string)
    requires AllDigits(head) && AllDigits(tail)
    ensures Digits(head + "/" + tail) == head + tail
  {
    DigitsOfDigits(head);
    DigitsOfDigits(tail);
    assert head + "/" + tail == head + ("/" + tail);
    StripWhitespaceAppend(head, "/" + tail);
    StripWhitespaceAppend("/", tail);
    KeepDigitsAppend(head, "/" + tail);
    KeepDigitsAppend("/", tail);
    assert StripWhitespace("/") == "/" && KeepDigits("/") == [];
  }

  /** Formatting a formatted expiry date changes nothing. */
  lemma ExpiryFormatIdempotent(value: string)
    ensures FormatExpiryDate(FormatExpiryDate(value)) == FormatExpiryDate(value)
  {
    var v := Digits(value);
    if |v| >= 2 {
      var w := v[..Min(4, |v|)];
      var head, tail := w[..2], w[2..];
      assert head == v[..2] && tail == v[2..Min(4, |v|)];
      assert FormatExpiryDate(value) == head + "/" + tail;
      DigitsAroundSlash(head, tail);
      assert head + tail == w;
    } else {
      DigitsOfDigits(v);
    }
  }

  // ===========================================================================
  // Payment form validation

  datatype PaymentForm = PaymentForm(
    cardNumber: string,
    expiryDate: string,
    cvv: string,
    cardholderName: string,
    email: string)

  const EmptyPaymentForm := PaymentForm("", "", "", "", "")

  /** The message each failed check raises, in checking order. */
  datatype PaymentError =
    | InvalidCardNumber
    | InvalidExpiryDate
    | CardExpired
    | InvalidCvv
    | MissingCardholderName
    | InvalidEmail

  /** The local time of the check: the calendar month as `year * 12 + month` (months counted
      from zero) and the milliseconds elapsed since that month began. */
  datatype Clock = Clock(monthIndex: int, msIntoMonth: nat)

  /** Index of the first `c` in `s`, or `|s|` when there is none. */
  function IndexOf(s: string, c: char): (k: nat)
    ensures k <= |s|
    ensures forall j :: 0 <= j < k ==> s[j] != c
    ensures k < |s| ==> s[k] == c
  {
    if s == [] then 0 else if s[0] == c then 0 else 1 + IndexOf(s[1..], c)
  }

  /** `const [month, year] = s.split('/')`: the year is absent when `s` has no slash. */
  function SplitExpiry(s: string): (string, Option<string>) {
    var k := IndexOf(s, '/');
    if k == |s| then (s, None)
    else
      var after := s[k + 1..];
      (s[..k], Some(after[..IndexOf(after, '/')]))
  }

  /** The month of `new Date(2000 + parseInt(year), parseInt(month) - 1)` as a month index;
      `None` is the invalid date a NaN produces. Months outside 1..12 roll into the neighbouring
      years, as the Date constructor does, and a full year of 0..99 means 1900..1999. */
  function ExpiryMonthIndex(expiry: string): Option<int>
    requires |expiry| == 5
  {
    var parts := SplitExpiry(expiry);
    MonthIndexOf(parts.0, parts.1)
  }

  /** `new Date(2000 + parseInt(year), parseInt(month) - 1)` for the two halves of the split. */
  function MonthIndexOf(month: string, year: Option<string>): Option<int> {
    DateMonthIndex(ParseInt(month), if year.None? then None else ParseInt(year.value))
  }

  /** `new Date(2000 + year, month - 1)` as a month index, for parsed month and year. */
  function DateMonthIndex(month: Option<int>, year: Option<int>): Option<int> {
    if month.None? || year.None? then None
    else
      var fullYear := 2000 + year.value;
      var calendarYear := if 0 <= fullYear <= 99 then 1900 + fullYear else fullYear;
      Some(calendarYear * 12 + month.value - 1)
  }

  /** `expiry < new Date()`: the first instant of the expiry month lies before now. An invalid
      date compares false, so it never counts as expired. */
  predicate IsExpired(expiry: string, now: Clock)
    requires |expiry| == 5
  {
    match ExpiryMonthIndex(expiry)
    case None => false
    case Some(e) => e < now.monthIndex || (e == now.monthIndex && now.msIntoMonth > 0)
  }

  /** `cleanCard.length` is between 13 and 19, counted in UTF-16 code units. */
  predicate CardLengthOk(f: PaymentForm) {
    13 <= Utf16Length(StripWhitespace(f.cardNumber)) <= 19
  }

  /** `expiryDate.length === 5`. The stored expiry is always formatter output, whose characters
      are each one code unit (`FormattedExpiryLength`), so characters are counted here. */
  predicate ExpiryLengthOk(f: PaymentForm) {
    |f.expiryDate| == 5
  }

  /** `cvv.length >= 3`, counted in UTF-16 code units. */
  predicate CvvOk(f: PaymentForm) {
    Utf16Length(f.cvv) >= 3
  }

  /** A formatted expiry holds digits and a slash only, so its length in code units is its
      length in characters. */
  lemma FormattedExpiryLength(value: string)
    ensures Utf16Length(FormatExpiryDate(value)) == |FormatExpiryDate(value)|
  {
    var r := FormatExpiryDate(value);
    ExpiryShape(value);
    forall i | 0 <= i < |r| ensures r[i] as int <= 0xFFFF {
      if |Digits(value)| >= 2 {
        if i < 2 {
          assert r[i] == r[..2][i];
        } else if i > 2 {
          assert r[i] == r[3..][i - 3];
        }
      }
    }
  }

  /** A character outside the Basic Multilingual Plane counts twice, as in the browser: two
      emoji make a CVV of length four. */
  lemma AstralCvvPasses()
    ensures CvvOk(PaymentForm("", "", "\U{1F600}\U{1F600}", "", ""))
  {
    var cvv := "\U{1F600}\U{1F600}";
    assert cvv[1..][1..] == [];
  }

  predicate NameOk(f: PaymentForm) {
    f.cardholderName != ""
  }

  predicate EmailOk(f: PaymentForm) {
    '@' in f.email
  }

  /** `validatePayment`: `None` when the form may be submitted, otherwise the first check that
      failed. */
  function ValidatePayment(f: PaymentForm, now: Clock): Option<PaymentError> {
    if !CardLengthOk(f) then Some(InvalidCardNumber)
    else if !ExpiryLengthOk(f) then Some(InvalidExpiryDate)
    else if IsExpired(f.expiryDate, now) then Some(CardExpired)
    else if !CvvOk(f) then Some(InvalidCvv)
    else if !NameOk(f) then Some(MissingCardholderName)
    else if !EmailOk(f) then Some(InvalidEmail)
    else None
  }

  /** The form passes exactly when every check passes, and each failure is reported only when
      every earlier check passed. */
  lemma ValidatePaymentReportsFirstFailure(f: PaymentForm, now: Clock)
    ensures ValidatePayment(f, now).None? <==>
      CardLengthOk(f) && ExpiryLengthOk(f) && !IsExpired(f.expiryDate, now)
      && CvvOk(f) && NameOk(f) && EmailOk(f)
    ensures ValidatePayment(f, now) == Some(InvalidCardNumber) <==> !CardLengthOk(f)
    ensures ValidatePayment(f, now) == Some(InvalidExpiryDate) <==> CardLengthOk(f) && !ExpiryLengthOk(f)
    ensures ValidatePayment(f, now) == Some(CardExpired) <==>
      CardLengthOk(f) && ExpiryLengthOk(f) && IsExpired(f.expiryDate, now)
    ensures ValidatePayment(f, now) == Some(InvalidCvv) <==>
      CardLengthOk(f) && ExpiryLengthOk(f) && !IsExpired(f.expiryDate, now) && !CvvOk(f)
    ensures ValidatePayment(f, now) == Some(MissingCardholderName) <==>
      CardLengthOk(f) && ExpiryLengthOk(f) && !IsExpired(f.expiryDate, now) && CvvOk(f) && !NameOk(f)
    ensures ValidatePayment(f, now) == Some(InvalidEmail) <==>
      CardLengthOk(f) && ExpiryLengthOk(f) && !IsExpired(f.expiryDate, now) && CvvOk(f) && NameOk(f)
      && !EmailOk(f)
  {
  }

  /** Two characters, both decimal digits. */
  predicate TwoDigits(s: string) {
    |s| == 2 && IsDigit(s[0]) && IsDigit(s[1])
  }

  /** The value of two decimal digits. */
  function TwoDigitValue(s: string): nat
    requires TwoDigits(s)
  {
    DigitValue(s[0]) * 10 + DigitValue(s[1])
  }

  lemma TwoDigitValueOf(s: string)
    requires TwoDigits(s)
    ensures ValueOf(s, 10) == TwoDigitValue(s)
  {
    assert s[..1][..0] == [];
    assert ValueOf(s[..1], 10) == DigitValue(s[0]);
  }

  lemma ParseTwoDigits(s: string)
    requires TwoDigits(s)
    ensures ParseInt(s) == Some(TwoDigitValue(s))
  {
    assert AllDigits(s);
    ParseDigits(s);
    TwoDigitValueOf(s);
  }

  /** `MM/YY` splits at its slash into the month and the year. */
  lemma SplitLayout(e: string)
    requires |e| == 5 && e[0] != '/' && e[1] != '/' && e[2] == '/' && e[3] != '/' && e[4] != '/'
    ensures SplitExpiry(e) == (e[..2], Some(e[3..]))
  {
    assert IndexOf(e, '/') == 2;
    var yy := e[3..];
    assert IndexOf(yy, '/') == 2 by {
      assert yy[0] != '/' && yy[1] != '/';
    }
    assert yy[..2] == yy;
  }

  /** An expiry `MM/YY` whose halves hold no slash is read as the month `MM` and the year `YY`. */
  lemma SlashSplitsExpiry(mm: string, yy: string)
    requires |mm| == 2 && |yy| == 2 && mm[0] != '/' && mm[1] != '/' && yy[0] != '/' && yy[1] != '/'
    ensures ExpiryMonthIndex(mm + "/" + yy) == MonthIndexOf(mm, Some(yy))
  {
    var e := mm + "/" + yy;
    assert e[..2] == mm && e[3..] == yy;
    assert e[0] == mm[0] && e[1] == mm[1] && e[3] == yy[0] && e[4] == yy[1];
    SplitLayout(e);
  }

  /** A month and a year that parse to numbers name month `m` of the year 2000 + `y`. */
  lemma MonthOfParsed(mm: string, yy: string, m: int, y: nat)
    requires ParseInt(mm) == Some(m) && ParseInt(yy) == Some(y)
    ensures MonthIndexOf(mm, Some(yy)) == Some((2000 + y) * 12 + m - 1)
  {
  }

  /** `MM/YY` whose halves parse to `m` and `y` expires with month `m` of the year 2000 + `y`;
      with `ParseTwoDigits`, an expiry of four digits reads as the month and year it spells. */
  lemma ParsedExpiryMonth(mm: string, yy: string, m: int, y: nat)
    requires |mm| == 2 && |yy| == 2 && mm[0] != '/' && mm[1] != '/' && yy[0] != '/' && yy[1] != '/'
    requires ParseInt(mm) == Some(m) && ParseInt(yy) == Some(y)
    ensures ExpiryMonthIndex(mm + "/" + yy) == Some((2000 + y) * 12 + m - 1)
  {
    SlashSplitsExpiry(mm, yy);
    MonthOfParsed(mm, yy, m, y);
  }

  predicate AllLetters(s: string) {
    forall i :: 0 <= i < |s| ==> 'a' <= s[i] <= 'z'
  }

  /** The card check counts characters only: a card number typed as thirteen or more letters
      is kept by the formatter (it holds no digit) and passes the length check when it has
      at most nineteen. */
  lemma LettersPassCardLengthCheck(typed: string)
    requires AllLetters(typed) && 13 <= |typed| <= 19
    ensures FormattedCardNumber(typed) == typed
    ensures CardLengthOk(PaymentForm(typed, "", "", "", ""))
  {
    NoWhitespaceStripsNothing(typed);
    NoDigitsKeepsNothing(typed);
  }

  lemma {:induction false} NoDigitsKeepsNothing(s: string)
    requires AllLetters(s)
    ensures KeepDigits(s) == []
  {
    if s != [] {
      NoDigitsKeepsNothing(s[1..]);
    }
  }

  lemma {:induction false} NoWhitespaceStripsNothing(s: string)
    requires AllLetters(s)
    ensures StripWhitespace(s) == s
  {
    if s != [] {
      NoWhitespaceStripsNothing(s[1..]);
    }
  }

  // ===========================================================================
  // Field updates

  datatype Field = CardNumberField | ExpiryDateField | CvvField | CardholderNameField | EmailField

  function FieldValue(f: PaymentForm, field: Field): string {
    match field
    case CardNumberField => f.cardNumber
    case ExpiryDateField => f.expiryDate
    case CvvField => f.cvv
    case CardholderNameField => f.cardholderName
    case EmailField => f.email
  }

  /** `{ ...prev, [name]: value }`. */
  function WithField(f: PaymentForm, field: Field, value: string): (g: PaymentForm)
    ensures FieldValue(g, field) == value
    ensures forall other :: other != field ==> FieldValue(g, other) == FieldValue(f, other)
  {
    match field
    case CardNumberField => f.(cardNumber := value)
    case ExpiryDateField => f.(expiryDate := value)
    case CvvField => f.(cvv := value)
    case CardholderNameField => f.(cardholderName := value)
    case EmailField => f.(email := value)
  }

  /** The value `handlePaymentChange` stores: card number and expiry reformatted, the rest raw. */
  function StoredValue(field: Field, value: string): (r: string)
    ensures field != CardNumberField && field != ExpiryDateField ==> r == value
  {
    if field == CardNumberField then FormattedCardNumber(value)
    else if field == ExpiryDateField then FormatExpiryDate(value)
    else value
  }

  // ===========================================================================
  // Checkout step machine

  datatype Step = CartStep | PaymentStep | ProcessingStep | SuccessStep

  /** Calls the page makes into the cart context, whose own state is not part of this model. */
  datatype CartCall = ClearCart | UpdateQuantity(productId: string, quantity: int) | RemoveFromCart(productId: string)

  datatype OrderLine = OrderLine(productId: string, quantity: int, priceCents: int)

  /** The body of the order-creation request. */
  datatype OrderRequest = OrderRequest(userId: string, items: seq<OrderLine>)

  datatype CheckoutOutcome = LoginRequired | NothingToCheckout | PaymentOpened

  /** `items.map(item => ({ productId, quantity, price }))`. */
  function OrderLines(items: seq<CartItem>): (lines: seq<OrderLine>)
    ensures |lines| == |items|
    ensures forall i :: 0 <= i < |items| ==>
      lines[i] == OrderLine(items[i].product.id, items[i].quantity, items[i].product.priceCents)
  {
    seq(|items|, i requires 0 <= i < |items| =>
      OrderLine(items[i].product.id, items[i].quantity, items[i].product.priceCents))
  }

  /** `'demo-user-' + Date.now()`. */
  function DemoUserId(nowMs: int): string {
    "demo-user-" + IntToString(nowMs)
  }

  class CartPage {
    /** The cart lines and the signed-in user, as the cart context hands them to the page. */
    var items: seq<CartItem>
    var user: Option<User>

    var showPayment: bool
    var paymentStep: Step
    var paymentData: PaymentForm
    var cardType: CardType
    /** Every call into the cart context so far, oldest first. */
    var cartCalls: seq<CartCall>

    /** The stored card number and expiry are always formatter output, the brand badge always
        matches the stored digits, and the processing and success screens are only reached with
        the payment panel shown. */
    ghost predicate Valid()
      reads this
    {
      && FormattedCardNumber(paymentData.cardNumber) == paymentData.cardNumber
      && FormatExpiryDate(paymentData.expiryDate) == paymentData.expiryDate
      && cardType == DetectCardType(Digits(paymentData.cardNumber))
      && (paymentStep == ProcessingStep || paymentStep == SuccessStep ==> showPayment)
    }

    constructor (items: seq<CartItem>, user: Option<User>)
      ensures Valid()
      ensures this.items == items && this.user == user
      ensures !showPayment && paymentStep == CartStep && paymentData == EmptyPaymentForm
      ensures cardType == Unknown && cartCalls == []
    {
      this.items := items;
      this.user := user;
      showPayment := false;
      paymentStep := CartStep;
      paymentData := EmptyPaymentForm;
      cardType := Unknown;
      cartCalls := [];
    }

    /** `formatCardNumber`: records the brand of the typed digits and returns the grouped text. */
    method FormatCardNumber(value: string) returns (r: string)
      modifies this`cardType
      ensures r == FormattedCardNumber(value)
      ensures cardType == DetectCardType(Digits(value))
    {
      var v := Digits(value);
      cardType := DetectCardType(v);
      var parts := SplitIntoFours(CardRun(v));
      if |parts| > 0 {
        r := JoinWithSpaces(parts);
      } else {
        r := value;
      }
    }

    /** `handlePaymentChange`: only the named field changes; card number and expiry are stored
        formatted, the other fields as typed. */
    method HandlePaymentChange(field: Field, value: string)
      requires Valid()
      modifies this`paymentData, this`cardType
      ensures Valid()
      ensures paymentData == WithField(old(paymentData), field, StoredValue(field, value))
      ensures field == CardNumberField ==> cardType == DetectCardType(Digits(value))
      ensures field != CardNumberField ==> cardType == old(cardType)
    {
      var formatted := value;
      if field == CardNumberField {
        formatted := FormatCardNumber(value);
        CardNumberFormatIdempotent(value);
        FormattedKeepsBrand(value);
      } else if field == ExpiryDateField {
        formatted := FormatExpiryDate(value);
        ExpiryFormatIdempotent(value);
      }
      paymentData := WithField(paymentData, field, formatted);
    }

    /** `handleCheckout`, from the checkout buttons of the cart view (shown while the payment
        panel is hidden): the panel opens only for a signed-in user with a non-empty cart;
        otherwise nothing on the page changes. */
    method HandleCheckout() returns (outcome: CheckoutOutcome)
      requires Valid() && !showPayment
      modifies this`paymentStep, this`showPayment
      ensures Valid()
      ensures outcome == LoginRequired <==> user.None?
      ensures outcome == NothingToCheckout <==> user.Some? && items == []
      ensures outcome == PaymentOpened <==> user.Some? && items != []
      ensures outcome == PaymentOpened ==> paymentStep == PaymentStep && showPayment
      ensures outcome != PaymentOpened ==>
        paymentStep == old(paymentStep) && showPayment == old(showPayment)
    {
      if user.None? {
        return LoginRequired;
      }
      if |items| == 0 {
        return NothingToCheckout;
      }
      paymentStep := PaymentStep;
      showPayment := true;
      outcome := PaymentOpened;
    }

    /** `handlePaymentSubmit` up to the order request: an invalid form leaves the step as it is
        and sends nothing; a valid one moves to processing and (the simulated payment always
        approving) asks for an order with one line per cart line, in cart order. */
    method SubmitPayment(now: Clock, nowMs: int) returns (request: Option<OrderRequest>)
      requires Valid() && showPayment && paymentStep == PaymentStep
      modifies this`paymentStep
      ensures Valid()
      ensures request.None? <==> ValidatePayment(paymentData, now).Some?
      ensures request.None? ==> paymentStep == old(paymentStep)
      ensures request.Some? ==> paymentStep == ProcessingStep
      ensures request.Some? ==> request.value == OrderRequest(DemoUserId(nowMs), OrderLines(items))
    {
      if ValidatePayment(paymentData, now).Some? {
        return None;
      }
      paymentStep := ProcessingStep;
      request := Some(OrderRequest(DemoUserId(nowMs), OrderLines(items)));
    }

    /** The order request settles: on success the step is success and the cart is cleared, on
        failure the step returns to payment and the cart is not touched. */
    method OrderSettled(created: bool)
      requires Valid() && paymentStep == ProcessingStep
      modifies this`paymentStep, this`cartCalls
      ensures Valid()
      ensures created ==> paymentStep == SuccessStep && cartCalls == old(cartCalls) + [ClearCart]
      ensures !created ==> paymentStep == PaymentStep && cartCalls == old(cartCalls)
    {
      if created {
        paymentStep := SuccessStep;
        cartCalls := cartCalls + [ClearCart];
      } else {
        paymentStep := PaymentStep;
      }
    }

    /** The delay after a successful order closes the panel and returns to the cart step. */
    method SuccessDelayElapsed()
      requires Valid() && paymentStep == SuccessStep
      modifies this`paymentStep, this`showPayment
      ensures Valid()
      ensures !showPayment && paymentStep == CartStep
    {
      showPayment := false;
      paymentStep := CartStep;
    }

    /** The payment form's Cancel button hides the panel and leaves the step as it is. */
    method CancelPayment()
      requires Valid() && showPayment && paymentStep == PaymentStep
      modifies this`showPayment
      ensures Valid()
      ensures !showPayment && paymentStep == PaymentStep
    {
      showPayment := false;
    }

    /** The cart view's minus, plus and remove buttons on line `i`, and its Clear Cart button. */
    method DecreaseClicked(i: nat)
      requires Valid() && !showPayment && i < |items|
      modifies this`cartCalls
      ensures Valid()
      ensures cartCalls == old(cartCalls) + [UpdateQuantity(items[i].product.id, items[i].quantity - 1)]
    {
      cartCalls := cartCalls + [UpdateQuantity(items[i].product.id, items[i].quantity - 1)];
    }

    method IncreaseClicked(i: nat)
      requires Valid() && !showPayment && i < |items|
      modifies this`cartCalls
      ensures Valid()
      ensures cartCalls == old(cartCalls) + [UpdateQuantity(items[i].product.id, items[i].quantity + 1)]
    {
      cartCalls := cartCalls + [UpdateQuantity(items[i].product.id, items[i].quantity + 1)];
    }

    method RemoveClicked(i: nat)
      requires Valid() && !showPayment && i < |items|
      modifies this`cartCalls
      ensures Valid()
      ensures cartCalls == old(cartCalls) + [RemoveFromCart(items[i].product.id)]
    {
      cartCalls := cartCalls + [RemoveFromCart(items[i].product.id)];
    }

    method ClearCartClicked()
      requires Valid() && !showPayment
      modifies this`cartCalls
      ensures Valid()
      ensures cartCalls == old(cartCalls) + [ClearCart]
    {
      cartCalls := cartCalls + [ClearCart];
    }
  }
}
