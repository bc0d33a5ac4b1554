/**
 internal/payment/cryptobot.go:262-395: exact decimal parsing of provider amounts into
 int64 units and a scale, without floating point and without rounding.
 */
module Decimals {
  import opened Wrappers

  const MAX_INT64: int := 0x7fff_ffff_ffff_ffff

  // ----- digit strings -----

  predicate IsDigit(c: char) { '0' <= c <= '9' }

  predicate AllDigits(s: string) {
    forall i :: 0 <= i < |s| ==> IsDigit(s[i])
  }

  function DigitValue(c: char): nat
    requires IsDigit(c)
  {
    c as int - '0' as int
  }

  /** The number a digit string writes. */
  function Value(s: string): nat
    requires AllDigits(s)
  {
    if |s| == 0 then 0 else Value(s[..|s| - 1]) * 10 + DigitValue(s[|s| - 1])
  }

  /** u times ten to the k. */
  function Shift(u: int, k: nat): int {
    if k == 0 then u else Shift(u, k - 1) * 10
  }

  lemma {:induction false} ShiftSum(a: int, b: int, k: nat)
    ensures Shift(a + b, k) == Shift(a, k) + Shift(b, k)
  {
    if k > 0 { ShiftSum(a, b, k - 1); }
  }

  lemma {:induction false} ShiftTwice(u: int, j: nat, k: nat)
    ensures Shift(Shift(u, j), k) == Shift(u, j + k)
  {
    if k > 0 { ShiftTwice(u, j, k - 1); }
  }

  /** strings.IndexByte. */
  function IndexOf(s: string, c: char): (r: int)
    ensures -1 <= r < |s|
    ensures r >= 0 ==> s[r] == c && c !in s[..r]
    ensures r < 0 ==> c !in s
  {
    if |s| == 0 then -1
    else
      var r := IndexOf(s[..|s| - 1], c);
      if r >= 0 then r else if s[|s| - 1] == c then |s| - 1 else -1
  }

  // ----- what a decimal says -----

  /** An unsigned decimal: digits, and digits after a point when there are any. */
  datatype Decimal = Decimal(whole: string, fraction: string) {
    predicate Valid() { whole != "" && AllDigits(whole) && AllDigits(fraction) }

    function Text(): string {
      if fraction == "" then whole else whole + "." + fraction
    }

    /** Its worth times ten to the k, digit group by digit group. */
    function Worth(k: int): int
      requires Valid() && k >= |fraction|
    {
      Shift(Value(whole), k) + Shift(Value(fraction), k - |fraction|)
    }

    /** All its digits read as one integer. */
    function Units(): nat
      requires Valid()
    {
      assert AllDigits(whole + fraction);
      Value(whole + fraction)
    }
  }

  /** A decimal, or a decimal with a power of ten. */
  datatype Number =
    | Plain(n: Decimal)
    | Scientific(n: Decimal, mark: char, sign: string, power: string)
  {
    predicate Valid() {
      n.Valid() && (Scientific? ==>
                      (mark == 'e' || mark == 'E') && (sign == "" || sign == "+" || sign == "-")
                      && power != "" && AllDigits(power))
    }

    function Text(): string {
      match this
      case Plain(n) => n.Text()
      case Scientific(n, mark, sign, power) => n.Text() + [mark] + sign + power
    }

    function Exponent(): int
      requires Valid()
    {
      match this
      case Plain(_) => 0
      case Scientific(_, _, sign, power) => if sign == "-" then 0 - Value(power) else Value(power)
    }

    /** The number times ten to the k is an integer. */
    predicate WholeAt(k: int)
      requires Valid()
    {
      k + Exponent() >= |n.fraction|
    }

    function Worth(k: int): int
      requires Valid() && WholeAt(k)
    {
      n.Worth(k + Exponent())
    }
  }

  lemma {:induction false} ValueJoin(a: string, b: string)
    requires AllDigits(a) && AllDigits(b)
    ensures AllDigits(a + b) && Value(a + b) == Shift(Value(a), |b|) + Value(b)
  {
    if |b| == 0 {
      assert a + b == a;
    } else {
      ValueJoin(a, b[..|b| - 1]);
      assert (a + b)[..|a + b| - 1] == a + b[..|b| - 1];
    }
  }

  /** Worth and units agree: the units are the worth shifted by the fraction's length. */
  lemma UnitsAreWorth(n: Decimal, k: int)
    requires n.Valid() && k >= |n.fraction|
    ensures AllDigits(n.whole + n.fraction) && Shift(n.Units(), k - |n.fraction|) == n.Worth(k)
  {
    ValueJoin(n.whole, n.fraction);
    ShiftSum(Shift(Value(n.whole), |n.fraction|), Value(n.fraction), k - |n.fraction|);
    ShiftTwice(Value(n.whole), |n.fraction|, k - |n.fraction|);
  }

  /** A text has at most one reading as a decimal. */
  function Reading(raw: string): (r: Option<Decimal>)
    ensures r.Some? ==> r.value.Valid() && r.value.Text() == raw
  {
    var dot := IndexOf(raw, '.');
    if dot < 0 then if raw != "" && AllDigits(raw) then Some(Decimal(raw, "")) else None
    else
      var n := Decimal(raw[..dot], raw[dot + 1..]);
      if n.Valid() && n.fraction != "" then Some(n) else None
  }

  lemma ReadingIsComplete(n: Decimal)
    requires n.Valid()
    ensures Reading(n.Text()) == Some(n)
  {
    var raw := n.Text();
    if n.fraction != "" {
      assert raw[|n.whole|] == '.';
      assert forall i :: 0 <= i < |n.whole| ==> raw[i] == n.whole[i] && IsDigit(raw[i]);
      var dot := IndexOf(raw, '.');
      assert dot == |n.whole|;
      assert raw[..dot] == n.whole && raw[dot + 1..] == n.fraction;
    } else {
      assert forall i :: 0 <= i < |raw| ==> IsDigit(raw[i]);
    }
  }

  // ----- fixed decimals -----

  datatype Scaled = Scaled(units: int, scale: int)

  /** Fits a positive int64. */
  predicate Representable(v: int) { 0 < v <= MAX_INT64 }

  /** What parsePositiveFixedDecimal answers. */
  function FixedAmount(raw: string, maxFraction: nat): Option<Scaled> {
    match Reading(raw)
    case None => None
    case Some(n) =>
      if |n.fraction| <= maxFraction && Representable(n.Units()) then Some(Scaled(n.Units(), |n.fraction|)) else None
  }

  /** The digit checks of the parsers (`for _, ch := range`). */
  method OnlyDigits(s: string) returns (ok: bool)
    ensures ok == AllDigits(s)
  {
    for i := 0 to |s|
      invariant AllDigits(s[..i])
    {
      assert s[..i + 1] == s[..i] + [s[i]];
      if s[i] < '0' || s[i] > '9' {
        return false;
      }
    }
    assert s[..|s|] == s;
    return true;
  }

  lemma DigitsJoin(a: string, b: string)
    ensures AllDigits(a + b) <==> AllDigits(a) && AllDigits(b)
  {
    assert forall i :: 0 <= i < |a| ==> (a + b)[i] == a[i];
    assert forall i :: 0 <= i < |b| ==> b[i] == (a + b)[|a| + i];
  }

  method ParsePositiveFixedDecimal(raw: string, maxFraction: nat) returns (r: Option<Scaled>)
    ensures r == FixedAmount(raw, maxFraction)
  {
    if raw == "" {
      return None;
    }
    var dot := IndexOf(raw, '.');
    var whole, fraction := raw, "";
    if dot >= 0 {
      if dot == 0 || dot == |raw| - 1 || IndexOf(raw[dot + 1..], '.') >= 0 {
        return None;
      }
      whole, fraction := raw[..dot], raw[dot + 1..];
    }
    if |fraction| > maxFraction {
      return None;
    }
    var digits := OnlyDigits(whole + fraction);
    DigitsJoin(whole, fraction);
    if !digits {
      return None;
    }
    assert whole + "" == whole;
    var units := Value(whole + fraction);
    if units > MAX_INT64 || units <= 0 {
      return None;
    }
    return Some(Scaled(units, |fraction|));
  }

  /** What parseStrictProviderAmount answers: the amount in hundredths. */
  function StrictAmount(raw: string): Option<int> {
    match FixedAmount(raw, 2)
    case None => None
    case Some(a) =>
      var cents := if a.scale == 0 then a.units * 100 else if a.scale == 1 then a.units * 10 else a.units;
      if cents <= MAX_INT64 then Some(cents) else None
  }

  method ParseStrictProviderAmount(raw: string) returns (r: Option<int>)
    ensures r == StrictAmount(raw)
  {
    var parsed := ParsePositiveFixedDecimal(raw, 2);
    if parsed.None? {
      return None;
    }
    var units, scale := parsed.value.units, parsed.value.scale;
    while scale < 2
      invariant 0 <= parsed.value.scale <= scale <= 2 && Representable(units)
      invariant parsed == FixedAmount(raw, 2)
      invariant units == parsed.value.units * (if scale == parsed.value.scale then 1 else if scale == parsed.value.scale + 1 then 10 else 100)
    {
      if units > MAX_INT64 / 10 {
        return None;
      }
      units := units * 10;
      scale := scale + 1;
    }
    return Some(units);
  }

  /** An unsigned decimal with at most two fraction digits, a hundredfold of `cents`. */
  predicate WritesCents(n: Decimal, raw: string, cents: int) {
    n.Valid() && n.Text() == raw && |n.fraction| <= 2 && n.Worth(2) == cents
  }

  /** Exactness: the accepted texts are precisely the unsigned positive decimals with at
      most two fraction digits whose hundredfold fits an int64, and that is the answer. */
  lemma StrictAmountIsExact(raw: string, cents: int)
    ensures StrictAmount(raw) == Some(cents) <==> Representable(cents) && exists n: Decimal :: WritesCents(n, raw, cents)
  {
    if StrictAmount(raw) == Some(cents) {
      StrictOfReading(raw, Reading(raw).value);
      assert WritesCents(Reading(raw).value, raw, cents);
    }
    if n: Decimal :| WritesCents(n, raw, cents) {
      ReadingIsComplete(n);
      StrictOfReading(raw, n);
    }
  }

  lemma StrictOfReading(raw: string, n: Decimal)
    requires Reading(raw) == Some(n)
    ensures StrictAmount(raw) == if |n.fraction| <= 2 && Representable(n.Worth(2)) then Some(n.Worth(2)) else None
  {
    if |n.fraction| <= 2 { CentsOfReading(n); }
  }

  lemma CentsOfReading(n: Decimal)
    requires n.Valid() && |n.fraction| <= 2
    ensures AllDigits(n.whole + n.fraction)
    ensures n.Worth(2) == n.Units() * if |n.fraction| == 0 then 100 else if |n.fraction| == 1 then 10 else 1
  {
    UnitsAreWorth(n, 2);
    assert Shift(n.Units(), 0) == n.Units();
    assert Shift(n.Units(), 1) == n.Units() * 10;
    assert Shift(n.Units(), 2) == n.Units() * 100;
  }

  // ----- printing an invoice amount -----

  function DigitChar(d: nat): char
    requires d < 10
  {
    ('0' as int + d) as char
  }

  /** A number in decimal digits. */
  function Digits(v: nat): (s: string)
    ensures s != "" && AllDigits(s) && Value(s) == v
  {
    if v < 10 then
      var s := [DigitChar(v)];
      assert s[..|s| - 1] == "";
      s
    else
      var s := Digits(v / 10) + [DigitChar(v % 10)];
      assert s[..|s| - 1] == Digits(v / 10);
      s
  }

  /** The amount of createInvoice (cryptobot.go:106): cents with two fraction digits. */
  function InvoiceAmount(cents: nat): string {
    Digits(cents / 100) + "." + [DigitChar(cents / 10 % 10), DigitChar(cents % 10)]
  }

  lemma HundredthsSplit(cents: nat)
    ensures cents == cents / 100 * 100 + cents / 10 % 10 * 10 + cents % 10
  {
    var tens := cents / 10;
    assert cents == tens * 10 + cents % 10;
    assert tens == tens / 10 * 10 + tens % 10;
    assert tens / 10 == cents / 100;
  }

  lemma PrintedUnits(cents: nat)
    ensures var n := Decimal(Digits(cents / 100), [DigitChar(cents / 10 % 10), DigitChar(cents % 10)]);
      n.Valid() && n.Text() == InvoiceAmount(cents) && n.Units() == cents
  {
    var whole, a, b := Digits(cents / 100), DigitChar(cents / 10 % 10), DigitChar(cents % 10);
    TwoMoreDigits(whole, a, b);
    HundredthsSplit(cents);
    assert whole + [a, b] == whole + [a] + [b];
  }

  /** An invoice is paid for what it asked: parsing the printed amount gives the cents. */
  lemma PrintedAmountParses(cents: int)
    requires Representable(cents)
    ensures StrictAmount(InvoiceAmount(cents)) == Some(cents)
  {
    PrintedUnits(cents);
    ReadingIsComplete(Decimal(Digits(cents / 100), [DigitChar(cents / 10 % 10), DigitChar(cents % 10)]));
  }

  lemma TwoMoreDigits(s: string, a: char, b: char)
    requires AllDigits(s) && IsDigit(a) && IsDigit(b)
    ensures AllDigits(s + [a] + [b]) && Value(s + [a] + [b]) == Value(s) * 100 + DigitValue(a) * 10 + DigitValue(b)
  {
  }

  // ----- anomaly amounts -----

  function Zeros(n: nat): (s: string)
    ensures |s| == n && AllDigits(s)
  {
    if n == 0 then "" else Zeros(n - 1) + "0"
  }

  /** strings.TrimRight(s, "0"). */
  function TrimZeros(s: string): (r: string)
    ensures r <= s
    ensures AllDigits(s) <==> AllDigits(r)
    ensures |r| > 0 ==> r[|r| - 1] != '0'
  {
    if |s| > 0 && s[|s| - 1] == '0' then TrimZeros(s[..|s| - 1]) else s
  }

  /** A trailing zero is worth nothing. */
  lemma {:induction false} TrimmedWorth(whole: string, fraction: string, k: int)
    requires Decimal(whole, fraction).Valid() && k >= |fraction|
    ensures Decimal(whole, TrimZeros(fraction)).Valid()
    ensures Decimal(whole, TrimZeros(fraction)).Worth(k) == Decimal(whole, fraction).Worth(k)
  {
    if |fraction| > 0 && fraction[|fraction| - 1] == '0' {
      var front := fraction[..|fraction| - 1];
      TrimmedWorth(whole, front, k);
      assert Value(fraction) == Shift(Value(front), 1);
      ShiftTwice(Value(front), 1, k - |fraction|);
    }
  }

  lemma {:induction false} PaddedValue(s: string, n: nat)
    requires AllDigits(s)
    ensures AllDigits(s + Zeros(n)) && Value(s + Zeros(n)) == Shift(Value(s), n)
  {
    if n == 0 {
      assert s + Zeros(0) == s;
    } else {
      PaddedValue(s, n - 1);
      var t := s + Zeros(n);
      assert t[..|t| - 1] == s + Zeros(n - 1) && t[|t| - 1] == '0';
    }
  }

  /** Exactly the number w: units and worth agree at every power that makes both whole. */
  ghost predicate Equals(a: Scaled, w: Number)
    requires w.Valid()
  {
    forall k: int :: k >= a.scale && w.WholeAt(k) ==> Shift(a.units, k - a.scale) == w.Worth(k)
  }

  ghost predicate Denotes(w: Number, raw: string, a: Scaled) {
    w.Valid() && w.Text() == raw && Equals(a, w)
  }

  /** The exact positive amount `raw` writes, in the anomaly schema's units and scale. */
  ghost predicate Represents(raw: string, a: Scaled) {
    && Representable(a.units) && 0 <= a.scale <= 9
    && exists w: Number :: Denotes(w, raw, a)
  }

  /** A plain decimal the schema can hold once trailing zeros are dropped. */
  predicate Holdable(n: Decimal) {
    n.Valid() && |TrimZeros(n.fraction)| <= 9 && Representable(Decimal(n.whole, TrimZeros(n.fraction)).Units())
  }

  predicate HasExponentMark(raw: string) {
    'e' in raw || 'E' in raw
  }

  /** Units and scale of t stand for n when t is worth the same. */
  lemma SameWorth(n: Decimal, t: Decimal)
    requires n.Valid() && t.Valid() && |t.fraction| <= |n.fraction|
    requires forall k: int :: k >= |n.fraction| ==> t.Worth(k) == n.Worth(k)
    ensures Denotes(Plain(n), n.Text(), Scaled(t.Units(), |t.fraction|))
  {
    var a, w := Scaled(t.Units(), |t.fraction|), Plain(n);
    forall k: int | k >= a.scale && w.WholeAt(k) ensures Shift(a.units, k - a.scale) == w.Worth(k) {
      UnitsAreWorth(t, k);
      assert t.Worth(k) == n.Worth(k);
    }
  }

  lemma TrimmedDenotes(n: Decimal)
    requires n.Valid()
    ensures var t := Decimal(n.whole, TrimZeros(n.fraction));
      t.Valid() && Denotes(Plain(n), n.Text(), Scaled(t.Units(), |t.fraction|))
  {
    var t := Decimal(n.whole, TrimZeros(n.fraction));
    forall k: int | k >= |n.fraction| ensures t.Worth(k) == n.Worth(k) {
      TrimmedWorth(n.whole, n.fraction, k);
    }
    SameWorth(n, t);
  }

  /** A value that fits with its trailing zeros fits without them. */
  lemma {:induction false} TrimmedUnits(whole: string, fraction: string)
    requires Decimal(whole, fraction).Valid()
    ensures Decimal(whole, TrimZeros(fraction)).Valid()
    ensures Decimal(whole, TrimZeros(fraction)).Units() <= Decimal(whole, fraction).Units()
    ensures Decimal(whole, fraction).Units() > 0 ==> Decimal(whole, TrimZeros(fraction)).Units() > 0
  {
    if |fraction| > 0 && fraction[|fraction| - 1] == '0' {
      var front := fraction[..|fraction| - 1];
      TrimmedUnits(whole, front);
      var s := whole + fraction;
      assert s[..|s| - 1] == whole + front;
    }
  }

  /** normalizeAnomalyAmount on a text without an exponent mark. */
  function PlainAmount(raw: string): Option<Scaled> {
    match Reading(raw)
    case None => None
    case Some(n) =>
      if FixedAmount(raw, 9).Some? then FixedAmount(raw, 9)
      else FixedAmount(Decimal(n.whole, TrimZeros(n.fraction)).Text(), 9)
  }

  lemma PlainOfReading(n: Decimal)
    requires n.Valid()
    ensures PlainAmount(n.Text()).Some? <==> Holdable(n)
    ensures PlainAmount(n.Text()).Some? ==> Represents(n.Text(), PlainAmount(n.Text()).value)
  {
    var t := Decimal(n.whole, TrimZeros(n.fraction));
    ReadingIsComplete(n);
    TrimmedUnits(n.whole, n.fraction);
    ReadingIsComplete(t);
    TrimmedDenotes(n);
    SameWorth(n, n);
  }

  /** Without an exponent, exactly the decimals the schema can hold are normalised. */
  lemma PlainAmountIsExact(raw: string)
    ensures PlainAmount(raw).Some? <==> exists n: Decimal :: Holdable(n) && n.Text() == raw
    ensures PlainAmount(raw).Some? ==> Represents(raw, PlainAmount(raw).value)
  {
    if Reading(raw).Some? { PlainOfReading(Reading(raw).value); }
    if n: Decimal :| Holdable(n) && n.Text() == raw { PlainOfReading(n); }
  }

  method NormalizePlain(raw: string) returns (r: Option<Scaled>)
    requires FixedAmount(raw, 9).None?
    ensures r == PlainAmount(raw)
  {
    var dot := IndexOf(raw, '.');
    if dot > 0 && dot < |raw| - 1 && IndexOf(raw[dot + 1..], '.') < 0 {
      var fraction := TrimZeros(raw[dot + 1..]);
      if |fraction| <= 9 {
        var normalized := raw[..dot];
        if fraction != "" {
          normalized := normalized + "." + fraction;
        }
        assert normalized == Decimal(raw[..dot], fraction).Text();
        r := ParsePositiveFixedDecimal(normalized, 9);
        TrimmedReading(raw, dot);
        return r;
      }
      TrimmedReading(raw, dot);
    } else {
      NoTrimmedReading(raw, dot);
    }
    return None;
  }

  /** A text that parses after trimming was a decimal before. */
  lemma TrimmedReading(raw: string, dot: int)
    requires dot == IndexOf(raw, '.') && 0 < dot < |raw| - 1 && FixedAmount(raw, 9).None?
    ensures PlainAmount(raw) == FixedAmount(Decimal(raw[..dot], TrimZeros(raw[dot + 1..])).Text(), 9)
    ensures |TrimZeros(raw[dot + 1..])| > 9 ==> PlainAmount(raw).None?
  {
    var t := Decimal(raw[..dot], TrimZeros(raw[dot + 1..]));
    if Reading(raw).Some? {
      ReadingIsComplete(t);
    } else if Reading(t.Text()).Some? {
      TextSplits(raw[..dot], t.fraction);
      assert false;
    }
  }

  /** The digits before the first point are the whole part of any reading. */
  lemma TextSplits(whole: string, fraction: string)
    requires '.' !in whole && Reading(Decimal(whole, fraction).Text()).Some?
    ensures AllDigits(whole) && AllDigits(fraction)
  {
    var text := Decimal(whole, fraction).Text();
    if fraction != "" {
      assert text[|whole|] == '.';
      assert forall i :: 0 <= i < |whole| ==> text[i] == whole[i];
      assert IndexOf(text, '.') == |whole|;
      assert text[..|whole|] == whole && text[|whole| + 1..] == fraction;
    } else {
      assert IndexOf(text, '.') < 0;
    }
  }

  lemma NoTrimmedReading(raw: string, dot: int)
    requires dot == IndexOf(raw, '.') && FixedAmount(raw, 9).None?
    requires dot <= 0 || dot >= |raw| - 1 || '.' in raw[dot + 1..]
    ensures PlainAmount(raw).None?
  {
    if Reading(raw).Some? {
      var n := Reading(raw).value;
      assert dot < 0;
      assert n.Text() == raw && n.fraction == "";
    }
  }

  // ----- exponents -----

  /** strings.IndexAny(raw, "eE"). */
  function MarkAt(raw: string): (r: int)
    ensures -1 <= r < |raw|
    ensures r >= 0 ==> (raw[r] == 'e' || raw[r] == 'E') && !HasExponentMark(raw[..r])
    ensures r < 0 ==> !HasExponentMark(raw)
  {
    if |raw| == 0 then -1
    else
      var r := MarkAt(raw[..|raw| - 1]);
      if r >= 0 then r else if raw[|raw| - 1] == 'e' || raw[|raw| - 1] == 'E' then |raw| - 1 else -1
  }

  /** The power text after the mark: an optional sign and digits. */
  function ReadPower(text: string): Option<(string, string)> {
    if text == "" then None
    else if text[0] == '+' || text[0] == '-' then
      if |text| > 1 && AllDigits(text[1..]) then Some(([text[0]], text[1..])) else None
    else if AllDigits(text) then Some(("", text)) else None
  }

  /** A text with an exponent mark, read as a number. */
  function ReadScientific(raw: string): (r: Option<Number>)
    ensures r.Some? ==> r.value.Valid()
  {
    var at := MarkAt(raw);
    if at <= 0 || ReadPower(raw[at + 1..]).None? || Reading(raw[..at]).None? then None
    else
      var (sign, power) := ReadPower(raw[at + 1..]).value;
      Some(Scientific(Reading(raw[..at]).value, raw[at], sign, power))
  }

  /** The reading is of this text. */
  lemma ScientificText(raw: string)
    requires ReadScientific(raw).Some?
    ensures ReadScientific(raw).value.Text() == raw
  {
  }

  /** Dropping trailing zeros while the scale is too deep. */
  function DropZeros(digits: string, scale: int): (r: (string, int))
    requires AllDigits(digits)
    ensures AllDigits(r.0) && r.1 <= scale && (scale <= 9 ==> r.1 == scale) && (scale > 9 ==> r.1 >= 9)
    ensures Shift(Value(r.0), scale - r.1) == Value(digits)
  {
    if scale > 9 && digits != "" && digits[|digits| - 1] == '0' then
      var r := DropZeros(digits[..|digits| - 1], scale - 1);
      assert Shift(Value(r.0), scale - r.1) == Shift(Value(r.0), scale - 1 - r.1) * 10;
      r
    else (digits, scale)
  }

  /** digits + strings.Repeat("0", n). */
  function Padded(digits: string, n: nat): (r: string)
    requires AllDigits(digits)
    ensures AllDigits(r) && |r| == |digits| + n && Value(r) == Shift(Value(digits), n)
  {
    PaddedValue(digits, n);
    digits + Zeros(n)
  }

  /** The digits of a number and the scale its power leaves them at. */
  function PowerScale(w: Number): int
    requires w.Valid()
  {
    |w.n.fraction| - w.Exponent()
  }

  /** normalizeAnomalyAmount on a number with an exponent. */
  function ScientificAmount(w: Number): Option<Scaled>
    requires w.Valid()
  {
    var digits := w.n.whole + w.n.fraction;
    var scale := PowerScale(w);
    if !(-100 <= w.Exponent() <= 100) then None
    else if scale < 0 then
      if -scale > 18 || |digits| - scale > 19 then None else Bounded(Padded(digits, -scale), 0)
    else
      var (kept, left) := DropZeros(digits, scale);
      Bounded(kept, left)
  }

  function Bounded(digits: string, scale: int): Option<Scaled>
    requires AllDigits(digits)
  {
    if scale > 9 || !Representable(Value(digits)) then None else Some(Scaled(Value(digits), scale))
  }

  /** The power only moves the point: the answer is the number, exactly. */
  lemma ScientificIsExact(w: Number)
    requires w.Valid() && ScientificAmount(w).Some?
    ensures Represents(w.Text(), ScientificAmount(w).value)
  {
    var a := ScientificAmount(w).value;
    var digits, scale := w.n.whole + w.n.fraction, PowerScale(w);
    forall k: int | k >= a.scale && w.WholeAt(k) ensures Shift(a.units, k - a.scale) == w.Worth(k) {
      UnitsAreWorth(w.n, k + w.Exponent());
      if scale < 0 {
        ShiftTwice(Value(digits), -scale, k);
      } else {
        ShiftTwice(a.units, scale - a.scale, k - scale);
      }
    }
    assert Denotes(w, w.Text(), a);
  }

  /** What normalizeAnomalyAmount answers. */
  function AnomalyAmount(raw: string): Option<Scaled> {
    if !HasExponentMark(raw) then PlainAmount(raw)
    else match ReadScientific(raw)
      case None => None
      case Some(w) => ScientificAmount(w)
  }

  /** Exactness: whatever spelling is normalised, units and scale are the written value. */
  lemma AnomalyAmountIsExact(raw: string)
    ensures AnomalyAmount(raw).Some? ==> Represents(raw, AnomalyAmount(raw).value)
    ensures !HasExponentMark(raw) ==> (AnomalyAmount(raw).Some? <==> exists n: Decimal :: Holdable(n) && n.Text() == raw)
  {
    PlainAmountIsExact(raw);
    if ReadScientific(raw).Some? && ScientificAmount(ReadScientific(raw).value).Some? {
      ScientificText(raw);
      ScientificIsExact(ReadScientific(raw).value);
    }
  }

  method NormalizeAnomalyAmount(raw: string) returns (r: Option<Scaled>)
    ensures r == AnomalyAmount(raw)
  {
    r := ParsePositiveFixedDecimal(raw, 9);
    if r.Some? {
      return r;
    }
    if !HasExponentMark(raw) {
      r := NormalizePlain(raw);
      return r;
    }
    r := NormalizeScientific(raw);
  }

  /** strconv.Atoi of a power text. */
  function Atoi(text: string): int
    requires ReadPower(text).Some?
  {
    var (sign, power) := ReadPower(text).value;
    if sign == "-" then 0 - Value(power) else Value(power)
  }

  /** The digits of the mantissa and how many of them are fraction digits. */
  method ReadMantissa(mantissa: string) returns (ok: bool, digits: string, fractionDigits: int)
    requires mantissa != ""
    ensures ok == Reading(mantissa).Some?
    ensures ok ==> digits == Reading(mantissa).value.whole + Reading(mantissa).value.fraction
    ensures ok ==> fractionDigits == |Reading(mantissa).value.fraction|
  {
    var dot := IndexOf(mantissa, '.');
    digits, fractionDigits := mantissa, 0;
    if dot >= 0 {
      if dot == 0 || dot == |mantissa| - 1 || IndexOf(mantissa[dot + 1..], '.') >= 0 {
        return false, digits, fractionDigits;
      }
      fractionDigits := |mantissa| - dot - 1;
      digits := mantissa[..dot] + mantissa[dot + 1..];
      DigitsJoin(mantissa[..dot], mantissa[dot + 1..]);
    }
    assert mantissa + "" == mantissa;
    ok := OnlyDigits(digits);
  }

  /** The text after the mark has no further mark and is a sign and digits, at least one. */
  method IsPower(text: string) returns (ok: bool)
    ensures ok == ReadPower(text).Some?
  {
    if HasExponentMark(text) {
      MarkedPower(text);
      return false;
    }
    if text == "" {
      return false;
    }
    if text[0] == '+' || text[0] == '-' {
      if |text| == 1 {
        return false;
      }
    } else if text[0] < '0' || text[0] > '9' {
      return false;
    }
    assert IsDigit(text[0]) ==> (AllDigits(text) <==> AllDigits(text[1..])) by {
      assert forall i :: 0 < i < |text| ==> text[i] == text[1..][i - 1];
    }
    ok := OnlyDigits(text[1..]);
  }

  method NormalizeScientific(raw: string) returns (r: Option<Scaled>)
    requires HasExponentMark(raw)
    ensures r == AnomalyAmount(raw)
  {
    var at := MarkAt(raw);
    if at <= 0 {
      NoNumber(raw);
      return None;
    }
    var powered := IsPower(raw[at + 1..]);
    if !powered {
      NoNumber(raw);
      return None;
    }
    var exponent := Atoi(raw[at + 1..]);
    var ok, digits, fractionDigits := ReadMantissa(raw[..at]);
    if !ok {
      NoNumber(raw);
      return None;
    }
    ANumber(raw);
    if exponent < -100 || exponent > 100 {
      return None;
    }
    r := ScaleDigits(ReadScientific(raw).value, digits, fractionDigits - exponent);
  }

  predicate ReadsAsNumber(raw: string) {
    MarkAt(raw) > 0 && ReadPower(raw[MarkAt(raw) + 1..]).Some? && Reading(raw[..MarkAt(raw)]).Some?
  }

  lemma NoNumber(raw: string)
    requires HasExponentMark(raw) && !ReadsAsNumber(raw)
    ensures AnomalyAmount(raw) == None
  {
  }

  lemma ANumber(raw: string)
    requires HasExponentMark(raw) && ReadsAsNumber(raw)
    ensures ReadScientific(raw).Some? && AnomalyAmount(raw) == ScientificAmount(ReadScientific(raw).value)
    ensures ReadScientific(raw).value.n == Reading(raw[..MarkAt(raw)]).value
    ensures ReadScientific(raw).value.Exponent() == Atoi(raw[MarkAt(raw) + 1..])
  {
  }

  /** Moving the point: pad a negative scale, shed zeros beyond nine fraction digits. */
  method ScaleDigits(ghost w: Number, written: string, atScale: int) returns (r: Option<Scaled>)
    requires w.Valid() && written == w.n.whole + w.n.fraction && atScale == PowerScale(w) && -100 <= w.Exponent() <= 100
    ensures r == ScientificAmount(w)
  {
    var digits, scale := written, atScale;
    if scale < 0 {
      if -scale > 18 || |digits| - scale > 19 {
        return None;
      }
      digits := Padded(digits, -scale);
      scale := 0;
    }
    while scale > 9 && digits != "" && digits[|digits| - 1] == '0'
      invariant AllDigits(digits)
      invariant if atScale < 0 then scale == 0 && digits == Padded(written, -atScale)
                else DropZeros(digits, scale) == DropZeros(written, atScale)
    {
      digits := digits[..|digits| - 1];
      scale := scale - 1;
    }
    if scale > 9 {
      return None;
    }
    var units := Value(digits);
    if units > MAX_INT64 || units <= 0 {
      return None;
    }
    return Some(Scaled(units, scale));
  }

  /** A second exponent mark is no power. */
  lemma MarkedPower(text: string)
    requires HasExponentMark(text)
    ensures ReadPower(text).None?
  {
  }
}
