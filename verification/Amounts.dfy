/** Exact bank amounts as canonical decimal strings with at most five decimals. */
module Amounts {
  import opened Wrappers
  import opened Characters

  predicate AllDigits(s: string) {
    forall i :: 0 <= i < |s| ==> IsDigit(s[i])
  }

  function DigitOf(c: char): (d: nat)
    requires IsDigit(c)
    ensures d < 10
  {
    c as int - '0' as int
  }

  function CharOf(d: nat): (c: char)
    requires d < 10
    ensures IsDigit(c) && DigitOf(c) == d
  {
    (d + '0' as int) as char
  }

  /** The number a digit string spells. */
  function NatOf(s: string): nat
    requires AllDigits(s)
  {
    if s == "" then 0 else 10 * NatOf(s[..|s| - 1]) + DigitOf(s[|s| - 1])
  }

  /** The shortest digit string of a number. */
  function Digits(n: nat): (s: string)
    ensures |s| > 0 && AllDigits(s)
  {
    if n < 10 then [CharOf(n)] else Digits(n / 10) + [CharOf(n % 10)]
  }

  function Zeros(n: nat): (s: string)
    ensures |s| == n && AllDigits(s)
  {
    if n == 0 then "" else Zeros(n - 1) + "0"
  }

  function PadStart(s: string, width: nat): string {
    if |s| < width then Zeros(width - |s|) + s else s
  }

  function PadEnd(s: string, width: nat): string {
    if |s| < width then s + Zeros(width - |s|) else s
  }

  /** Leading zeros go, but the last digit stays. */
  function StripLeading(s: string): string {
    if |s| > 1 && s[0] == '0' then StripLeading(s[1..]) else s
  }

  function StripTrailing(s: string): (t: string)
    ensures t <= s && (t != "" ==> t[|t| - 1] != '0')
  {
    if s != "" && s[|s| - 1] == '0' then StripTrailing(s[..|s| - 1]) else s
  }

  // ----- The source's operations -----

  /** The text before the separator, or all of it. */
  function Before(s: string, separator: char): (r: string)
    ensures r <= s && separator !in r
    ensures |r| < |s| ==> s[|r|] == separator
  {
    if s == "" || s[0] == separator then "" else [s[0]] + Before(s[1..], separator)
  }

  /** The text between the first separator and the second, or none. */
  function Behind(s: string, separator: char): string {
    var head := Before(s, separator);
    if |head| < |s| then Before(s[|head| + 1..], separator) else ""
  }

  /** 1 to 15 digits, the separator, at most 5 digits. */
  predicate IsAmount(raw: string, separator: char) {
    var whole := Before(raw, separator);
    && |whole| < |raw|
    && AllDigits(whole) && 1 <= |whole| <= 15
    && AllDigits(raw[|whole| + 1..]) && |raw| - |whole| - 1 <= 5
  }

  function Unsigned(whole: string, fraction: string): string {
    StripLeading(whole) + if StripTrailing(fraction) != "" then "." + StripTrailing(fraction) else ""
  }

  function Signed(value: string, negative: bool): string {
    if negative && value != "0" then "-" + value else value
  }

  /** A raw MT940 amount as a canonical decimal. */
  function Decimal(raw: string, negative: bool): Result<string> {
    if !IsAmount(raw, ',') then Err("Invalid MT940 amount")
    else Ok(Signed(Unsigned(Before(raw, ','), Behind(raw, ',')), negative))
  }

  /** A decimal string this module's operations read: optional sign, digits, fraction. */
  predicate Readable(value: string) {
    var body := if |value| > 0 && value[0] == '-' then value[1..] else value;
    AllDigits(Before(body, '.')) && AllDigits(Behind(body, '.')) && |Before(body, '.')| > 0
  }

  /** Hundred-thousandths of a unit. */
  function Units(value: string): int
    requires Readable(value)
  {
    var negative := |value| > 0 && value[0] == '-';
    var body := if negative then value[1..] else value;
    var magnitude: int := NatOf(Before(body, '.') + PadEnd(Behind(body, '.'), 5));
    if negative then -magnitude else magnitude
  }

  function DecimalOf(value: int): string {
    var digits := PadStart(Digits(if value < 0 then -value else value), 6);
    var fraction := StripTrailing(digits[|digits| - 5..]);
    var text := digits[..|digits| - 5] + (if fraction != "" then "." + fraction else "");
    if value < 0 then "-" + text else text
  }

  /** A raw camt.053 amount: digits, with or without a dot and a fraction. */
  function CamtDecimal(raw: string, negative: bool): Result<string> {
    if IsAmount(raw, '.') then Decimal(Before(raw, '.') + "," + raw[|Before(raw, '.')| + 1..], negative)
    else if AllDigits(raw) && 1 <= |raw| <= 15 then Decimal(raw + ",", negative)
    else Err("Invalid camt.053 amount")
  }

  // ----- Digit strings -----

  function Pow10(n: nat): nat {
    if n == 0 then 1 else 10 * Pow10(n - 1)
  }

  lemma Shifted(a: int, p: int, c: int, d: int)
    ensures 10 * (a * p + c) + d == a * (10 * p) + (10 * c + d)
  {
  }

  lemma {:induction false} NatOfAppend(a: string, b: string)
    requires AllDigits(a) && AllDigits(b)
    ensures NatOf(a + b) == NatOf(a) * Pow10(|b|) + NatOf(b)
    decreases |b|
  {
    if b == "" {
      assert a + b == a;
    } else {
      var c, d := b[..|b| - 1], DigitOf(b[|b| - 1]);
      assert (a + b)[..|a + b| - 1] == a + c;
      NatOfAppend(a, c);
      assert NatOf(a + b) == 10 * NatOf(a + c) + d && NatOf(b) == 10 * NatOf(c) + d && Pow10(|b|) == 10 * Pow10(|c|);
      hide NatOf, Pow10, DigitOf;
      Shifted(NatOf(a), Pow10(|c|), NatOf(c), d);
    }
  }

  lemma {:induction false} NatOfZeros(n: nat)
    ensures NatOf(Zeros(n)) == 0
  {
    if n > 0 {
      assert Zeros(n)[..n - 1] == Zeros(n - 1);
      NatOfZeros(n - 1);
    }
  }

  lemma {:induction false} NatOfDigits(n: nat)
    ensures NatOf(Digits(n)) == n
  {
    if n >= 10 {
      NatOfDigits(n / 10);
      assert Digits(n)[..|Digits(n)| - 1] == Digits(n / 10);
    } else {
      assert Digits(n)[..0] == "";
    }
  }

  lemma {:induction false} ZerosBefore(n: nat, s: string)
    requires AllDigits(s)
    ensures NatOf(Zeros(n) + s) == NatOf(s)
    decreases |s|
  {
    if s == "" {
      assert Zeros(n) + s == Zeros(n);
      NatOfZeros(n);
    } else {
      var t := Zeros(n) + s;
      assert t[..|t| - 1] == Zeros(n) + s[..|s| - 1];
      ZerosBefore(n, s[..|s| - 1]);
    }
  }

  /** No leading zero, unless it is the only digit. */
  predicate Shortest(s: string) {
    AllDigits(s) && |s| > 0 && (|s| > 1 ==> s[0] != '0')
  }

  lemma {:induction false} DigitsShortest(n: nat)
    ensures Shortest(Digits(n)) && (n > 0 ==> Digits(n)[0] != '0')
  {
    if n >= 10 {
      DigitsShortest(n / 10);
    }
  }

  lemma {:induction false} ShortestIsDigits(s: string)
    requires Shortest(s)
    ensures Digits(NatOf(s)) == s
    decreases |s|
  {
    var c := s[..|s| - 1];
    if |s| == 1 {
      assert c == "";
      assert s == [s[0]];
    } else {
      ShortestIsDigits(c);
      assert NatOf(s) == 10 * NatOf(c) + DigitOf(s[|s| - 1]);
      assert Digits(0) == "0";
      assert NatOf(s) / 10 == NatOf(c) && NatOf(s) % 10 == DigitOf(s[|s| - 1]);
      assert s == c + [s[|s| - 1]];
    }
  }

  /** Padding the shortest digits back to the width gives the string itself. */
  lemma {:induction false} PaddedDigits(s: string, width: nat)
    requires AllDigits(s) && |s| >= width > 0 && (|s| > width ==> s[0] != '0')
    ensures PadStart(Digits(NatOf(s)), width) == s
    decreases |s|
  {
    if s[0] != '0' || |s| == 1 {
      ShortestIsDigits(s);
    } else {
      var t := s[1..];
      assert Zeros(1) == Zeros(0) + "0" == "0";
      assert s == Zeros(1) + t;
      ZerosBefore(1, t);
      hide NatOf, Digits, Zeros, AllDigits;
      PaddedDigits(t, width - 1);
      PadWider(Digits(NatOf(t)), width - 1);
    }
  }

  lemma PadWider(d: string, width: nat)
    requires |d| <= width
    ensures PadStart(d, width + 1) == "0" + PadStart(d, width)
  {
    ZerosFront(width - |d|);
    assert "0" + Zeros(width - |d|) + d == "0" + (Zeros(width - |d|) + d);
    assert Zeros(0) + d == d;
  }

  lemma {:induction false} ZerosFront(n: nat)
    ensures Zeros(n + 1) == "0" + Zeros(n)
  {
    if n > 0 {
      ZerosFront(n - 1);
    } else {
      assert Zeros(1) == Zeros(0) + "0";
    }
  }

  lemma {:induction false} StripPadEnd(f: string, n: nat)
    requires f == "" || f[|f| - 1] != '0'
    ensures StripTrailing(f + Zeros(n)) == f
    decreases n
  {
    if n == 0 {
      assert f + Zeros(0) == f;
    } else {
      assert (f + Zeros(n))[..|f| + n - 1] == f + Zeros(n - 1);
      StripPadEnd(f, n - 1);
    }
  }

  lemma {:induction false} PadStripped(s: string)
    ensures s == StripTrailing(s) + Zeros(|s| - |StripTrailing(s)|)
    decreases |s|
  {
    if s != "" && s[|s| - 1] == '0' {
      var c := s[..|s| - 1];
      PadStripped(c);
      assert s == c + "0";
      assert Zeros(|s| - |StripTrailing(s)|) == Zeros(|c| - |StripTrailing(c)|) + "0";
    } else {
      assert s + "" == s;
    }
  }

  // ----- Canonical decimals -----

  predicate IsFraction(f: string) {
    AllDigits(f) && |f| <= 5 && (f != "" ==> f[|f| - 1] != '0')
  }

  function Plain(whole: string, fraction: string): string {
    whole + if fraction != "" then "." + fraction else ""
  }

  function Compose(negative: bool, whole: string, fraction: string): string {
    if negative then "-" + Plain(whole, fraction) else Plain(whole, fraction)
  }

  /** Shortest whole part, no trailing zeros, no sign on zero. */
  ghost predicate Made(value: string, negative: bool, whole: string, fraction: string) {
    Shortest(whole) && IsFraction(fraction) && (negative ==> whole != "0" || fraction != "") && value == Compose(negative, whole, fraction)
  }

  ghost predicate Canonical(value: string) {
    exists negative, whole, fraction :: Made(value, negative, whole, fraction)
  }

  lemma {:induction false} BeforeDigits(whole: string, rest: string, separator: char)
    requires AllDigits(whole) && !IsDigit(separator) && (rest == "" || rest[0] == separator)
    ensures Before(whole + rest, separator) == whole
    decreases |whole|
  {
    if whole == "" {
      assert whole + rest == rest;
    } else {
      assert (whole + rest)[1..] == whole[1..] + rest;
      BeforeDigits(whole[1..], rest, separator);
      assert whole == [whole[0]] + whole[1..];
    }
  }

  lemma PlainParts(whole: string, fraction: string)
    requires AllDigits(whole) && AllDigits(fraction)
    ensures Before(Plain(whole, fraction), '.') == whole && Behind(Plain(whole, fraction), '.') == fraction
  {
    var s := Plain(whole, fraction);
    if fraction == "" {
      assert s == whole + "";
      BeforeDigits(whole, "", '.');
    } else {
      BeforeDigits(whole, "." + fraction, '.');
      assert s[|whole| + 1..] == fraction == fraction + "";
      BeforeDigits(fraction, "", '.');
    }
  }

  /** What a canonical decimal is worth. */
  lemma ComposedUnits(negative: bool, whole: string, fraction: string)
    requires Shortest(whole) && IsFraction(fraction)
    ensures var s := Compose(negative, whole, fraction);
      && Readable(s) && AllDigits(whole + PadEnd(fraction, 5))
      && var magnitude: int := NatOf(whole + PadEnd(fraction, 5));
         Units(s) == if negative then -magnitude else magnitude
  {
    PlainParts(whole, fraction);
    var s := Compose(negative, whole, fraction);
    assert negative ==> s[1..] == Plain(whole, fraction);
    assert !negative ==> s[0] == whole[0];
  }

  lemma PadEndFive(f: string)
    requires AllDigits(f) && |f| <= 5
    ensures |PadEnd(f, 5)| == 5 && AllDigits(PadEnd(f, 5)) && PadEnd(f, 5) == f + Zeros(5 - |f|)
  {
    assert f + Zeros(0) == f;
  }

  lemma {:induction false} AllZeros(s: string)
    requires AllDigits(s) && NatOf(s) == 0
    ensures s == Zeros(|s|)
    decreases |s|
  {
    if s != "" {
      AllZeros(s[..|s| - 1]);
      assert s == s[..|s| - 1] + [s[|s| - 1]];
    }
  }

  /** A canonical decimal that is worth nothing is `0`. */
  lemma ComposedZero(whole: string, fraction: string)
    requires Shortest(whole) && IsFraction(fraction) && AllDigits(whole + PadEnd(fraction, 5)) && NatOf(whole + PadEnd(fraction, 5)) == 0
    ensures whole == "0" && fraction == ""
  {
    PadEndFive(fraction);
    var s := whole + PadEnd(fraction, 5);
    assert forall i :: 0 <= i < |whole| ==> s[i] == whole[i];
    assert forall i :: 0 <= i < |fraction| ==> s[|whole| + i] == fraction[i];
    AllZeros(s);
    ZerosAre(|s|);
    assert |whole| == 1 ==> whole == [whole[0]];
  }

  lemma {:induction false} ZerosAre(n: nat)
    ensures forall i :: 0 <= i < n ==> Zeros(n)[i] == '0'
  {
    if n > 0 {
      ZerosAre(n - 1);
    }
  }

  /** The padded digits of a canonical decimal's worth split into its own parts. */
  lemma DigitsSplit(whole: string, fraction: string)
    requires Shortest(whole) && IsFraction(fraction)
    ensures AllDigits(whole + PadEnd(fraction, 5))
    ensures var d := PadStart(Digits(NatOf(whole + PadEnd(fraction, 5))), 6);
      |d| >= 5 && d[..|d| - 5] == whole && StripTrailing(d[|d| - 5..]) == fraction
  {
    hide NatOf, Digits, StripTrailing, Zeros, AllDigits, PadStart;
    PadEndFive(fraction);
    SixDigits(whole, PadEnd(fraction, 5));
    StripPadEnd(fraction, 5 - |fraction|);
  }

  lemma MadeRoundTrip(value: string, negative: bool, whole: string, fraction: string)
    requires Made(value, negative, whole, fraction)
    ensures Readable(value) && DecimalOf(Units(value)) == value
  {
    hide NatOf, Digits, StripTrailing, AllDigits, PadStart, PadEnd, Readable, Units, Shortest, IsFraction;
    ComposedUnits(negative, whole, fraction);
    DigitsSplit(whole, fraction);
    if NatOf(whole + PadEnd(fraction, 5)) == 0 {
      ComposedZero(whole, fraction);
    }
  }

  lemma SixDigits(whole: string, five: string)
    requires Shortest(whole) && AllDigits(five) && |five| == 5
    ensures AllDigits(whole + five) && PadStart(Digits(NatOf(whole + five)), 6) == whole + five
  {
    assert (whole + five)[0] == whole[0];
    PaddedDigits(whole + five, 6);
  }

  /** Every string the readers produce is canonical, and reading it back gives it again. */
  lemma DecimalOfUnits(value: string)
    requires Canonical(value)
    ensures Readable(value) && DecimalOf(Units(value)) == value
  {
    var negative, whole, fraction :| Made(value, negative, whole, fraction);
    MadeRoundTrip(value, negative, whole, fraction);
  }

  lemma {:induction false} StripLeadingShortest(s: string)
    requires AllDigits(s) && s != ""
    ensures Shortest(StripLeading(s)) && NatOf(StripLeading(s)) == NatOf(s)
    decreases |s|
  {
    if |s| > 1 && s[0] == '0' {
      StripLeadingShortest(s[1..]);
      assert Zeros(1) == Zeros(0) + "0" == "0";
      assert s == Zeros(1) + s[1..];
      ZerosBefore(1, s[1..]);
    }
  }

  lemma PartsOfDigits(n: nat)
    ensures var d := PadStart(Digits(n), 6);
      && |d| >= 6 && AllDigits(d) && NatOf(d) == n && Shortest(d[..|d| - 5])
  {
    DigitsShortest(n);
    NatOfDigits(n);
    if |Digits(n)| < 6 {
      var k := 6 - |Digits(n)|;
      ZerosBefore(k, Digits(n));
      var d := Zeros(k) + Digits(n);
      assert |d[..|d| - 5]| == 1;
    }
  }

  lemma StrippedFraction(five: string)
    requires AllDigits(five) && |five| == 5
    ensures IsFraction(StripTrailing(five)) && PadEnd(StripTrailing(five), 5) == five
  {
    PadStripped(five);
    hide StripTrailing, Zeros;
    var f := StripTrailing(five);
    assert forall i :: 0 <= i < |f| ==> f[i] == five[i];
  }

  lemma CutDigits(d: string)
    requires AllDigits(d) && |d| >= 6
    ensures AllDigits(d[..|d| - 5]) && AllDigits(d[|d| - 5..]) && d[..|d| - 5] + d[|d| - 5..] == d
  {
  }

  lemma MadeFromInteger(value: int)
    ensures exists whole, fraction ::
      && Made(DecimalOf(value), value < 0, whole, fraction) && AllDigits(whole + PadEnd(fraction, 5))
      && NatOf(whole + PadEnd(fraction, 5)) == if value < 0 then -value else value
  {
    hide NatOf, Digits, StripTrailing, PadStart, PadEnd, Shortest, IsFraction, AllDigits, Zeros;
    var n := if value < 0 then -value else value;
    PartsOfDigits(n);
    var d := PadStart(Digits(n), 6);
    var whole, five := d[..|d| - 5], d[|d| - 5..];
    CutDigits(d);
    StrippedFraction(five);
    var fraction := StripTrailing(five);
    if whole == "0" && fraction == "" {
      WorthOfZero();
    }
    assert Made(DecimalOf(value), value < 0, whole, fraction);
  }

  /** Printing any amount gives a canonical decimal worth exactly that amount. */
  lemma UnitsOfDecimal(value: int)
    ensures Canonical(DecimalOf(value)) && Readable(DecimalOf(value)) && Units(DecimalOf(value)) == value
  {
    MadeFromInteger(value);
    var whole, fraction :| Made(DecimalOf(value), value < 0, whole, fraction) && AllDigits(whole + PadEnd(fraction, 5))
      && NatOf(whole + PadEnd(fraction, 5)) == if value < 0 then -value else value;
    hide DecimalOf, NatOf;
    ComposedUnits(value < 0, whole, fraction);
  }

  /** Equal amounts have equal strings. */
  lemma CanonicalUnique(a: string, b: string)
    requires Canonical(a) && Canonical(b)
    ensures Readable(a) && Readable(b)
    ensures Units(a) == Units(b) <==> a == b
  {
    hide Canonical, Units, DecimalOf, Readable;
    DecimalOfUnits(a);
    DecimalOfUnits(b);
  }

  lemma NoSignedZero(value: string)
    requires Canonical(value)
    ensures value != "-0"
  {
    var negative, whole, fraction :| Made(value, negative, whole, fraction);
    assert negative ==> value[1..] == Plain(whole, fraction);
    assert !negative ==> value[0] == whole[0];
  }

  /** Zero has one string, and it has no sign. */
  lemma ZeroIsUnsigned(value: string)
    requires Canonical(value)
    ensures Readable(value) && (Units(value) == 0 <==> value == "0") && value != "-0"
  {
    UnitsOfDecimal(0);
    assert DecimalOf(0) == "0" by {
      MadeFromInteger(0);
      var whole, fraction :| Made(DecimalOf(0), false, whole, fraction) && AllDigits(whole + PadEnd(fraction, 5)) && NatOf(whole + PadEnd(fraction, 5)) == 0;
      ComposedZero(whole, fraction);
    }
    hide DecimalOf, Units;
    CanonicalUnique(value, "0");
    NoSignedZero(value);
  }

  // ----- What the readers accept -----

  /** The hundred-thousandths that digits before and after a separator stand for. */
  function Worth(whole: string, fraction: string): int
    requires AllDigits(whole) && AllDigits(fraction) && |fraction| <= 5
  {
    NatOf(whole) * Pow10(5) + NatOf(fraction) * Pow10(5 - |fraction|)
  }

  function FractionOf(raw: string, separator: char): (r: string)
    requires IsAmount(raw, separator)
    ensures AllDigits(r) && |r| <= 5
  {
    raw[|Before(raw, separator)| + 1..]
  }

  lemma AmountParts(raw: string)
    requires IsAmount(raw, ',')
    ensures Behind(raw, ',') == FractionOf(raw, ',') && AllDigits(Before(raw, ',')) && Before(raw, ',') != ""
  {
    var f := FractionOf(raw, ',');
    assert f == f + "";
    BeforeDigits(f, "", ',');
  }

  lemma NatOfPadEnd(f: string)
    requires AllDigits(f) && |f| <= 5
    ensures AllDigits(PadEnd(f, 5)) && NatOf(PadEnd(f, 5)) == NatOf(f) * Pow10(5 - |f|)
  {
    hide NatOf, Pow10, Zeros, PadEnd, AllDigits;
    PadEndFive(f);
    NatOfAppend(f, Zeros(5 - |f|));
    NatOfZeros(5 - |f|);
  }

  lemma WorthPadded(whole: string, fraction: string)
    requires AllDigits(whole) && AllDigits(fraction) && |fraction| <= 5
    ensures AllDigits(whole + PadEnd(fraction, 5)) && NatOf(whole + PadEnd(fraction, 5)) == Worth(whole, fraction)
  {
    PadEndFive(fraction);
    NatOfPadEnd(fraction);
    NatOfAppend(whole, PadEnd(fraction, 5));
  }

  lemma {:induction false} StripTrailingWorth(f: string)
    requires AllDigits(f) && |f| <= 5
    ensures IsFraction(StripTrailing(f)) && PadEnd(StripTrailing(f), 5) == PadEnd(f, 5)
  {
    PadStripped(f);
    var t := StripTrailing(f);
    assert forall i :: 0 <= i < |t| ==> t[i] == f[i];
    PadEndFive(f);
    PadEndFive(t);
    ZerosAdd(|f| - |t|, 5 - |f|);
    assert (t + Zeros(|f| - |t|)) + Zeros(5 - |f|) == t + (Zeros(|f| - |t|) + Zeros(5 - |f|));
  }

  lemma {:induction false} ZerosAdd(a: nat, b: nat)
    ensures Zeros(a) + Zeros(b) == Zeros(a + b)
    decreases b
  {
    if b == 0 {
      assert Zeros(a) + "" == Zeros(a);
    } else {
      ZerosAdd(a, b - 1);
      assert Zeros(a) + (Zeros(b - 1) + "0") == (Zeros(a) + Zeros(b - 1)) + "0";
    }
  }

  lemma UnsignedWorth(whole: string, fraction: string)
    requires AllDigits(whole) && whole != "" && AllDigits(fraction) && |fraction| <= 5
    ensures var w, f := StripLeading(whole), StripTrailing(fraction);
      && Shortest(w) && IsFraction(f) && Unsigned(whole, fraction) == Plain(w, f)
      && AllDigits(w + PadEnd(f, 5)) && NatOf(w + PadEnd(f, 5)) == Worth(whole, fraction)
  {
    StripLeadingShortest(whole);
    StripTrailingWorth(fraction);
    WorthPadded(whole, fraction);
    WorthPadded(StripLeading(whole), fraction);
  }

  lemma SignedIsMade(whole: string, fraction: string, negative: bool)
    requires Shortest(whole) && IsFraction(fraction)
    ensures var zero := whole == "0" && fraction == ""; Made(Signed(Plain(whole, fraction), negative), negative && !zero, whole, fraction)
  {
    PlainZero(whole, fraction);
  }

  lemma PlainZero(whole: string, fraction: string)
    requires Shortest(whole) && IsFraction(fraction)
    ensures Plain(whole, fraction) == "0" <==> whole == "0" && fraction == ""
  {
    PlainParts(whole, fraction);
    assert |Plain(whole, fraction)| >= |whole| + |fraction|;
    assert Plain(whole, fraction)[0] == whole[0];
    assert |whole| == 1 ==> whole == [whole[0]];
  }

  /** A raw amount is read as the canonical decimal worth exactly what its digits say. */
  lemma DecimalIsExact(raw: string, negative: bool)
    ensures Decimal(raw, negative).Ok? <==> IsAmount(raw, ',')
    ensures Decimal(raw, negative).Ok? ==>
      && Canonical(Decimal(raw, negative).value) && Readable(Decimal(raw, negative).value)
      && var worth := Worth(Before(raw, ','), FractionOf(raw, ','));
         Units(Decimal(raw, negative).value) == if negative then -worth else worth
  {
    if IsAmount(raw, ',') {
      var whole, fraction := Before(raw, ','), FractionOf(raw, ',');
      AmountParts(raw);
      hide Units, Readable, Worth, NatOf, Shortest, IsFraction, FractionOf, Before, IsAmount, StripLeading, StripTrailing;
      UnsignedWorth(whole, fraction);
      var w, f := StripLeading(whole), StripTrailing(fraction);
      SignedIsMade(w, f, negative);
      var zero := w == "0" && f == "";
      ComposedUnits(negative && !zero, w, f);
      if zero {
        WorthOfZero();
      }
    }
  }

  lemma WorthOfZero()
    ensures AllDigits("0" + PadEnd("", 5)) && NatOf("0" + PadEnd("", 5)) == 0
  {
    assert "" + Zeros(5) == Zeros(5);
    ZerosFront(5);
    NatOfZeros(6);
  }

  /** The digits a camt.053 amount spells. */
  function CamtWorth(raw: string): int
    requires IsAmount(raw, '.') || AllDigits(raw)
  {
    if IsAmount(raw, '.') then Worth(Before(raw, '.'), FractionOf(raw, '.')) else Worth(raw, "")
  }

  lemma AfterComma(raw: string, whole: string, fraction: string)
    requires raw == whole + "," + fraction && Before(raw, ',') == whole
    requires AllDigits(whole) && 1 <= |whole| <= 15 && AllDigits(fraction) && |fraction| <= 5
    ensures IsAmount(raw, ',') && FractionOf(raw, ',') == fraction
  {
    hide NatOf, Pow10, Zeros, Before;
    assert raw[|whole| + 1..] == fraction;
  }

  lemma CommaForm(whole: string, fraction: string)
    requires AllDigits(whole) && 1 <= |whole| <= 15 && AllDigits(fraction) && |fraction| <= 5
    ensures IsAmount(whole + "," + fraction, ',')
    ensures Before(whole + "," + fraction, ',') == whole && FractionOf(whole + "," + fraction, ',') == fraction
  {
    hide NatOf, Pow10, Zeros, Before;
    var tail := "," + fraction;
    var raw := whole + "," + fraction;
    assert raw == whole + tail;
    BeforeDigits(whole, tail, ',');
    AfterComma(raw, whole, fraction);
  }

  /** A dotted amount is read as its comma form. */
  lemma CamtForm(dotted: string, n: bool) returns (comma: string)
    requires CamtDecimal(dotted, n).Ok?
    ensures (IsAmount(dotted, '.') || AllDigits(dotted)) && IsAmount(comma, ',')
    ensures CamtDecimal(dotted, n) == Decimal(comma, n) && CamtWorth(dotted) == Worth(Before(comma, ','), FractionOf(comma, ','))
  {
    hide Worth, Unsigned, Signed;
    if IsAmount(dotted, '.') {
      comma := Before(dotted, '.') + "," + FractionOf(dotted, '.');
      CommaForm(Before(dotted, '.'), FractionOf(dotted, '.'));
    } else {
      comma := dotted + ",";
      CommaForm(dotted, "");
      assert dotted + "," + "" == comma;
    }
  }

  /** The two formats agree: one amount, written with a dot or with a comma, is read
      as one string, and different amounts as different strings. */
  lemma FormatsAgree(dotted: string, comma: string, n: bool, m: bool)
    requires CamtDecimal(dotted, n).Ok? && Decimal(comma, m).Ok?
    ensures (IsAmount(dotted, '.') || AllDigits(dotted)) && IsAmount(comma, ',')
    ensures var a, b := CamtWorth(dotted), Worth(Before(comma, ','), FractionOf(comma, ','));
      CamtDecimal(dotted, n) == Decimal(comma, m) <==> (if n then -a else a) == (if m then -b else b)
  {
    hide Canonical, Units, Readable, Worth, CamtWorth, IsAmount, AllDigits, Before, FractionOf, CamtDecimal, Decimal;
    var form := CamtForm(dotted, n);
    DecimalIsExact(form, n);
    DecimalIsExact(comma, m);
    CanonicalUnique(CamtDecimal(dotted, n).value, Decimal(comma, m).value);
  }

  /** 1 to 15 digits and at most 5 decimals. */
  predicate Spells(whole: string, fraction: string) {
    AllDigits(whole) && 1 <= |whole| <= 15 && AllDigits(fraction) && |fraction| <= 5
  }

  ghost predicate SpelledAs(raw: string, separator: char, whole: string, fraction: string) {
    Spells(whole, fraction) && raw == whole + [separator] + fraction
  }

  lemma AmountsAreSpelled(raw: string, separator: char)
    requires !IsDigit(separator)
    ensures IsAmount(raw, separator) <==> exists whole, fraction :: SpelledAs(raw, separator, whole, fraction)
  {
    if IsAmount(raw, separator) {
      var n := |Before(raw, separator)|;
      assert raw == raw[..n] + [raw[n]] + raw[n + 1..];
      assert SpelledAs(raw, separator, Before(raw, separator), raw[n + 1..]);
    }
    forall whole, fraction | SpelledAs(raw, separator, whole, fraction) ensures IsAmount(raw, separator) {
      assert raw == whole + ([separator] + fraction);
      BeforeDigits(whole, [separator] + fraction, separator);
      assert raw[|whole| + 1..] == fraction;
    }
  }

  /** A camt.053 amount is 1 to 15 digits, and perhaps a dot and at most 5 decimals. */
  lemma CamtAmountsExactly(raw: string, negative: bool)
    ensures CamtDecimal(raw, negative).Ok? <==> Spells(raw, "") || exists whole, fraction :: SpelledAs(raw, '.', whole, fraction)
  {
    AmountsAreSpelled(raw, '.');
    if IsAmount(raw, '.') {
      var n := |Before(raw, '.')|;
      var form := Before(raw, '.') + "," + raw[n + 1..];
      assert SpelledAs(form, ',', Before(raw, '.'), raw[n + 1..]);
      AmountsAreSpelled(form, ',');
    } else if Spells(raw, "") {
      assert raw + "," == raw + [','] + "";
      assert SpelledAs(raw + ",", ',', raw, "");
      AmountsAreSpelled(raw + ",", ',');
    }
    hide Before, Signed, Unsigned, Behind;
  }
}
