/** The days, balances and transaction lines an MT940 file spells, and that each is read as what it spells. */
module Mt940Lines {
  import opened Wrappers
  import opened Characters
  import opened BankIdentity
  import opened Mt940
  import A = Amounts

  // ----- Days -----

  datatype Day = Day(year: nat, month: nat, day: nat)

  const LENGTHS: seq<nat> := [31, 28, 31, 30, 31, 30, 31, 31, 30, 31, 30, 31]

  predicate Leap(year: nat) {
    year % 400 == 0 || (year % 4 == 0 && year % 100 != 0)
  }

  predicate InCalendar(d: Day) {
    1 <= d.month <= 12 && 1 <= d.day <= LENGTHS[d.month - 1] + (if d.month == 2 && Leap(d.year) then 1 else 0)
  }

  /** The hundred years two digits can name. */
  predicate InWindow(year: int) {
    1970 <= year < 2070
  }

  function Two(n: nat): (s: string)
    requires n < 100
    ensures |s| == 2
  {
    [A.CharOf(n / 10), A.CharOf(n % 10)]
  }

  function Short(d: Day): (s: string)
    requires InCalendar(d)
    ensures |s| == 6
  {
    Two(d.year % 100) + Two(d.month) + Two(d.day)
  }

  function Iso(d: Day): string
    requires InCalendar(d)
  {
    A.Digits(d.year) + "-" + Two(d.month) + "-" + Two(d.day)
  }

  lemma TwoIsNumber(n: nat)
    requires n < 100
    ensures A.AllDigits(Two(n)) && A.NatOf(Two(n)) == n
  {
    var s := Two(n);
    assert s[..1][..0] == "";
    assert A.NatOf(s[..1]) == n / 10;
  }

  lemma NumberIsTwo(s: string)
    requires |s| == 2 && A.AllDigits(s)
    ensures A.NatOf(s) < 100 && s == Two(A.NatOf(s))
  {
    assert s[..1][..0] == "";
    assert A.NatOf(s[..1]) == A.DigitOf(s[0]);
    var n := A.NatOf(s);
    assert n == 10 * A.DigitOf(s[0]) + A.DigitOf(s[1]);
    assert n / 10 == A.DigitOf(s[0]) && n % 10 == A.DigitOf(s[1]);
  }

  lemma ShortParts(d: Day)
    requires InCalendar(d)
    ensures var raw := Short(d);
      && A.AllDigits(raw)
      && raw[0..2] == Two(d.year % 100) && raw[2..4] == Two(d.month) && raw[4..6] == Two(d.day)
  {
    TwoIsNumber(d.year % 100);
    TwoIsNumber(d.month);
    TwoIsNumber(d.day);
  }

  lemma LeapRule(year: nat)
    ensures Leap(year) <==> year % 4 == 0 && (year % 100 != 0 || year % 400 == 0)
  {
    if year % 400 == 0 {
      assert year == 4 * (100 * (year / 400));
    }
  }

  lemma DaysAgree(year: nat, month: nat)
    requires 1 <= month <= 12
    ensures DaysIn(year, month) == LENGTHS[month - 1] + (if month == 2 && Leap(year) then 1 else 0)
  {
    LeapRule(year);
    hide Leap;
  }

  lemma DayReads(d: Day)
    requires InCalendar(d) && InWindow(d.year)
    ensures IsDate(Short(d)) && FullYear(Short(d)) == d.year && DateOf(Short(d)) == Ok(Iso(d))
  {
    hide Short, Two, A.NatOf, A.AllDigits, A.Digits, DaysIn, Leap;
    ShortParts(d);
    TwoIsNumber(d.year % 100);
    TwoIsNumber(d.month);
    TwoIsNumber(d.day);
    DaysAgree(d.year, d.month);
  }

  lemma DayIsRead(raw: string) returns (d: Day)
    requires IsDate(raw)
    ensures InCalendar(d) && InWindow(d.year) && raw == Short(d)
  {
    NumberIsTwo(raw[0..2]);
    NumberIsTwo(raw[2..4]);
    NumberIsTwo(raw[4..6]);
    d := Day(FullYear(raw), A.NatOf(raw[2..4]), A.NatOf(raw[4..6]));
    DaysAgree(d.year, d.month);
    assert d.year % 100 == A.NatOf(raw[0..2]);
    assert raw == raw[0..2] + raw[2..4] + raw[4..6];
  }

  /** Six digits are read exactly when they spell a calendar day from 1970 to 2069, and as that day. */
  lemma DatesAreDays(raw: string, iso: string)
    ensures DateOf(raw) == Ok(iso) <==> exists d :: InCalendar(d) && InWindow(d.year) && raw == Short(d) && iso == Iso(d)
  {
    hide Short, Iso, IsDate;
    if DateOf(raw) == Ok(iso) {
      var d := DayIsRead(raw);
      DayReads(d);
    }
    forall d | InCalendar(d) && InWindow(d.year) && raw == Short(d) && iso == Iso(d) ensures DateOf(raw) == Ok(iso) {
      DayReads(d);
    }
  }

  // ----- Booking days -----

  /** The year that puts the two months at most six apart; the same year where that leaves a choice. */
  predicate NearestYear(value: Day, month: nat, year: int) {
    var apart := 12 * (year - value.year) + month - value.month;
    -6 <= apart <= 6 && (month - value.month == 6 || value.month - month == 6 ==> year == value.year)
  }

  /** The booking day: of the nearest year, as two digits name it. */
  ghost predicate BookedOn(value: Day, month: nat, day: nat, booked: Day) {
    && booked.month == month && booked.day == day && InWindow(booked.year)
    && exists year: int :: NearestYear(value, month, year) && year % 100 == booked.year % 100
  }

  lemma YearsAgree(value: Day, month: nat, day: nat, booked: Day, shifted: int)
    requires InWindow(value.year) && 1 <= value.month <= 12 && 1 <= month <= 12
    requires BookedOn(value, month, day, booked)
    requires shifted == value.year + if month - value.month > 6 then -1 else if value.month - month > 6 then 1 else 0
    ensures shifted >= 0 && shifted % 100 == booked.year % 100
  {
    var year: int :| NearestYear(value, month, year) && year % 100 == booked.year % 100;
    assert year == shifted;
  }

  lemma PaddedTwo(n: nat)
    requires n < 100
    ensures A.PadStart(A.Digits(n), 2) == Two(n)
  {
    TwoIsNumber(n);
    A.PaddedDigits(Two(n), 2);
    hide A.PadStart, Two;
  }

  /** A booking day is read as the day of the nearest year. */
  lemma BookingReads(value: Day, month: nat, day: nat, booked: Day)
    requires InCalendar(value) && InWindow(value.year) && BookedOn(value, month, day, booked) && InCalendar(booked)
    ensures |Two(month) + Two(day)| == 4 && A.AllDigits(Two(month) + Two(day)) && IsDate(Short(value))
    ensures BookingDate(Short(value), Two(month) + Two(day)) == Ok(Iso(booked))
  {
    DayReads(value);
    DayReads(booked);
    ShortParts(value);
    TwoIsNumber(month);
    TwoIsNumber(day);
    TwoIsNumber(value.month);
    var booking := Two(month) + Two(day);
    assert booking[0..2] == Two(month);
    hide Two, Iso, DateOf, A.NatOf, A.PadStart, A.Digits, A.AllDigits, BookedOn, IsDate;
    var shifted: int := value.year + if month - value.month > 6 then -1 else if value.month - month > 6 then 1 else 0;
    YearsAgree(value, month, day, booked, shifted);
    BookedParts(value, month, day, booked);
    PaddedTwo(shifted % 100);
    assert Two(shifted % 100) + booking == Two(booked.year % 100) + Two(month) + Two(day);
  }

  lemma BookedParts(value: Day, month: nat, day: nat, booked: Day)
    requires BookedOn(value, month, day, booked)
    ensures booked.month == month && booked.day == day
  {
  }

  // ----- Amounts -----

  /** An amount as it is written, with a decimal comma. */
  datatype Figure = Figure(whole: string, fraction: string)

  predicate Spelled(f: Figure) {
    A.AllDigits(f.whole) && 1 <= |f.whole| <= 15 && A.AllDigits(f.fraction) && |f.fraction| <= 5
  }

  function Written(f: Figure): string {
    f.whole + "," + f.fraction
  }

  /** The text is the canonical decimal of the figure's worth, or of minus its worth. */
  ghost predicate Amounts(amount: string, f: Figure, negative: bool)
    requires Spelled(f)
  {
    && A.Canonical(amount) && A.Readable(amount)
    && A.Units(amount) == if negative then -A.Worth(f.whole, f.fraction) else A.Worth(f.whole, f.fraction)
  }

  predicate NoDigitFirst(rest: string) {
    rest == "" || !IsDigit(rest[0])
  }

  lemma {:induction false} RunOfDigits(digits: string, rest: string)
    requires A.AllDigits(digits) && NoDigitFirst(rest)
    ensures DigitRun(digits + rest) == |digits|
    decreases |digits|
  {
    if digits != "" {
      assert (digits + rest)[1..] == digits[1..] + rest;
      RunOfDigits(digits[1..], rest);
    } else {
      assert digits + rest == rest;
    }
  }

  lemma FigureRun(f: Figure, rest: string)
    requires Spelled(f) && NoDigitFirst(rest)
    ensures AmountRun(Written(f) + rest) == |Written(f)|
  {
    var tail := "," + f.fraction + rest;
    assert Written(f) + rest == f.whole + tail;
    RunOfDigits(f.whole, tail);
    assert (Written(f) + rest)[|f.whole| + 1..] == f.fraction + rest;
    RunOfDigits(f.fraction, rest);
    hide DigitRun;
  }

  lemma FigureIsAmount(f: Figure)
    requires Spelled(f)
    ensures A.IsAmount(Written(f), ',') && A.Before(Written(f), ',') == f.whole && A.FractionOf(Written(f), ',') == f.fraction
  {
    var tail := "," + f.fraction;
    assert Written(f) == f.whole + tail;
    A.BeforeDigits(f.whole, tail, ',');
    assert Written(f)[|f.whole| + 1..] == f.fraction;
    hide A.Before;
  }

  lemma FigureReads(f: Figure, negative: bool)
    requires Spelled(f)
    ensures A.Decimal(Written(f), negative).Ok? && Amounts(A.Decimal(Written(f), negative).value, f, negative)
  {
    FigureIsAmount(f);
    A.DecimalIsExact(Written(f), negative);
    hide A.Decimal, A.Canonical, A.Units, A.Readable, A.Worth, A.Before;
  }

  lemma AmountIsFigure(raw: string) returns (f: Figure)
    requires A.IsAmount(raw, ',')
    ensures Spelled(f) && raw == Written(f)
  {
    f := Figure(A.Before(raw, ','), raw[|A.Before(raw, ',')| + 1..]);
    assert raw == raw[..|f.whole|] + [raw[|f.whole|]] + raw[|f.whole| + 1..];
  }

  // ----- Balances -----

  function BalanceText(negative: bool, d: Day, currency: string, f: Figure): string
    requires InCalendar(d)
  {
    (if negative then "D" else "C") + Short(d) + currency + Written(f)
  }

  ghost predicate SpellsBalance(value: string, b: Balance, negative: bool, d: Day, f: Figure) {
    && InCalendar(d) && InWindow(d.year) && Spelled(f) && IsCurrency(b.currency)
    && value == BalanceText(negative, d, b.currency, f)
    && b.date == Iso(d) && Amounts(b.amount, f, negative)
  }

  lemma BalanceParts(negative: bool, d: Day, currency: string, f: Figure)
    requires InCalendar(d) && |currency| == 3
    ensures var value := BalanceText(negative, d, currency, f);
      |value| >= 10 && value[0] == (if negative then 'D' else 'C') && value[1..7] == Short(d) && value[7..10] == currency && value[10..] == Written(f)
  {
    hide Short, Written;
  }

  lemma BalanceSteps(value: string)
    ensures BalanceOf(value).Ok? <==>
      && |value| >= 10 && (value[0] == 'C' || value[0] == 'D') && DigitsAt(value, 1, 6) && IsCurrency(value[7..10])
      && AmountRun(value[10..]) > 0 && AmountRun(value[10..]) == |value| - 10
      && DateOf(value[1..7]).Ok? && A.Decimal(value[10..], value[0] == 'D').Ok?
    ensures BalanceOf(value).Ok? ==>
      BalanceOf(value).value == Balance(DateOf(value[1..7]).value, value[7..10], A.Decimal(value[10..], value[0] == 'D').value)
  {
    hide DateOf, A.Decimal, AmountRun, DigitsAt, IsCurrency;
  }

  /** A balance is read as it is spelled: credit positive, debit negative. */
  lemma BalanceReads(negative: bool, d: Day, currency: string, f: Figure)
    requires InCalendar(d) && InWindow(d.year) && Spelled(f) && IsCurrency(currency)
    ensures var value := BalanceText(negative, d, currency, f);
      BalanceOf(value).Ok? && SpellsBalance(value, BalanceOf(value).value, negative, d, f) && BalanceOf(value).value.currency == currency
  {
    var value := BalanceText(negative, d, currency, f);
    assert |currency| == 3 && |Written(f)| > 0;
    ShortParts(d);
    DayReads(d);
    BalanceParts(negative, d, currency, f);
    assert DigitsAt(value, 1, 6);
    hide *;
    FigureRun(f, "");
    FigureReads(f, negative);
    BalanceSteps(value);
    assert Written(f) + "" == Written(f);
    assert |value[10..]| == |value| - 10;
    SpelledBalance(value, BalanceOf(value).value, negative, d, f);
  }

  lemma SpelledBalance(value: string, b: Balance, negative: bool, d: Day, f: Figure)
    requires InCalendar(d) && InWindow(d.year) && Spelled(f) && IsCurrency(b.currency)
    requires value == BalanceText(negative, d, b.currency, f) && b.date == Iso(d) && Amounts(b.amount, f, negative)
    ensures SpellsBalance(value, b, negative, d, f)
  {
  }

  lemma WholeRunIsAmount(raw: string)
    requires A.Decimal(raw, false).Ok? || A.Decimal(raw, true).Ok?
    ensures A.IsAmount(raw, ',')
  {
    hide A.IsAmount;
  }

  lemma OnlyDates(raw: string)
    ensures DateOf(raw).Ok? ==> IsDate(raw)
  {
    hide IsDate;
  }

  lemma BalanceTextOf(value: string, negative: bool, d: Day, f: Figure)
    requires |value| >= 10 && value[0] == (if negative then 'D' else 'C') && InCalendar(d) && value[1..7] == Short(d) && value[10..] == Written(f)
    ensures value == BalanceText(negative, d, value[7..10], f)
  {
    hide Short, Written;
    assert value == value[..1] + value[1..7] + value[7..10] + value[10..];
  }

  lemma SameAmount(a: string, b: string, f: Figure, negative: bool)
    requires Spelled(f) && Amounts(a, f, negative) && Amounts(b, f, negative)
    ensures a == b
  {
    A.CanonicalUnique(a, b);
    hide A.Canonical, A.Readable, A.Units, A.Worth;
  }

  /** A text is a balance exactly when it is spelled like one, and it is read as what it spells. */
  lemma BalancesExactly(value: string, b: Balance)
    ensures BalanceOf(value) == Ok(b) <==> exists negative, d, f :: SpellsBalance(value, b, negative, d, f)
  {
    hide *;
    if BalanceOf(value) == Ok(b) {
      BalanceSteps(value);
      var negative := value[0] == 'D';
      WholeRunIsAmount(value[10..]);
      OnlyDates(value[1..7]);
      var d := DayIsRead(value[1..7]);
      var f := AmountIsFigure(value[10..]);
      DayReads(d);
      FigureReads(f, negative);
      BalanceTextOf(value, negative, d, f);
      SpelledBalance(value, b, negative, d, f);
    }
    forall negative, d, f | SpellsBalance(value, b, negative, d, f) ensures BalanceOf(value) == Ok(b) {
      SpelledIsRead(value, b, negative, d, f);
    }
  }

  lemma SpelledIsRead(value: string, b: Balance, negative: bool, d: Day, f: Figure)
    requires SpellsBalance(value, b, negative, d, f)
    ensures BalanceOf(value) == Ok(b)
  {
    BalanceReads(negative, d, b.currency, f);
    SameAmount(b.amount, BalanceOf(value).value.amount, f, negative);
    hide BalanceOf, Amounts, BalanceText, Short, Iso;
  }

  // ----- Transaction lines -----

  /** A credit or a debit, or the reversal of one. */
  datatype Sign = Credit | Debit | CreditReversed | DebitReversed

  function SignText(s: Sign): string {
    match s
    case Credit => "C"
    case Debit => "D"
    case CreditReversed => "RC"
    case DebitReversed => "RD"
  }

  /** Money leaves with a debit and with the reversal of a credit. */
  predicate Leaves(s: Sign) {
    s.Debit? || s.CreditReversed?
  }

  /** What a field 61 spells. `extra` is the text below its first line. */
  datatype Entry = Entry(
    valueDay: Day, booked: Option<Day>, sign: Sign, funds: Option<char>, figure: Figure, code: string,
    reference: string, bankReference: Option<string>, extra: Option<string>)

  predicate NoPair(s: string) {
    forall i :: 0 <= i < |s| - 1 ==> !(s[i] == '/' && s[i + 1] == '/')
  }

  ghost predicate GoodEntry(e: Entry) {
    && InCalendar(e.valueDay) && InWindow(e.valueDay.year)
    && (e.booked.Some? ==> InCalendar(e.booked.value) && BookedOn(e.valueDay, e.booked.value.month, e.booked.value.day, e.booked.value))
    && (e.funds.Some? ==> IsUpper(e.funds.value))
    && Spelled(e.figure) && IsCode(e.code)
    && e.reference != "" && '\n' !in e.reference && NoPair(e.reference + if e.bankReference.Some? then "/" else "")
    && (e.bankReference.Some? ==> '\n' !in e.bankReference.value && NoPair(e.bankReference.value))
  }

  function BookedText(e: Entry): string
    requires e.booked.Some? ==> InCalendar(e.booked.value)
  {
    if e.booked.Some? then Two(e.booked.value.month) + Two(e.booked.value.day) else ""
  }

  function FundsText(e: Entry): string {
    if e.funds.Some? then [e.funds.value] else ""
  }

  function References(e: Entry): string {
    e.reference + if e.bankReference.Some? then "//" + e.bankReference.value else ""
  }

  /** The line from the code, the figure, the funds letter, the sign and the booking day on. */
  function FromCode(e: Entry): string {
    e.code + References(e)
  }

  function FromFigure(e: Entry): string {
    Written(e.figure) + FromCode(e)
  }

  function FromFunds(e: Entry): string {
    FundsText(e) + FromFigure(e)
  }

  function FromSign(e: Entry): string {
    SignText(e.sign) + FromFunds(e)
  }

  function FromBooking(e: Entry): string
    requires e.booked.Some? ==> InCalendar(e.booked.value)
  {
    BookedText(e) + FromSign(e)
  }

  function EntryLine(e: Entry): string
    requires InCalendar(e.valueDay) && (e.booked.Some? ==> InCalendar(e.booked.value))
  {
    Short(e.valueDay) + FromBooking(e)
  }

  function EntryText(e: Entry): string
    requires InCalendar(e.valueDay) && (e.booked.Some? ==> InCalendar(e.booked.value))
  {
    EntryLine(e) + if e.extra.Some? then "\n" + e.extra.value else ""
  }

  /** The transaction is the entry: its days, its worth with its sign, its texts. */
  ghost predicate IsEntry(t: Transaction, e: Entry)
    requires InCalendar(e.valueDay) && (e.booked.Some? ==> InCalendar(e.booked.value)) && Spelled(e.figure)
  {
    && t.date == Iso(e.valueDay) && t.bookingDate == Iso(if e.booked.Some? then e.booked.value else e.valueDay)
    && Amounts(t.amount, e.figure, Leaves(e.sign))
    && t.code == e.code && t.reference == e.reference
    && t.bankReference == (if e.bankReference.Some? then e.bankReference.value else "")
    && t.description == (if e.extra.Some? then e.extra.value else "")
  }

  // ----- Reading a line -----

  lemma {:induction false} FirstLine(line: string, rest: string)
    requires '\n' !in line && (rest == "" || rest[0] == '\n')
    ensures A.Before(line + rest, '\n') == line
    decreases |line|
  {
    if line == "" {
      assert line + rest == rest;
    } else {
      assert (line + rest)[1..] == line[1..] + rest;
      assert line == [line[0]] + line[1..];
      FirstLine(line[1..], rest);
    }
  }

  lemma {:induction false} SlashesAt(s: string, rest: string)
    requires NoPair(s + "/") && (rest == "" || (|rest| >= 2 && rest[0] == '/' && rest[1] == '/'))
    ensures FindSlashes(s + rest) == |s|
    decreases |s|
  {
    if s == "" {
      assert s + rest == rest;
    } else {
      var all := s + rest;
      assert all[1..] == s[1..] + rest;
      assert NoPair(s[1..] + "/") by {
        assert s[1..] + "/" == (s + "/")[1..];
      }
      SlashesAt(s[1..], rest);
      assert !((s + "/")[0] == '/' && (s + "/")[1] == '/');
    }
  }

  lemma {:induction false} NoSlashes(s: string)
    requires NoPair(s)
    ensures FindSlashes(s) == |s|
    decreases |s|
  {
    if |s| >= 2 {
      assert NoPair(s[1..]);
      NoSlashes(s[1..]);
    }
  }

  lemma ReferencesSplit(e: Entry)
    requires NoPair(e.reference + if e.bankReference.Some? then "/" else "")
    requires e.bankReference.Some? ==> NoPair(e.bankReference.value)
    ensures SplitSlashes(References(e)) == [e.reference] + (if e.bankReference.Some? then [e.bankReference.value] else [])
  {
    if e.bankReference.Some? {
      var rest := "//" + e.bankReference.value;
      SlashesAt(e.reference, rest);
      assert References(e)[|e.reference| + 2..] == e.bankReference.value;
      assert References(e)[..|e.reference|] == e.reference;
      NoSlashes(e.bankReference.value);
    } else {
      assert e.reference + "" == e.reference;
      NoSlashes(e.reference);
    }
    hide FindSlashes;
  }

  lemma MarkReads(s: Sign, rest: string)
    ensures MarkOf(SignText(s) + rest) == Some(Mark(|SignText(s)|, Leaves(s)))
  {
  }

  lemma Cut(line: string, at: nat, front: string, back: string)
    requires at <= |line| && line[at..] == front + back
    ensures at + |front| <= |line| && line[at..at + |front|] == front && line[at + |front|..] == back
  {
    assert line[at..at + |front|] == line[at..][..|front|];
    assert line[at + |front|..] == line[at..][|front|..];
  }

  /** The reader finds the mark after the days. */
  predicate MarkedAt(line: string, entry: nat, mark: Mark) {
    && DigitsAt(line, 0, 6) && entry == (if DigitsAt(line, 6, 4) then 10 else 6)
    && entry <= |line| && MarkOf(line[entry..]) == Some(mark)
  }

  /** After the mark, and the funds letter if there is one, it finds the amount and the code. */
  predicate FigureFound(line: string, funds: nat, start: nat, run: nat) {
    && funds <= |line|
    && start == (if funds < |line| && IsUpper(line[funds]) then funds + 1 else funds)
    && start <= |line| && run == AmountRun(line[start..]) && run > 0 && start + run + 4 <= |line| && IsCode(line[start + run..start + run + 4])
  }

  lemma ReaderSteps(value: string, line: string, entry: nat, mark: Mark, start: nat, run: nat)
    requires line == Line(value) && MarkedAt(line, entry, mark) && FigureFound(line, entry + mark.length, start, run)
    ensures DigitsAt(line, 0, 6) && (entry == 6 || (entry == 10 && DigitsAt(line, 6, 4))) && start + run + 4 <= |line|
    ensures TransactionOf(value) == Details(value, line, entry, mark.negative, start, run)
  {
    hide Line, DigitsAt, MarkOf, IsUpper, AmountRun, IsCode, Details;
  }

  lemma SignFirst(s: Sign, rest: string)
    ensures |SignText(s) + rest| > 0 && !IsDigit((SignText(s) + rest)[0])
  {
  }

  // Where the parts of a line begin.

  function SignAt(e: Entry): nat
    requires e.booked.Some? ==> InCalendar(e.booked.value)
  {
    6 + |BookedText(e)|
  }

  function FundsAt(e: Entry): nat
    requires e.booked.Some? ==> InCalendar(e.booked.value)
  {
    SignAt(e) + |SignText(e.sign)|
  }

  function FigureAt(e: Entry): nat
    requires e.booked.Some? ==> InCalendar(e.booked.value)
  {
    FundsAt(e) + |FundsText(e)|
  }

  lemma DayPart(e: Entry)
    requires GoodEntry(e)
    ensures 6 <= |EntryLine(e)| && EntryLine(e)[..6] == Short(e.valueDay) && EntryLine(e)[6..] == FromBooking(e)
  {
    hide Short, FromBooking, GoodEntry;
    EntryFacts(e);
  }

  lemma BookingPart(e: Entry)
    requires GoodEntry(e)
    ensures SignAt(e) <= |EntryLine(e)| && EntryLine(e)[6..SignAt(e)] == BookedText(e) && EntryLine(e)[SignAt(e)..] == FromSign(e)
  {
    DayPart(e);
    hide EntryLine, GoodEntry, BookedText, FromSign;
    Cut(EntryLine(e), 6, BookedText(e), FromSign(e));
  }

  lemma SignPart(e: Entry)
    requires GoodEntry(e)
    ensures FundsAt(e) <= |EntryLine(e)| && EntryLine(e)[FundsAt(e)..] == FromFunds(e)
  {
    BookingPart(e);
    hide EntryLine, GoodEntry, SignText, FromFunds, SignAt;
    Cut(EntryLine(e), SignAt(e), SignText(e.sign), FromFunds(e));
  }

  lemma FundsPart(e: Entry)
    requires GoodEntry(e)
    ensures FigureAt(e) <= |EntryLine(e)| && EntryLine(e)[FigureAt(e)..] == FromFigure(e)
  {
    SignPart(e);
    hide EntryLine, GoodEntry, FundsText, FromFigure, FundsAt;
    Cut(EntryLine(e), FundsAt(e), FundsText(e), FromFigure(e));
  }

  lemma EntryMarked(e: Entry)
    requires GoodEntry(e)
    ensures MarkedAt(EntryLine(e), SignAt(e), Mark(|SignText(e.sign)|, Leaves(e.sign)))
    ensures SignAt(e) == if e.booked.Some? then 10 else 6
  {
    DayPart(e);
    BookingPart(e);
    Positions(e);
    SignFromText(e);
    hide EntryLine, GoodEntry, FromSign, SignAt, BookedText, DigitsAt, Short, MarkOf, SignText;
    FirstSix(e, EntryLine(e));
    BookedDigits(e, EntryLine(e));
    MarkReads(e.sign, FromFunds(e));
  }

  /** A figure and a code after it, as the reader finds them. */
  lemma FigureFrom(line: string, start: nat, figure: string, code: string, rest: string)
    requires start <= |line| && line[start..] == figure + (code + rest) && |code| == 4
    ensures var at := start + |figure|;
      at + 4 <= |line| && line[start..at] == figure && line[at..at + 4] == code && line[at + 4..] == rest
  {
    Cut(line, start, figure, code + rest);
    var at := start + |figure|;
    Cut(line, at, code, rest);
  }

  lemma EntryFigure(e: Entry, line: string, funds: nat, start: nat, run: nat)
    requires GoodEntry(e) && line == EntryLine(e) && funds == FundsAt(e) && start == FigureAt(e) && run == |Written(e.figure)|
    ensures FigureFound(line, funds, start, run)
  {
    hide *;
    SignPart(e);
    FundsReads(e, line, funds);
    FundsStep(e, funds, start);
    FigureStep(e, line, start, run);
    FoundFigure(line, funds, start, run);
  }

  lemma FundsStep(e: Entry, funds: nat, start: nat)
    requires GoodEntry(e) && funds == FundsAt(e) && start == FigureAt(e)
    ensures start == if e.funds.Some? then funds + 1 else funds
  {
    hide GoodEntry, FundsAt;
  }

  lemma FigureStep(e: Entry, line: string, start: nat, run: nat)
    requires GoodEntry(e) && line == EntryLine(e) && start == FigureAt(e) && run == |Written(e.figure)|
    ensures start <= |line| && AmountRun(line[start..]) == run > 0 && start + run + 4 <= |line| && IsCode(line[start + run..start + run + 4])
  {
    var figure, references := Written(e.figure), References(e);
    assert FromFigure(e) == figure + (e.code + references);
    hide *;
    EntryFacts(e);
    FundsPart(e);
    RunReads(e);
    FigureFrom(line, start, figure, e.code, references);
  }

  lemma FoundFigure(line: string, funds: nat, start: nat, run: nat)
    requires funds < |line| && start == (if IsUpper(line[funds]) then funds + 1 else funds)
    requires start <= |line| && AmountRun(line[start..]) == run > 0 && start + run + 4 <= |line| && IsCode(line[start + run..start + run + 4])
    ensures FigureFound(line, funds, start, run)
  {
    hide AmountRun, IsCode, IsUpper;
  }

  /** The line of an entry, cut where the reader cuts it. */
  lemma EntrySteps(e: Entry, value: string, line: string, entry: nat, start: nat, run: nat)
    requires GoodEntry(e) && line == Line(value) == EntryLine(e)
    requires entry == SignAt(e) && start == FigureAt(e) && run == |Written(e.figure)|
    ensures DigitsAt(line, 0, 6) && (entry == 6 || (entry == 10 && DigitsAt(line, 6, 4))) && start + run + 4 <= |line|
    ensures TransactionOf(value) == Details(value, line, entry, Leaves(e.sign), start, run)
  {
    var mark := Mark(|SignText(e.sign)|, Leaves(e.sign));
    assert FundsAt(e) == entry + mark.length;
    hide *;
    EntryMarked(e);
    EntryFigure(e, line, entry + mark.length, start, run);
    ReaderSteps(value, line, entry, mark, start, run);
  }

  lemma SignFromText(e: Entry)
    ensures FromSign(e) == SignText(e.sign) + FromFunds(e)
  {
  }

  lemma Positions(e: Entry)
    requires GoodEntry(e)
    ensures SignAt(e) == 6 + |BookedText(e)| && FundsAt(e) == SignAt(e) + |SignText(e.sign)|
    ensures FigureAt(e) == FundsAt(e) + (if e.funds.Some? then 1 else 0)
  {
  }

  lemma RunReads(e: Entry)
    requires GoodEntry(e)
    ensures AmountRun(FromFigure(e)) == |Written(e.figure)| > 0
  {
    EntryFacts(e);
    FigureRun(e.figure, FromCode(e));
    hide AmountRun, GoodEntry, Spelled;
  }

  lemma EntryFacts(e: Entry)
    requires GoodEntry(e)
    ensures InCalendar(e.valueDay) && |Short(e.valueDay)| == 6 && |e.code| == 4 && IsCode(e.code)
    ensures Spelled(e.figure) && |Written(e.figure)| > 0 && NoDigitFirst(FromCode(e))
    ensures |FundsText(e)| == if e.funds.Some? then 1 else 0
  {
    hide Short, References;
  }

  lemma FirstSix(e: Entry, line: string)
    requires InCalendar(e.valueDay) && |line| >= 6 && line[..6] == Short(e.valueDay)
    ensures DigitsAt(line, 0, 6)
  {
    ShortParts(e.valueDay);
    assert line[0..6] == line[..6];
    hide Short;
  }

  lemma FirstOfDigits(line: string)
    ensures DigitsAt(line, 6, 4) ==> IsDigit(line[6])
  {
    if DigitsAt(line, 6, 4) {
      assert line[6..10][0] == line[6];
    }
  }

  lemma BookedDigits(e: Entry, line: string)
    requires GoodEntry(e) && |line| >= 6
    requires line[6..] == FromBooking(e)
    ensures |BookedText(e)| == (if e.booked.Some? then 4 else 0)
    ensures DigitsAt(line, 6, 4) <==> e.booked.Some?
  {
    var rest := FromFunds(e);
    if e.booked.Some? {
      TwoIsNumber(e.booked.value.month);
      TwoIsNumber(e.booked.value.day);
      assert line[6..10] == BookedText(e);
    } else {
      SignFirst(e.sign, rest);
      assert line[6] == line[6..][0] == (SignText(e.sign) + rest)[0];
      FirstOfDigits(line);
    }
    hide Two, Written, SignText, FromFunds;
  }

  lemma FundsReads(e: Entry, line: string, at: nat)
    requires GoodEntry(e) && at <= |line|
    requires line[at..] == FromFunds(e)
    ensures at < |line| && (IsUpper(line[at]) <==> e.funds.Some?)
  {
    assert line[at] == line[at..][0];
    if e.funds.None? {
      assert line[at..] == Written(e.figure) + FromCode(e);
      assert line[at] == e.figure.whole[0];
    }
  }

  /** What the reader then takes from the line. */
  lemma EntryTexts(e: Entry, line: string, entry: nat, start: nat, run: nat)
    requires GoodEntry(e) && line == EntryLine(e) && entry == SignAt(e) && start == FigureAt(e) && run == |Written(e.figure)|
    ensures 6 <= entry <= |line| && start + run + 4 <= |line|
    ensures line[..6] == Short(e.valueDay) && line[6..entry] == BookedText(e)
    ensures line[start..start + run] == Written(e.figure) && line[start + run..start + run + 4] == e.code && line[start + run + 4..] == References(e)
  {
    var figure, references := Written(e.figure), References(e);
    assert FromFigure(e) == figure + (e.code + references);
    hide *;
    EntryFacts(e);
    DayPart(e);
    BookingPart(e);
    FundsPart(e);
    FigureFrom(line, start, figure, e.code, references);
    SignAfterDay(e);
  }

  lemma SignAfterDay(e: Entry)
    requires GoodEntry(e)
    ensures SignAt(e) >= 6
  {
  }

  lemma DaysRead(e: Entry)
    requires GoodEntry(e)
    ensures IsDate(Short(e.valueDay)) && DateOf(Short(e.valueDay)) == Ok(Iso(e.valueDay))
    ensures e.booked.Some? ==>
      && |BookedText(e)| == 4 && A.AllDigits(BookedText(e))
      && BookingDate(Short(e.valueDay), BookedText(e)) == Ok(Iso(e.booked.value))
  {
    DayReads(e.valueDay);
    if e.booked.Some? {
      BookingReads(e.valueDay, e.booked.value.month, e.booked.value.day, e.booked.value);
    }
    hide Short, Iso, DateOf, BookingDate, BookedOn, Spelled, IsCode, NoPair, IsDate, Two;
  }

  lemma DetailsSteps(value: string, line: string, entry: nat, negative: bool, start: nat, run: nat, date: string, booked: string, amount: string, parts: seq<string>)
    requires DigitsAt(line, 0, 6) && (entry == 6 || (entry == 10 && DigitsAt(line, 6, 4))) && start + run + 4 <= |line|
    requires IsDate(line[..6]) && DateOf(line[..6]) == Ok(date)
    requires if entry == 10 then |line[6..10]| == 4 && A.AllDigits(line[6..10]) && BookingDate(line[..6], line[6..10]) == Ok(booked) else booked == date
    requires parts == SplitSlashes(line[start + run + 4..]) && parts[0] != "" && |parts| <= 2
    requires A.Decimal(line[start..start + run], negative) == Ok(amount)
    ensures Details(value, line, entry, negative, start, run)
      == Ok(Transaction(date, booked, amount, line[start + run..start + run + 4], parts[0], if |parts| == 2 then parts[1] else "", Extra(value)))
  {
    hide DateOf, IsDate, BookingDate, SplitSlashes, A.Decimal, Extra, DigitsAt;
  }

  /** The parts, read one by one, make the transaction. */
  lemma DetailsRead(e: Entry, value: string, line: string, entry: nat, start: nat, run: nat)
    requires GoodEntry(e) && Extra(value) == (if e.extra.Some? then e.extra.value else "")
    requires DigitsAt(line, 0, 6) && entry == (if e.booked.Some? then 10 else 6) && (entry == 10 ==> DigitsAt(line, 6, 4)) && start + run + 4 <= |line|
    requires line[..6] == Short(e.valueDay) && (entry <= |line| && line[6..entry] == BookedText(e))
    requires line[start..start + run] == Written(e.figure) && line[start + run..start + run + 4] == e.code && line[start + run + 4..] == References(e)
    ensures var t := Details(value, line, entry, Leaves(e.sign), start, run);
      t.Ok? && IsEntry(t.value, e)
  {
    EntryFacts(e);
    var negative := Leaves(e.sign);
    var date := Iso(e.valueDay);
    var booked := Iso(if e.booked.Some? then e.booked.value else e.valueDay);
    var parts := [e.reference] + (if e.bankReference.Some? then [e.bankReference.value] else []);
    var bank := if e.bankReference.Some? then e.bankReference.value else "";
    assert parts[0] == e.reference != "" && |parts| <= 2 && bank == if |parts| == 2 then parts[1] else "";
    ReferencesSplit(e);
    hide *;
    DaysRead(e);
    FigureReads(e.figure, negative);
    var amount := A.Decimal(Written(e.figure), negative).value;
    DetailsSteps(value, line, entry, negative, start, run, date, booked, amount, parts);
    MadeEntry(e, Transaction(date, booked, amount, e.code, e.reference, bank, if e.extra.Some? then e.extra.value else ""));
  }

  lemma MadeEntry(e: Entry, t: Transaction)
    requires GoodEntry(e)
    requires t.date == Iso(e.valueDay) && t.bookingDate == Iso(if e.booked.Some? then e.booked.value else e.valueDay)
    requires Amounts(t.amount, e.figure, Leaves(e.sign)) && t.code == e.code && t.reference == e.reference
    requires t.bankReference == (if e.bankReference.Some? then e.bankReference.value else "")
    requires t.description == (if e.extra.Some? then e.extra.value else "")
    ensures IsEntry(t, e)
  {
    hide Iso, Amounts, Leaves;
  }

  lemma LinesOfText(e: Entry)
    requires GoodEntry(e) && '\n' !in EntryLine(e)
    ensures Line(EntryText(e)) == EntryLine(e) && Extra(EntryText(e)) == (if e.extra.Some? then e.extra.value else "")
  {
    var line := EntryLine(e);
    hide EntryLine, GoodEntry;
    var rest := if e.extra.Some? then "\n" + e.extra.value else "";
    assert EntryText(e) == line + rest;
    FirstLine(line, rest);
    if e.extra.Some? {
      assert EntryText(e)[|line| + 1..] == e.extra.value;
    }
  }

  lemma DigitsOneLine(s: string)
    requires A.AllDigits(s)
    ensures '\n' !in s
  {
  }

  lemma EntryOneLine(e: Entry)
    requires GoodEntry(e)
    ensures '\n' !in EntryLine(e)
  {
    ShortParts(e.valueDay);
    DigitsOneLine(Short(e.valueDay));
    if e.booked.Some? {
      TwoIsNumber(e.booked.value.month);
      TwoIsNumber(e.booked.value.day);
    }
    assert '\n' !in BookedText(e) && '\n' !in SignText(e.sign) && '\n' !in FundsText(e) && '\n' !in Written(e.figure) && '\n' !in e.code && '\n' !in References(e);
    hide Short, BookedText, SignText, FundsText, Written, References, GoodEntry;
    assert '\n' !in FromCode(e);
    assert '\n' !in FromFigure(e);
    assert '\n' !in FromFunds(e);
    assert '\n' !in FromSign(e);
    assert '\n' !in FromBooking(e);
  }

  /** Every entry, written as a field 61, is read as that entry: on its days, worth
      what its figure says, negative for a debit or a reversed credit. */
  lemma EntryReads(e: Entry)
    requires GoodEntry(e)
    ensures TransactionOf(EntryText(e)).Ok? && IsEntry(TransactionOf(EntryText(e)).value, e)
  {
    var value, line, entry, start, run := EntryText(e), EntryLine(e), SignAt(e), FigureAt(e), |Written(e.figure)|;
    hide *;
    EntryOneLine(e);
    LinesOfText(e);
    EntryMarked(e);
    EntrySteps(e, value, line, entry, start, run);
    EntryTexts(e, line, entry, start, run);
    DetailsRead(e, value, line, entry, start, run);
  }

  // ----- Nothing else is read -----

  lemma SignOf(s: string) returns (sign: Sign)
    requires MarkOf(s).Some?
    ensures MarkOf(s) == Some(Mark(|SignText(sign)|, Leaves(sign))) && |SignText(sign)| <= |s| && s[..|SignText(sign)|] == SignText(sign)
  {
    if |s| >= 2 && s[0] == 'R' && s[1] == 'C' {
      sign := CreditReversed;
    } else if |s| >= 2 && s[0] == 'R' && s[1] == 'D' {
      sign := DebitReversed;
    } else if s[0] == 'C' {
      sign := Credit;
    } else {
      sign := Debit;
    }
  }

  lemma {:induction false} FirstSlashes(s: string)
    ensures var n := FindSlashes(s);
      if n == |s| then NoPair(s) else NoPair(s[..n] + "/") && s == s[..n] + "//" + s[n + 2..]
    decreases |s|
  {
    if |s| >= 2 && !(s[0] == '/' && s[1] == '/') {
      var n := FindSlashes(s);
      FirstSlashes(s[1..]);
      if n == |s| {
        assert forall i :: 1 <= i < |s| - 1 ==> s[i] == s[1..][i - 1] && s[i + 1] == s[1..][i];
      } else {
        var head := s[..n] + "/";
        assert head[1..] == s[1..][..n - 1] + "/";
        assert forall i :: 1 <= i < |head| - 1 ==> head[i] == head[1..][i - 1] && head[i + 1] == head[1..][i];
      }
    }
  }

  lemma PartsJoin(s: string)
    requires |SplitSlashes(s)| <= 2
    ensures var parts := SplitSlashes(s);
      && s == parts[0] + (if |parts| == 2 then "//" + parts[1] else "")
      && NoPair(parts[0] + if |parts| == 2 then "/" else "")
      && (|parts| == 2 ==> NoPair(parts[1]))
  {
    var n := FindSlashes(s);
    hide NoPair, FindSlashes, SplitSlashes;
    FirstSlashes(s);
    if n < |s| {
      var rest := s[n + 2..];
      SplitFirst(s);
      SplitFirst(rest);
      FirstSlashes(rest);
      hide *;
      assert s == s[..n] + ("//" + rest);
    } else {
      SplitFirst(s);
      assert s + "" == s;
      hide *;
    }
  }

  lemma SplitFirst(s: string)
    ensures var n := FindSlashes(s);
      SplitSlashes(s) == if n == |s| then [s] else [s[..n]] + SplitSlashes(s[n + 2..])
  {
    hide FindSlashes;
  }

  /** The day the reader looks up for a booking. */
  lemma BookingRaw(value: Day, booking: string) returns (month: int, shifted: int)
    requires InCalendar(value) && InWindow(value.year) && |booking| == 4 && A.AllDigits(booking)
    requires IsDate(Short(value)) && BookingDate(Short(value), booking).Ok?
    ensures 0 <= month < 100 && booking[0..2] == Two(month)
    ensures shifted == value.year + if month - value.month > 6 then -1 else if value.month - month > 6 then 1 else 0
    ensures IsDate(Two(shifted % 100) + booking)
  {
    DayReads(value);
    ShortParts(value);
    TwoIsNumber(value.month);
    NumberIsTwo(booking[0..2]);
    month := A.NatOf(booking[0..2]);
    shifted := value.year + if month - value.month > 6 then -1 else if value.month - month > 6 then 1 else 0;
    PaddedTwo(shifted % 100);
    hide Two, Short, A.NatOf, A.AllDigits, A.PadStart, A.Digits, InCalendar;
    OnlyDates(Two(shifted % 100) + booking);
    hide IsDate, DateOf;
  }

  lemma TwoApart(a: nat, b: nat)
    requires a < 100 && b < 100 && Two(a) == Two(b)
    ensures a == b
  {
    TwoIsNumber(a);
    TwoIsNumber(b);
    hide Two;
  }

  /** The booking day that four digits name next to a value day. */
  lemma BookedIsRead(value: Day, booking: string) returns (booked: Day)
    requires InCalendar(value) && InWindow(value.year) && |booking| == 4 && A.AllDigits(booking)
    requires IsDate(Short(value)) && BookingDate(Short(value), booking).Ok?
    ensures InCalendar(booked) && BookedOn(value, booked.month, booked.day, booked) && booking == Two(booked.month) + Two(booked.day)
  {
    hide IsDate, BookingDate, Two, Short, A.AllDigits;
    var month, shifted := BookingRaw(value, booking);
    var raw := Two(shifted % 100) + booking;
    booked := DayIsRead(raw);
    ShortParts(booked);
    assert raw[0..2] == Two(shifted % 100) && raw[2..4] == booking[0..2] && booking == raw[2..4] + raw[4..6];
    TwoApart(booked.month, month);
    TwoApart(booked.year % 100, shifted % 100);
    assert NearestYear(value, booked.month, shifted);
  }

  lemma ReaderNeeds(value: string) returns (entry: nat, mark: Mark, start: nat, run: nat)
    requires TransactionOf(value).Ok?
    ensures MarkedAt(Line(value), entry, mark) && FigureFound(Line(value), entry + mark.length, start, run)
    ensures DigitsAt(Line(value), 0, 6) && (entry == 6 || (entry == 10 && DigitsAt(Line(value), 6, 4))) && start + run + 4 <= |Line(value)|
    ensures Details(value, Line(value), entry, mark.negative, start, run).Ok?
  {
    hide Line, DigitsAt, MarkOf, IsUpper, AmountRun, IsCode, Details;
    var line := Line(value);
    entry := if DigitsAt(line, 6, 4) then 10 else 6;
    EntryFits(line);
    mark := MarkOf(line[entry..]).value;
    MarkFits(line[entry..]);
    var funds := entry + mark.length;
    start := if funds < |line| && IsUpper(line[funds]) then funds + 1 else funds;
    run := AmountRun(line[start..]);
  }

  lemma EntryFits(line: string)
    ensures DigitsAt(line, 6, 4) ==> 10 <= |line|
    ensures DigitsAt(line, 0, 6) ==> 6 <= |line|
  {
  }

  lemma MarkFits(s: string)
    ensures MarkOf(s).Some? ==> MarkOf(s).value.length <= |s|
  {
  }

  lemma DetailsNeeds(value: string, line: string, entry: nat, negative: bool, start: nat, run: nat)
    requires DigitsAt(line, 0, 6) && (entry == 6 || (entry == 10 && DigitsAt(line, 6, 4))) && start + run + 4 <= |line|
    requires Details(value, line, entry, negative, start, run).Ok?
    ensures 6 <= |line| && IsDate(line[..6])
    ensures entry == 10 ==> |line| >= 10 && A.AllDigits(line[6..10]) && BookingDate(line[..6], line[6..10]).Ok?
    ensures var parts := SplitSlashes(line[start + run + 4..]); parts[0] != "" && |parts| <= 2
    ensures A.IsAmount(line[start..start + run], ',')
  {
    OnlyDates(line[..6]);
    WholeRunIsAmount(line[start..start + run]);
    hide DateOf, IsDate, BookingDate, SplitSlashes, A.Decimal, Extra;
  }

  lemma Joined(line: string, at: nat, n: nat)
    requires at + n <= |line|
    ensures line[at..] == line[at..at + n] + line[at + n..]
  {
  }

  /** The entry a line spells, taken part by part. */
  ghost function EntryOf(value: string, day: Day, booked: Option<Day>, sign: Sign, figure: Figure, funds: nat, start: nat, run: nat): Entry
    requires funds <= start && start + run + 4 <= |Line(value)|
  {
    var line := Line(value);
    var parts := SplitSlashes(line[start + run + 4..]);
    Entry.Entry(day, booked, sign, if start == funds then None else Some(line[funds]), figure, line[start + run..start + run + 4],
          parts[0], if |parts| == 2 then Some(parts[1]) else None, if |line| < |value| then Some(value[|line| + 1..]) else None)
  }

  /** A text that is read as a transaction is an entry, written. */
  lemma OnlyEntriesAreRead(value: string) returns (e: Entry)
    requires TransactionOf(value).Ok?
    ensures GoodEntry(e) && EntryText(e) == value && IsEntry(TransactionOf(value).value, e)
  {
    hide *;
    var line := Line(value);
    var entry, mark, start, run := ReaderNeeds(value);
    DetailsNeeds(value, line, entry, mark.negative, start, run);
    var day := DayIsRead(line[..6]);
    var booked: Option<Day> := None;
    if entry == 10 {
      var d := BookedIsRead(day, line[6..10]);
      booked := Some(d);
    }
    Marked(line, entry, mark);
    var sign := SignOf(line[entry..]);
    var figure := AmountIsFigure(line[start..start + run]);
    FoundAt(line, entry + mark.length, start, run);
    e := EntryOf(value, day, booked, sign, figure, entry + mark.length, start, run);
    EntryIsGood(value, e, day, booked, sign, figure, entry + mark.length, start, run);
    EntryIsLine(value, e, entry, day, booked, sign, figure, entry + mark.length, start, run);
    EntryReads(e);
  }

  lemma Marked(line: string, entry: nat, mark: Mark)
    requires MarkedAt(line, entry, mark)
    ensures entry <= |line| && MarkOf(line[entry..]) == Some(mark) && entry == (if DigitsAt(line, 6, 4) then 10 else 6)
  {
  }

  lemma FoundAt(line: string, funds: nat, start: nat, run: nat)
    requires FigureFound(line, funds, start, run)
    ensures funds <= start <= funds + 1 && (start > funds ==> funds < |line| && IsUpper(line[funds]))
    ensures start + run + 4 <= |line| && IsCode(line[start + run..start + run + 4])
  {
  }

  lemma NoBreak(value: string, at: nat)
    requires at <= |Line(value)|
    ensures '\n' !in Line(value) && '\n' !in Line(value)[at..]
  {
  }

  lemma EntryIsGood(value: string, e: Entry, day: Day, booked: Option<Day>, sign: Sign, figure: Figure, funds: nat, start: nat, run: nat)
    requires funds <= start <= funds + 1 && start + run + 4 <= |Line(value)|
    requires e == EntryOf(value, day, booked, sign, figure, funds, start, run)
    requires InCalendar(day) && InWindow(day.year) && Spelled(figure) && IsCode(Line(value)[start + run..start + run + 4])
    requires booked.Some? ==> InCalendar(booked.value) && BookedOn(day, booked.value.month, booked.value.day, booked.value)
    requires start > funds ==> IsUpper(Line(value)[funds])
    requires var parts := SplitSlashes(Line(value)[start + run + 4..]); parts[0] != "" && |parts| <= 2
    ensures GoodEntry(e)
  {
    var rest := Line(value)[start + run + 4..];
    PartsJoin(rest);
    NoBreak(value, start + run + 4);
    hide Line, SplitSlashes, InCalendar, BookedOn, Spelled, IsCode, IsUpper, NoPair;
    var parts := SplitSlashes(rest);
    assert '\n' !in parts[0] by {
      assert forall c :: c in parts[0] ==> c in rest;
    }
  }

  lemma CodeJoins(value: string, e: Entry, line: string, at: nat)
    requires at + 4 <= |line| && e.code == line[at..at + 4] && References(e) == line[at + 4..]
    ensures FromCode(e) == line[at..]
  {
    Joined(line, at, 4);
    hide References;
  }

  lemma FigureJoins(e: Entry, line: string, start: nat, run: nat)
    requires start + run <= |line| && Written(e.figure) == line[start..start + run] && FromCode(e) == line[start + run..]
    ensures FromFigure(e) == line[start..]
  {
    Joined(line, start, run);
    hide Written, FromCode;
  }

  lemma FundsJoins(e: Entry, line: string, funds: nat, start: nat)
    requires funds <= start <= funds + 1 && start <= |line| && FromFigure(e) == line[start..]
    requires e.funds == if start == funds then None else Some(line[funds])
    ensures FromFunds(e) == line[funds..]
  {
    Joined(line, funds, start - funds);
    hide FromFigure;
  }

  lemma SignJoins(e: Entry, line: string, entry: nat)
    requires entry + |SignText(e.sign)| <= |line| && line[entry..][..|SignText(e.sign)|] == SignText(e.sign)
    requires FromFunds(e) == line[entry + |SignText(e.sign)|..]
    ensures FromSign(e) == line[entry..]
  {
    Joined(line, entry, |SignText(e.sign)|);
    assert line[entry..entry + |SignText(e.sign)|] == line[entry..][..|SignText(e.sign)|];
    hide SignText, FromFunds;
  }

  lemma DaysJoin(e: Entry, line: string, entry: nat)
    requires InCalendar(e.valueDay) && (e.booked.Some? ==> InCalendar(e.booked.value))
    requires 6 <= entry <= |line| && line[..6] == Short(e.valueDay) && line[6..entry] == BookedText(e) && FromSign(e) == line[entry..]
    ensures EntryLine(e) == line
  {
    Joined(line, 6, entry - 6);
    assert line == line[..6] + line[6..];
    hide FromSign, BookedText, Short;
  }

  lemma EntryIsLine(value: string, e: Entry, entry: nat, day: Day, booked: Option<Day>, sign: Sign, figure: Figure, funds: nat, start: nat, run: nat)
    requires funds <= start <= funds + 1 && start + run + 4 <= |Line(value)| && funds == entry + |SignText(sign)| && entry == (if booked.Some? then 10 else 6)
    requires e == EntryOf(value, day, booked, sign, figure, funds, start, run)
    requires InCalendar(day) && (booked.Some? ==> InCalendar(booked.value)) && GoodEntry(e)
    requires var line := Line(value);
      && line[..6] == Short(day) && (booked.Some? ==> line[6..10] == Two(booked.value.month) + Two(booked.value.day))
      && line[entry..][..|SignText(sign)|] == SignText(sign) && line[start..start + run] == Written(figure)
      && |SplitSlashes(line[start + run + 4..])| <= 2
    ensures EntryText(e) == value
  {
    var line := Line(value);
    BookedJoins(e, line, entry);
    ReferencesJoin(value, e, line, day, booked, sign, figure, funds, start, run);
    WholeText(value, e, line, day, booked, sign, figure, funds, start, run);
    assert e.sign == sign && e.valueDay == day && e.figure == figure && e.code == line[start + run..start + run + 4];
    assert e.funds == if start == funds then None else Some(line[funds]);
    hide *;
    CodeJoins(value, e, line, start + run);
    FigureJoins(e, line, start, run);
    FundsJoins(e, line, funds, start);
    SignJoins(e, line, entry);
    DaysJoin(e, line, entry);
  }

  lemma BookedJoins(e: Entry, line: string, entry: nat)
    requires entry == (if e.booked.Some? then 10 else 6) && entry <= |line| && (e.booked.Some? ==> InCalendar(e.booked.value))
    requires e.booked.Some? ==> line[6..10] == Two(e.booked.value.month) + Two(e.booked.value.day)
    ensures line[6..entry] == BookedText(e)
  {
    hide Two, InCalendar;
  }

  lemma ReferencesJoin(value: string, e: Entry, line: string, day: Day, booked: Option<Day>, sign: Sign, figure: Figure, funds: nat, start: nat, run: nat)
    requires line == Line(value) && funds <= start && start + run + 4 <= |line| && e == EntryOf(value, day, booked, sign, figure, funds, start, run)
    requires |SplitSlashes(line[start + run + 4..])| <= 2
    ensures References(e) == line[start + run + 4..]
  {
    PartsJoin(line[start + run + 4..]);
    hide SplitSlashes, Line, NoPair;
  }

  lemma WholeText(value: string, e: Entry, line: string, day: Day, booked: Option<Day>, sign: Sign, figure: Figure, funds: nat, start: nat, run: nat)
    requires line == Line(value) && funds <= start && start + run + 4 <= |line| && e == EntryOf(value, day, booked, sign, figure, funds, start, run)
    requires InCalendar(e.valueDay) && (e.booked.Some? ==> InCalendar(e.booked.value))
    ensures EntryLine(e) == line ==> EntryText(e) == value
  {
    assert line <= value && (|line| < |value| ==> value[|line|] == '\n');
    if |line| < |value| {
      assert value == line + "\n" + value[|line| + 1..];
    }
    hide Line, EntryLine, InCalendar;
  }

  ghost predicate SpellsEntry(value: string, e: Entry) {
    GoodEntry(e) && EntryText(e) == value
  }

  ghost predicate ReadAs(value: string, e: Entry) {
    GoodEntry(e) && TransactionOf(value).Ok? && IsEntry(TransactionOf(value).value, e)
  }

  /** A field 61 is read exactly when it spells an entry, and then as that entry. */
  lemma EntriesExactly(value: string)
    ensures TransactionOf(value).Ok? <==> exists e :: SpellsEntry(value, e)
    ensures forall e :: SpellsEntry(value, e) ==> ReadAs(value, e)
  {
    if TransactionOf(value).Ok? {
      var e := OnlyEntriesAreRead(value);
      assert SpellsEntry(value, e);
    }
    forall e | SpellsEntry(value, e) ensures ReadAs(value, e) {
      SpelledEntry(value, e);
    }
    hide *;
  }

  lemma SpelledEntry(value: string, e: Entry)
    requires SpellsEntry(value, e)
    ensures ReadAs(value, e) && TransactionOf(value).Ok?
  {
    EntryReads(e);
    hide TransactionOf, IsEntry, GoodEntry, EntryText;
  }

  predicate HasBalance(tag: string) {
    tag == "60F" || tag == "60M" || tag == "62F" || tag == "62M" || tag == "64" || tag == "65"
  }

  /** What the field spells, if the machine reads more than its text. */
  ghost predicate Spells(f: Field) {
    && (f.tag == "61" ==> exists e :: SpellsEntry(f.value, e))
    && (HasBalance(f.tag) ==> exists b, negative, d, figure :: SpellsBalance(f.value, b, negative, d, figure))
  }

  /** In a file that is read every field 61 spells an entry, and every balance field a balance. */
  lemma {:induction false} FieldsSpell(fields: seq<Field>, i: nat)
    requires TakeAll(fields).Ok? && i < |fields|
    ensures Spells(fields[i])
    decreases |fields|
  {
    hide TakeField, Spells;
    var n := |fields| - 1;
    if i < n {
      assert fields[..n][i] == fields[i];
      FieldsSpell(fields[..n], i);
    } else {
      TakenSpells(TakeAll(fields[..n]).value, fields[n]);
    }
  }

  lemma TakenSpells(s: State, f: Field)
    requires TakeField(s, f).Ok?
    ensures Spells(f)
  {
    TakenIsRead(s, f);
    hide TakeField, BalanceOf, TransactionOf, SpellsEntry, SpellsBalance;
    EntriesExactly(f.value);
    if HasBalance(f.tag) {
      BalancesExactly(f.value, BalanceOf(f.value).value);
    }
  }

  lemma TakenIsRead(s: State, f: Field)
    requires TakeField(s, f).Ok?
    ensures f.tag == "61" ==> TransactionOf(f.value).Ok?
    ensures HasBalance(f.tag) ==> BalanceOf(f.value).Ok?
  {
    hide BalanceOf, TransactionOf, JoinText, Trim, NotAfter, Total, Worth;
  }

  // ----- Lines and narratives -----

  /** A line that continues the field before it. */
  predicate Loose(line: string) {
    !IsEnvelope(line) && TagLength(line) == 0 && Trim(line) != ""
  }

  /** The tag of the last field begun, if any. */
  function LastTag(lines: seq<string>): string {
    if lines == [] then ""
    else
      var line := lines[|lines| - 1];
      if !IsEnvelope(line) && TagLength(line) > 0 then line[1..TagLength(line) + 1] else LastTag(lines[..|lines| - 1])
  }

  /** A file has fields exactly when every line that continues one continues a 61 or an 86. */
  lemma {:induction false} LinesReadExactly(lines: seq<string>)
    ensures FieldsOf(lines).Ok? <==> forall i :: 0 <= i < |lines| && Loose(lines[i]) ==> LastTag(lines[..i]) == "61" || LastTag(lines[..i]) == "86"
    ensures FieldsOf(lines).Ok? ==>
      var fields := FieldsOf(lines).value;
      if fields == [] then LastTag(lines) == "" else fields[|fields| - 1].tag == LastTag(lines)
    decreases |lines|
  {
    hide IsEnvelope, TagLength, Trim;
    if lines != [] {
      var n := |lines| - 1;
      LinesReadExactly(lines[..n]);
      assert forall i :: 0 <= i < n ==> lines[..n][i] == lines[i] && lines[..n][..i] == lines[..i];
      if FieldsOf(lines[..n]).Ok? {
        OneMoreLine(FieldsOf(lines[..n]).value, lines[n], LastTag(lines[..n]));
      }
      hide Loose, AddLine;
    }
  }

  lemma OneMoreLine(fields: seq<Field>, line: string, tag: string)
    requires if fields == [] then tag == "" else fields[|fields| - 1].tag == tag
    ensures AddLine(fields, line).Ok? <==> (Loose(line) ==> tag == "61" || tag == "86")
    ensures AddLine(fields, line).Ok? ==>
      var after := AddLine(fields, line).value;
      var now := if !IsEnvelope(line) && TagLength(line) > 0 then line[1..TagLength(line) + 1] else tag;
      if after == [] then now == "" else after[|after| - 1].tag == now
  {
    hide IsEnvelope, Trim;
  }

  /** The texts that are not empty, each on lines of its own. */
  function Paragraphs(texts: seq<string>): string {
    if texts == [] then ""
    else
      var rest := Paragraphs(texts[1..]);
      if texts[0] == "" then rest else if rest == "" then texts[0] else texts[0] + "\n" + rest
  }

  /** The texts of the narratives that follow the last transaction. */
  function Narratives(fields: seq<Field>): seq<string> {
    if fields == [] || fields[|fields| - 1].tag == "61" then []
    else
      var before := Narratives(fields[..|fields| - 1]);
      if fields[|fields| - 1].tag == "86" then before + [fields[|fields| - 1].value] else before
  }

  lemma {:induction false} ParagraphsMore(texts: seq<string>, last: string)
    ensures Paragraphs(texts + [last]) == JoinText(Paragraphs(texts), last)
    decreases |texts|
  {
    if texts == [] {
      assert [last][1..] == [];
    } else {
      assert (texts + [last])[1..] == texts[1..] + [last];
      ParagraphsMore(texts[1..], last);
    }
  }

  /** The text of the last field 61. */
  function LastEntry(fields: seq<Field>): string {
    if fields == [] then ""
    else if fields[|fields| - 1].tag == "61" then fields[|fields| - 1].value
    else LastEntry(fields[..|fields| - 1])
  }

  /** At every point of a file that is read, its last transaction is the last field 61,
      described by that field and by the narratives since, one below the other. */
  lemma {:induction false} LastIsDescribed(fields: seq<Field>)
    requires TakeAll(fields).Ok? && Lines(fields) != []
    ensures TransactionOf(LastEntry(fields)).Ok?
    ensures var lines, own := Lines(fields), TransactionOf(LastEntry(fields)).value;
      lines[|lines| - 1] == own.(description := Paragraphs([own.description] + Narratives(fields)))
    decreases |fields|
  {
    hide TakeField, TransactionOf, JoinText, Paragraphs;
    var n := |fields| - 1;
    var f := fields[n];
    if f.tag == "61" {
      TakenIsRead(TakeAll(fields[..n]).value, f);
      OneParagraph(TransactionOf(f.value).value.description);
      assert [TransactionOf(f.value).value.description] + [] == [TransactionOf(f.value).value.description];
    } else {
      LastIsDescribed(fields[..n]);
      if f.tag == "86" {
        var own := TransactionOf(LastEntry(fields)).value;
        var texts := [own.description] + Narratives(fields[..n]);
        ParagraphsMore(texts, f.value);
        assert [own.description] + Narratives(fields) == texts + [f.value];
      }
    }
  }

  lemma OneParagraph(s: string)
    ensures Paragraphs([s]) == s
  {
    assert [s][1..] == [];
  }

  /** The lines around the fields, as SWIFT blocks begin and end. */
  lemma EnvelopesExactly(line: string)
    ensures IsEnvelope(line) <==>
      || line == "{4:" || line == "-}" || line == " -}"
      || (OneLine(line) && ((exists middle :: line == "{1:" + middle + "{4:") || exists middle :: line == "{5:" + middle + "}"))
  {
    if |line| >= 6 && "{1:" <= line && EndsWith(line, "{4:") {
      assert line == "{1:" + line[3..|line| - 3] + "{4:";
    }
    if |line| >= 4 && "{5:" <= line && EndsWith(line, "}") {
      assert line == "{5:" + line[3..|line| - 1] + "}";
    }
    forall middle | line == "{1:" + middle + "{4:" && OneLine(line) ensures IsEnvelope(line) {
      assert line[|line| - 3..] == "{4:";
    }
    forall middle | line == "{5:" + middle + "}" && OneLine(line) ensures IsEnvelope(line) {
      assert line[|line| - 1..] == "}";
    }
  }

  /** Two digits, and perhaps a letter. */
  predicate IsTag(tag: string) {
    2 <= |tag| <= 3 && IsDigit(tag[0]) && IsDigit(tag[1]) && (|tag| == 3 ==> IsUpper(tag[2]))
  }

  predicate BeginsField(line: string, tag: string, value: string) {
    IsTag(tag) && line == ":" + tag + ":" + value && OneLine(line)
  }

  /** A line begins a field exactly when it is a tag between colons, and its value. */
  lemma TagsExactly(line: string)
    ensures TagLength(line) > 0 <==> exists tag, value :: BeginsField(line, tag, value)
    ensures forall tag, value :: BeginsField(line, tag, value) ==> TagLength(line) > 0 && FieldAt(line) == Field(tag, value)
  {
    if TagLength(line) > 0 {
      var n := TagLength(line);
      var tag, value := line[1..n + 1], line[n + 2..];
      TagDigits(line);
      assert line == [line[0]] + line[1..n + 1] + [line[n + 1]] + line[n + 2..];
      assert BeginsField(line, tag, value);
    }
    forall tag, value | BeginsField(line, tag, value) ensures TagLength(line) > 0 && FieldAt(line) == Field(tag, value) {
      TagRead(line, tag, value);
    }
  }

  lemma TagDigits(line: string)
    requires TagLength(line) > 0
    ensures IsTag(line[1..TagLength(line) + 1])
  {
    assert line[1..3][0] == line[1] && line[1..3][1] == line[2];
  }

  lemma TagRead(line: string, tag: string, value: string)
    requires BeginsField(line, tag, value)
    ensures TagLength(line) == |tag| && FieldAt(line) == Field(tag, value)
  {
    assert line[0] == ':' && line[1] == tag[0] && line[2] == tag[1] && line[|tag| + 1] == ':';
    assert line[1..3] == [tag[0], tag[1]];
    assert A.AllDigits(line[1..3]);
    assert line[1..|tag| + 1] == tag && line[|tag| + 2..] == value;
    if |tag| == 3 {
      assert line[3] == tag[2] && IsUpper(line[3]);
    }
  }
}
