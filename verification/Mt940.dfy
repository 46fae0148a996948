/** Reading MT940 bank statements: fields, dates, balances and the statement machine. */
module Mt940 {
  import opened Wrappers
  import opened Characters
  import opened BankIdentity
  import A = Amounts
  import Ordering

  // ----- Small lexers -----

  predicate IsUpper(c: char) {
    'A' <= c <= 'Z'
  }

  predicate DigitsAt(s: string, from: nat, count: nat) {
    from + count <= |s| && A.AllDigits(s[from..from + count])
  }

  /** How many digits follow. */
  function DigitRun(s: string): (n: nat)
    ensures n <= |s| && A.AllDigits(s[..n]) && (n < |s| ==> !IsDigit(s[n]))
  {
    if s == "" || !IsDigit(s[0]) then 0
    else
      var n := 1 + DigitRun(s[1..]);
      assert s[..n] == [s[0]] + s[1..][..n - 1];
      n
  }

  /** The length of a leading amount, digits, a comma and more digits, or zero. */
  function AmountRun(s: string): (n: nat)
    ensures n <= |s|
  {
    var whole := DigitRun(s);
    if whole == 0 || whole == |s| || s[whole] != ',' then 0 else whole + 1 + DigitRun(s[whole + 1..])
  }

  function DaysIn(year: nat, month: nat): nat {
    if month == 2 then (if year % 4 == 0 && (year % 100 != 0 || year % 400 == 0) then 29 else 28)
    else if month == 4 || month == 6 || month == 9 || month == 11 then 30
    else 31
  }

  /** Two-digit years from 70 on are in the twentieth century. */
  function FullYear(raw: string): nat
    requires DigitsAt(raw, 0, 2)
  {
    var year := A.NatOf(raw[0..2]);
    if year >= 70 then 1900 + year else 2000 + year
  }

  predicate IsDate(raw: string) {
    && |raw| == 6 && A.AllDigits(raw)
    && DigitsAt(raw, 0, 2) && DigitsAt(raw, 2, 2) && DigitsAt(raw, 4, 2)
    && 1 <= A.NatOf(raw[2..4]) <= 12
    && 1 <= A.NatOf(raw[4..6]) <= DaysIn(FullYear(raw), A.NatOf(raw[2..4]))
  }

  /** A six-digit date as a full ISO date; calendar dates only. */
  function DateOf(raw: string): Result<string> {
    if IsDate(raw) then Ok(A.Digits(FullYear(raw)) + "-" + raw[2..4] + "-" + raw[4..6]) else Err("Invalid MT940 date")
  }

  datatype Balance = Balance(date: string, currency: string, amount: string)

  predicate IsCurrency(s: string) {
    |s| == 3 && forall i :: 0 <= i < 3 ==> IsUpper(s[i])
  }

  function BalanceOf(value: string): Result<Balance> {
    if |value| >= 10 && (value[0] == 'C' || value[0] == 'D') && DigitsAt(value, 1, 6) && IsCurrency(value[7..10])
       && AmountRun(value[10..]) > 0 && AmountRun(value[10..]) == |value| - 10 then
      var date :- DateOf(value[1..7]);
      var amount :- A.Decimal(value[10..], value[0] == 'D');
      Ok(Balance(date, value[7..10], amount))
    else Err("Invalid MT940 balance")
  }

  // ----- Transaction lines -----

  function Line(s: string): string {
    A.Before(s, '\n')
  }

  function Extra(s: string): string {
    if |Line(s)| < |s| then s[|Line(s)| + 1..] else ""
  }

  function FindSlashes(s: string): (n: nat)
    ensures n <= |s| && (n < |s| ==> n + 1 < |s| && s[n] == '/' && s[n + 1] == '/')
  {
    if |s| < 2 then |s| else if s[0] == '/' && s[1] == '/' then 0 else 1 + FindSlashes(s[1..])
  }

  /** The parts between double slashes, from left to right. */
  function SplitSlashes(s: string): (parts: seq<string>)
    ensures |parts| > 0
    decreases |s|
  {
    var n := FindSlashes(s);
    if n == |s| then [s] else [s[..n]] + SplitSlashes(s[n + 2..])
  }

  datatype Mark = Mark(length: nat, negative: bool)

  /** The credit or debit mark: C, D, RC or RD; reversals swap the sign. */
  function MarkOf(s: string): Option<Mark> {
    if |s| >= 2 && s[0] == 'R' && s[1] == 'C' then Some(Mark(2, true))
    else if |s| >= 2 && s[0] == 'R' && s[1] == 'D' then Some(Mark(2, false))
    else if |s| >= 1 && s[0] == 'C' then Some(Mark(1, false))
    else if |s| >= 1 && s[0] == 'D' then Some(Mark(1, true))
    else None
  }

  predicate IsCode(s: string) {
    |s| == 4 && (s[0] == 'N' || s[0] == 'S' || s[0] == 'F') && forall i :: 1 <= i < 4 ==> IsUpper(s[i]) || IsDigit(s[i])
  }

  const UNSUPPORTED := "Unsupported MT940 transaction line"

  /** The booking day belongs to the year nearest the value date's month. */
  function BookingDate(valueDay: string, booking: string): Result<string>
    requires IsDate(valueDay) && |booking| == 4 && A.AllDigits(booking)
  {
    var year: int := FullYear(valueDay);
    assert DigitsAt(booking, 0, 2);
    var month: int, valueMonth: int := A.NatOf(booking[0..2]), A.NatOf(valueDay[2..4]);
    var shifted := year + if month - valueMonth > 6 then -1 else if valueMonth - month > 6 then 1 else 0;
    DateOf(A.PadStart(A.Digits(shifted % 100), 2) + booking)
  }

  function TransactionOf(value: string): Result<Transaction> {
    var line := Line(value);
    if !DigitsAt(line, 0, 6) then Err(UNSUPPORTED)
    else
      var entry := if DigitsAt(line, 6, 4) then 10 else 6;
      var mark := MarkOf(line[entry..]);
      if mark.None? then Err(UNSUPPORTED)
      else
        var funds := entry + mark.value.length;
        var start := if funds < |line| && IsUpper(line[funds]) then funds + 1 else funds;
        if start > |line| then Err(UNSUPPORTED)
        else
          var run := AmountRun(line[start..]);
          if run == 0 || start + run + 4 > |line| || !IsCode(line[start + run..start + run + 4]) then Err(UNSUPPORTED)
          else Details(value, line, entry, mark.value.negative, start, run)
  }

  function Details(value: string, line: string, entry: nat, negative: bool, start: nat, run: nat): Result<Transaction>
    requires DigitsAt(line, 0, 6) && (entry == 6 || (entry == 10 && DigitsAt(line, 6, 4))) && start + run + 4 <= |line|
  {
    var date :- DateOf(line[..6]);
    var bookingDate :- if entry == 10 then BookingDate(line[..6], line[6..10]) else Ok(date);
    var parts := SplitSlashes(line[start + run + 4..]);
    if parts[0] == "" || |parts| > 2 then Err("Invalid MT940 transaction reference")
    else
      var amount :- A.Decimal(line[start..start + run], negative);
      Ok(Transaction(date, bookingDate, amount, line[start + run..start + run + 4], parts[0], if |parts| == 2 then parts[1] else "", Extra(value)))
  }

  // ----- The field machine -----

  datatype Field = Field(tag: string, value: string)

  /** `statements` ends with the statement being read while `closed` is false. */
  datatype State = State(account: string, number: string, hasCurrent: bool, closed: bool, count: nat, statements: seq<Statement>)

  const BLANK := State("", "", false, true, 0, [])
  const LIMIT := 500

  function Open(s: State): Statement
    requires s.statements != []
  {
    s.statements[|s.statements| - 1]
  }

  function WithOpen(s: State, open: Statement): State
    requires s.statements != []
  {
    s.(statements := s.statements[|s.statements| - 1 := open])
  }

  /** Hundred-thousandths, for the amounts the readers produce. */
  function Worth(amount: string): int {
    if A.Readable(amount) then A.Units(amount) else 0
  }

  function Total(rows: seq<Transaction>): int {
    if rows == [] then 0 else Total(rows[..|rows| - 1]) + Worth(rows[|rows| - 1].amount)
  }

  function JoinText(description: string, value: string): string {
    if description == "" then value else if value == "" then description else description + "\n" + value
  }

  /** Days compare as ISO strings; all of them have ten characters. */
  predicate NotAfter(a: string, b: string) {
    Ordering.Leq(a, b)
  }

  function StartStatement(s: State, value: string): Result<State> {
    if !s.closed || s.account == "" || s.number == "" then Err("Missing or out-of-order MT940 statement fields")
    else
      var opening :- BalanceOf(value);
      Ok(s.(hasCurrent := true, closed := false,
            statements := s.statements + [Statement(s.account, s.number, opening.currency, opening.amount, "", opening.date, "", [])]))
  }

  function AddTransaction(s: State, value: string): Result<State> {
    if !s.hasCurrent || s.closed || s.statements == [] then Err("Transaction outside an open statement")
    else if s.count + 1 > LIMIT then Err("Import at most 500 transactions at a time; export a shorter period")
    else
      var row :- TransactionOf(value);
      Ok(WithOpen(s, Open(s).(transactions := Open(s).transactions + [row])).(count := s.count + 1))
  }

  function AddNarrative(s: State, value: string): Result<State> {
    if !s.hasCurrent || s.closed || s.statements == [] then Err("Unsupported statement-level narrative")
    else if Open(s).transactions == [] then Err("Narrative without a transaction")
    else
      var rows := Open(s).transactions;
      var row := rows[|rows| - 1];
      Ok(WithOpen(s, Open(s).(transactions := rows[|rows| - 1 := row.(description := JoinText(row.description, value))])))
  }

  function CloseStatement(s: State, value: string): Result<State> {
    if !s.hasCurrent || s.closed || s.statements == [] then Err("Closing balance without an open statement")
    else
      var closing :- BalanceOf(value);
      var open := Open(s);
      if closing.currency != open.currency || !NotAfter(open.start, closing.date) then Err("Statement currency or date range is inconsistent")
      else if Worth(open.opening) + Total(open.transactions) != Worth(closing.amount) then
        Err("Statement balance does not reconcile; no transactions will be imported")
      else Ok(WithOpen(s, open.(closing := closing.amount, end := closing.date)).(closed := true))
  }

  function TakeField(s: State, f: Field): Result<State> {
    match f.tag
    case "20" =>
      if !s.closed then Err("Statement is missing its closing balance")
      else Ok(s.(account := "", number := "", hasCurrent := false))
    case "21" => Ok(s)
    case "25" =>
      if !s.closed then Err("Unexpected account inside a statement")
      else if Trim(f.value) == "" then Err("Missing bank account")
      else Ok(s.(account := Trim(f.value)))
    case "28" => if !s.closed then Err("Unexpected statement number") else Ok(s.(number := Trim(f.value)))
    case "28C" => if !s.closed then Err("Unexpected statement number") else Ok(s.(number := Trim(f.value)))
    case "60F" => StartStatement(s, f.value)
    case "60M" => StartStatement(s, f.value)
    case "61" => AddTransaction(s, f.value)
    case "86" => AddNarrative(s, f.value)
    case "62F" => CloseStatement(s, f.value)
    case "62M" => CloseStatement(s, f.value)
    case "64" => var checked :- BalanceOf(f.value); Ok(s)
    case "65" => var checked :- BalanceOf(f.value); Ok(s)
    case _ => Err("Unsupported MT940 field :" + f.tag + ":")
  }

  function TakeAll(fields: seq<Field>): Result<State> {
    if fields == [] then Ok(BLANK)
    else
      var s :- TakeAll(fields[..|fields| - 1]);
      TakeField(s, fields[|fields| - 1])
  }

  const INCOMPLETE := "Incomplete MT940 statement: opening and closing balances are required"

  const JSON_SHAPED := "JSON-shaped bank narratives are not supported yet; the statement was not imported"

  /** A narrative that JSON reads as an object or an array; `isJson` is that reading. */
  predicate JsonShaped(t: Transaction, isJson: string -> bool) {
    var narrative := Trim(t.description);
    ("[" <= narrative || "{" <= narrative) && isJson(narrative)
  }

  /** All the transactions of a file's statements, in order. */
  function Flatten(statements: seq<Statement>): seq<Transaction> {
    if statements == [] then [] else Flatten(statements[..|statements| - 1]) + statements[|statements| - 1].transactions
  }

  function Parse(fields: seq<Field>, isJson: string -> bool): Result<seq<Statement>> {
    var s :- TakeAll(fields);
    if s.statements == [] || !s.closed then Err(INCOMPLETE)
    else if exists t :: t in Flatten(s.statements) && JsonShaped(t, isJson) then Err(JSON_SHAPED)
    else Ok(s.statements)
  }

  // ----- The machine as it runs -----

  class Reader {
    var account: string
    var number: string
    var hasCurrent: bool
    var closed: bool
    var count: nat
    var statements: seq<Statement>

    ghost function Now(): State
      reads this
    {
      State(account, number, hasCurrent, closed, count, statements)
    }

    constructor ()
      ensures Now() == BLANK
    {
      account, number, hasCurrent, closed, count, statements := "", "", false, true, 0, [];
    }

    /** Takes one field, or says why it cannot; a refused field ends the reading. */
    method Take(f: Field) returns (error: Option<string>)
      modifies this
      ensures match TakeField(old(Now()), f)
        case Ok(s) => error == None && Now() == s
        case Err(e) => error == Some(e)
    {
      error := None;
      match f.tag {
        case "20" =>
          if !closed {
            return Some("Statement is missing its closing balance");
          }
          account, number, hasCurrent := "", "", false;
        case "21" =>
        case "25" =>
          if !closed {
            return Some("Unexpected account inside a statement");
          }
          account := Trim(f.value);
          if account == "" {
            return Some("Missing bank account");
          }
        case "28" => error := TakeNumber(f.value);
        case "28C" => error := TakeNumber(f.value);
        case "60F" => error := TakeOpening(f.value);
        case "60M" => error := TakeOpening(f.value);
        case "61" => error := TakeTransaction(f.value);
        case "86" => error := TakeNarrative(f.value);
        case "62F" => error := TakeClosing(f.value);
        case "62M" => error := TakeClosing(f.value);
        case "64" => error := if BalanceOf(f.value).Err? then Some(BalanceOf(f.value).error) else None;
        case "65" => error := if BalanceOf(f.value).Err? then Some(BalanceOf(f.value).error) else None;
        case _ => error := Some("Unsupported MT940 field :" + f.tag + ":");
      }
    }

    method TakeNumber(value: string) returns (error: Option<string>)
      modifies this
      ensures if !old(closed) then error == Some("Unexpected statement number")
        else error == None && Now() == old(Now()).(number := Trim(value))
    {
      if !closed {
        return Some("Unexpected statement number");
      }
      number := Trim(value);
      return None;
    }

    method TakeOpening(value: string) returns (error: Option<string>)
      modifies this
      ensures match StartStatement(old(Now()), value)
        case Ok(s) => error == None && Now() == s
        case Err(e) => error == Some(e)
    {
      if !closed || account == "" || number == "" {
        return Some("Missing or out-of-order MT940 statement fields");
      }
      var opening := BalanceOf(value);
      if opening.Err? {
        return Some(opening.error);
      }
      statements := statements + [Statement(account, number, opening.value.currency, opening.value.amount, "", opening.value.date, "", [])];
      hasCurrent, closed := true, false;
      return None;
    }

    method TakeTransaction(value: string) returns (error: Option<string>)
      modifies this
      ensures match AddTransaction(old(Now()), value)
        case Ok(s) => error == None && Now() == s
        case Err(e) => error == Some(e)
    {
      if !hasCurrent || closed || statements == [] {
        return Some("Transaction outside an open statement");
      }
      count := count + 1;
      if count > LIMIT {
        return Some("Import at most 500 transactions at a time; export a shorter period");
      }
      var row := TransactionOf(value);
      if row.Err? {
        return Some(row.error);
      }
      var open := statements[|statements| - 1];
      statements := statements[|statements| - 1 := open.(transactions := open.transactions + [row.value])];
      return None;
    }

    method TakeNarrative(value: string) returns (error: Option<string>)
      modifies this
      ensures match AddNarrative(old(Now()), value)
        case Ok(s) => error == None && Now() == s
        case Err(e) => error == Some(e)
    {
      if !hasCurrent || closed || statements == [] {
        return Some("Unsupported statement-level narrative");
      }
      var open := statements[|statements| - 1];
      var rows := open.transactions;
      if rows == [] {
        return Some("Narrative without a transaction");
      }
      var row := rows[|rows| - 1];
      row := row.(description := JoinText(row.description, value));
      statements := statements[|statements| - 1 := open.(transactions := rows[|rows| - 1 := row])];
      return None;
    }

    method TakeClosing(value: string) returns (error: Option<string>)
      modifies this
      ensures match CloseStatement(old(Now()), value)
        case Ok(s) => error == None && Now() == s
        case Err(e) => error == Some(e)
    {
      hide BalanceOf, Worth, Total, NotAfter;
      if !hasCurrent || closed || statements == [] {
        return Some("Closing balance without an open statement");
      }
      var closing := BalanceOf(value);
      if closing.Err? {
        return Some(closing.error);
      }
      var open := statements[|statements| - 1];
      if closing.value.currency != open.currency || !NotAfter(open.start, closing.value.date) {
        return Some("Statement currency or date range is inconsistent");
      }
      if Worth(open.opening) + Total(open.transactions) != Worth(closing.value.amount) {
        return Some("Statement balance does not reconcile; no transactions will be imported");
      }
      statements := statements[|statements| - 1 := open.(closing := closing.value.amount, end := closing.value.date)];
      closed := true;
      return None;
    }
  }

  /** A narrative that, without the white space around it, begins like an object or an
      array and reads as JSON. */
  ghost predicate LooksLikeJson(t: Transaction, isJson: string -> bool) {
    exists narrative :: IsTrimmed(narrative, t.description) && narrative != "" && (narrative[0] == '{' || narrative[0] == '[') && isJson(narrative)
  }

  lemma JsonShapedIs(t: Transaction, isJson: string -> bool)
    ensures JsonShaped(t, isJson) <==> LooksLikeJson(t, isJson)
  {
    var trimmed := Trim(t.description);
    forall narrative ensures IsTrimmed(narrative, t.description) <==> narrative == trimmed {
      TrimmedIsTrim(narrative, t.description);
    }
    assert trimmed != "" ==> trimmed[..1] == [trimmed[0]];
    hide Trim, IsTrimmed;
  }

  /** Counts the narratives that would be taken for JSON. */
  method JsonNarratives(statements: seq<Statement>, isJson: string -> bool) returns (count: nat)
    ensures count > 0 <==> exists t :: t in Flatten(statements) && JsonShaped(t, isJson)
  {
    hide JsonShaped;
    count := 0;
    for i := 0 to |statements|
      invariant count > 0 <==> exists t :: t in Flatten(statements[..i]) && JsonShaped(t, isJson)
    {
      assert statements[..i + 1][..i] == statements[..i];
      var rows := statements[i].transactions;
      for j := 0 to |rows|
        invariant count > 0 <==> exists t :: t in Flatten(statements[..i]) + rows[..j] && JsonShaped(t, isJson)
      {
        assert rows[..j + 1] == rows[..j] + [rows[j]];
        if JsonShaped(rows[j], isJson) {
          count := count + 1;
          assert rows[j] in Flatten(statements[..i]) + rows[..j + 1];
        }
      }
      assert rows[..|rows|] == rows;
    }
    assert statements[..|statements|] == statements;
  }

  /** Feeds every field to one reader, and refuses what stays open or looks like JSON. */
  method ParseFields(fields: seq<Field>, isJson: string -> bool) returns (result: Result<seq<Statement>>)
    ensures result == Parse(fields, isJson)
  {
    hide StartStatement, AddTransaction, AddNarrative, CloseStatement, BalanceOf, TransactionOf, TakeField, JsonShaped, Flatten;
    var reader := new Reader();
    for i := 0 to |fields|
      invariant fresh(reader)
      invariant TakeAll(fields[..i]) == Ok(reader.Now())
    {
      assert fields[..i + 1][..i] == fields[..i];
      var error := reader.Take(fields[i]);
      if error.Some? {
        RefusedField(fields, i + 1);
        return Err(error.value);
      }
    }
    assert fields[..|fields|] == fields;
    if reader.statements == [] || !reader.closed {
      return Err(INCOMPLETE);
    }
    var shaped := JsonNarratives(reader.statements, isJson);
    if shaped > 0 {
      return Err(JSON_SHAPED);
    }
    return Ok(reader.statements);
  }

  lemma {:induction false} RefusedField(fields: seq<Field>, n: nat)
    requires n <= |fields| && TakeAll(fields[..n]).Err?
    ensures TakeAll(fields) == TakeAll(fields[..n])
    decreases |fields|
  {
    hide TakeField;
    if n == |fields| {
      assert fields[..n] == fields;
    } else {
      assert fields[..|fields| - 1][..n] == fields[..n];
      RefusedField(fields[..|fields| - 1], n);
    }
  }

  // ----- What a successful reading guarantees -----

  lemma BalanceIsCanonical(value: string)
    requires BalanceOf(value).Ok?
    ensures A.Canonical(BalanceOf(value).value.amount) && IsCurrency(BalanceOf(value).value.currency)
  {
    hide A.Decimal, A.Canonical, AmountRun, DateOf;
    A.DecimalIsExact(value[10..], value[0] == 'D');
  }

  lemma DetailsAreCanonical(value: string, line: string, entry: nat, negative: bool, start: nat, run: nat)
    requires DigitsAt(line, 0, 6) && (entry == 6 || (entry == 10 && DigitsAt(line, 6, 4))) && start + run + 4 <= |line|
    requires Details(value, line, entry, negative, start, run).Ok?
    ensures A.Canonical(Details(value, line, entry, negative, start, run).value.amount)
  {
    hide A.Decimal, A.Canonical, DateOf, BookingDate, SplitSlashes, Extra;
    A.DecimalIsExact(line[start..start + run], negative);
  }

  lemma TransactionIsCanonical(value: string)
    requires TransactionOf(value).Ok?
    ensures A.Canonical(TransactionOf(value).value.amount)
  {
    hide A.Canonical, AmountRun, MarkOf, IsCode, Line, Details;
    var line := Line(value);
    var entry := if DigitsAt(line, 6, 4) then 10 else 6;
    var mark := MarkOf(line[entry..]).value;
    var funds := entry + mark.length;
    var start := if funds < |line| && IsUpper(line[funds]) then funds + 1 else funds;
    DetailsAreCanonical(value, line, entry, mark.negative, start, AmountRun(line[start..]));
  }

  ghost predicate Begun(st: Statement) {
    && st.account != "" && st.number != "" && IsCurrency(st.currency) && A.Canonical(st.opening)
    && forall r :: r in st.transactions ==> A.Canonical(r.amount)
  }

  /** A closed statement: its entries lead from the opening to the closing balance
      exactly, and its period is in order. */
  ghost predicate Reconciled(st: Statement) {
    && Begun(st) && A.Canonical(st.closing)
    && Worth(st.opening) + Total(st.transactions) == Worth(st.closing)
    && NotAfter(st.start, st.end)
  }

  /** What the fields say on their own: a transaction for every field 61, with the
      narratives of the 86 fields that follow it. */
  function Lines(fields: seq<Field>): seq<Transaction> {
    if fields == [] then []
    else
      var before := Lines(fields[..|fields| - 1]);
      var f := fields[|fields| - 1];
      if f.tag == "61" && TransactionOf(f.value).Ok? then before + [TransactionOf(f.value).value]
      else if f.tag == "86" && before != [] then
        before[|before| - 1 := before[|before| - 1].(description := JoinText(before[|before| - 1].description, f.value))]
      else before
  }

  /** All statements but the open one are closed and reconciled. */
  ghost predicate Good(s: State) {
    && (s.closed || (s.hasCurrent && s.statements != [] && Begun(Open(s))))
    && (forall i :: 0 <= i < |s.statements| - (if s.closed then 0 else 1) ==> Reconciled(s.statements[i]))
    && |Flatten(s.statements)| == s.count <= LIMIT
  }

  lemma FlattenOpen(statements: seq<Statement>, open: Statement)
    requires statements != []
    ensures Flatten(statements[|statements| - 1 := open]) == Flatten(statements[..|statements| - 1]) + open.transactions
    ensures Flatten(statements) == Flatten(statements[..|statements| - 1]) + statements[|statements| - 1].transactions
  {
    assert statements[|statements| - 1 := open][..|statements| - 1] == statements[..|statements| - 1];
  }

  lemma FlattenMore(statements: seq<Statement>, st: Statement)
    ensures Flatten(statements + [st]) == Flatten(statements) + st.transactions
  {
    assert (statements + [st])[..|statements|] == statements;
  }

  lemma StartKeepsGood(s: State, value: string)
    requires Good(s) && StartStatement(s, value).Ok?
    ensures Good(StartStatement(s, value).value) && Flatten(StartStatement(s, value).value.statements) == Flatten(s.statements)
  {
    hide BalanceOf, A.Canonical, IsCurrency, Total, Worth, Reconciled;
    BalanceIsCanonical(value);
    var t := StartStatement(s, value).value;
    FlattenMore(s.statements, t.statements[|s.statements|]);
    assert forall i :: 0 <= i < |s.statements| ==> t.statements[i] == s.statements[i];
  }

  lemma AddKeepsGood(s: State, value: string)
    requires Good(s) && AddTransaction(s, value).Ok?
    ensures TransactionOf(value).Ok?
    ensures Good(AddTransaction(s, value).value) && Flatten(AddTransaction(s, value).value.statements) == Flatten(s.statements) + [TransactionOf(value).value]
  {
    hide TransactionOf, A.Canonical, IsCurrency, Total, Worth, Reconciled;
    TransactionIsCanonical(value);
    var open := Open(s).(transactions := Open(s).transactions + [TransactionOf(value).value]);
    FlattenOpen(s.statements, open);
  }

  lemma NarrativeKeepsGood(s: State, value: string)
    requires Good(s) && AddNarrative(s, value).Ok?
    ensures var all := Flatten(s.statements);
      && all != []
      && Good(AddNarrative(s, value).value)
      && Flatten(AddNarrative(s, value).value.statements) == all[|all| - 1 := all[|all| - 1].(description := JoinText(all[|all| - 1].description, value))]
  {
    hide A.Canonical, IsCurrency, Total, Worth, Reconciled, JoinText;
    var rows := Open(s).transactions;
    var row := rows[|rows| - 1].(description := JoinText(rows[|rows| - 1].description, value));
    var open := Open(s).(transactions := rows[|rows| - 1 := row]);
    FlattenOpen(s.statements, open);
    assert forall r :: r in open.transactions ==> r == row || r in rows;
    assert rows[|rows| - 1] in rows;
    var front := Flatten(s.statements[..|s.statements| - 1]);
    assert front + rows[|rows| - 1 := row] == (front + rows)[|front + rows| - 1 := row];
  }

  lemma CloseKeepsGood(s: State, value: string)
    requires Good(s) && CloseStatement(s, value).Ok?
    ensures Good(CloseStatement(s, value).value) && Flatten(CloseStatement(s, value).value.statements) == Flatten(s.statements)
  {
    hide BalanceOf, A.Canonical, IsCurrency, Total, Worth, NotAfter;
    BalanceIsCanonical(value);
    var closing := BalanceOf(value).value;
    var open := Open(s).(closing := closing.amount, end := closing.date);
    FlattenOpen(s.statements, open);
    assert Reconciled(open);
    hide Reconciled, Begun;
  }

  lemma TakeKeepsGood(s: State, f: Field)
    requires Good(s) && TakeField(s, f).Ok?
    ensures Good(TakeField(s, f).value)
    ensures var before, after := Flatten(s.statements), Flatten(TakeField(s, f).value.statements);
      after == (if f.tag == "61" && TransactionOf(f.value).Ok? then before + [TransactionOf(f.value).value]
                else if f.tag == "86" && before != [] then before[|before| - 1 := before[|before| - 1].(description := JoinText(before[|before| - 1].description, f.value))]
                else before)
  {
    hide StartStatement, AddTransaction, AddNarrative, CloseStatement, BalanceOf, TransactionOf, Flatten, JoinText, Reconciled, Begun, Trim;
    if f.tag == "60F" || f.tag == "60M" {
      StartKeepsGood(s, f.value);
    } else if f.tag == "61" {
      AddKeepsGood(s, f.value);
    } else if f.tag == "86" {
      NarrativeKeepsGood(s, f.value);
    } else if f.tag == "62F" || f.tag == "62M" {
      CloseKeepsGood(s, f.value);
    }
  }

  /** In every state the machine reaches, all statements but the open one are closed
      and reconciled, and the transactions are exactly what the fields say, in order. */
  lemma {:induction false} ReaderInvariant(fields: seq<Field>)
    requires TakeAll(fields).Ok?
    ensures Good(TakeAll(fields).value) && Flatten(TakeAll(fields).value.statements) == Lines(fields)
    decreases |fields|
  {
    hide TakeField, TransactionOf, JoinText;
    if fields != [] {
      ReaderInvariant(fields[..|fields| - 1]);
      TakeKeepsGood(TakeAll(fields[..|fields| - 1]).value, fields[|fields| - 1]);
      hide Good, Flatten;
    }
  }

  // ----- Which fields a statement spans -----

  predicate OpensStatement(tag: string) {
    tag == "60F" || tag == "60M"
  }

  predicate ClosesStatement(tag: string) {
    tag == "62F" || tag == "62M"
  }

  function BalanceIn(f: Field, wanted: bool): seq<Balance> {
    if wanted && BalanceOf(f.value).Ok? then [BalanceOf(f.value).value] else []
  }

  /** The balances of the opening fields, in order. */
  function OpeningBalances(fields: seq<Field>): seq<Balance> {
    if fields == [] then []
    else OpeningBalances(fields[..|fields| - 1]) + BalanceIn(fields[|fields| - 1], OpensStatement(fields[|fields| - 1].tag))
  }

  function ClosingBalances(fields: seq<Field>): seq<Balance> {
    if fields == [] then []
    else ClosingBalances(fields[..|fields| - 1]) + BalanceIn(fields[|fields| - 1], ClosesStatement(fields[|fields| - 1].tag))
  }

  predicate OpenedBy(st: Statement, b: Balance) {
    st.currency == b.currency && st.opening == b.amount && st.start == b.date
  }

  /** The closing balance is in the statement's currency. */
  predicate ClosedBy(st: Statement, b: Balance) {
    st.currency == b.currency && st.closing == b.amount && st.end == b.date
  }

  ghost predicate Spans(s: State, starts: seq<Balance>, ends: seq<Balance>) {
    && |starts| == |s.statements| && |ends| == |starts| - (if s.closed then 0 else 1)
    && (forall i :: 0 <= i < |starts| ==> OpenedBy(s.statements[i], starts[i]))
    && (forall i :: 0 <= i < |ends| ==> ClosedBy(s.statements[i], ends[i]))
  }

  lemma StartKeepsSpans(s: State, value: string, starts: seq<Balance>, ends: seq<Balance>)
    requires Spans(s, starts, ends) && StartStatement(s, value).Ok?
    ensures BalanceOf(value).Ok? && Spans(StartStatement(s, value).value, starts + [BalanceOf(value).value], ends)
  {
    hide BalanceOf;
  }

  lemma CloseKeepsSpans(s: State, value: string, starts: seq<Balance>, ends: seq<Balance>)
    requires Spans(s, starts, ends) && CloseStatement(s, value).Ok?
    ensures BalanceOf(value).Ok? && Spans(CloseStatement(s, value).value, starts, ends + [BalanceOf(value).value])
  {
    hide BalanceOf, NotAfter, Total, Worth;
  }

  lemma AddKeepsSpans(s: State, value: string, starts: seq<Balance>, ends: seq<Balance>)
    requires Spans(s, starts, ends)
    ensures AddTransaction(s, value).Ok? ==> Spans(AddTransaction(s, value).value, starts, ends)
    ensures AddNarrative(s, value).Ok? ==> Spans(AddNarrative(s, value).value, starts, ends)
  {
    hide TransactionOf, JoinText;
  }

  lemma TakeKeepsSpans(s: State, f: Field, starts: seq<Balance>, ends: seq<Balance>)
    requires Spans(s, starts, ends) && TakeField(s, f).Ok?
    ensures Spans(TakeField(s, f).value, starts + BalanceIn(f, OpensStatement(f.tag)), ends + BalanceIn(f, ClosesStatement(f.tag)))
  {
    hide StartStatement, AddTransaction, AddNarrative, CloseStatement, BalanceOf, TransactionOf, Trim, OpenedBy, ClosedBy;
    assert starts + [] == starts && ends + [] == ends;
    AddKeepsSpans(s, f.value, starts, ends);
    if OpensStatement(f.tag) {
      StartKeepsSpans(s, f.value, starts, ends);
    } else if ClosesStatement(f.tag) {
      CloseKeepsSpans(s, f.value, starts, ends);
    }
  }

  lemma {:induction false} ReaderSpans(fields: seq<Field>)
    requires TakeAll(fields).Ok?
    ensures Spans(TakeAll(fields).value, OpeningBalances(fields), ClosingBalances(fields))
    decreases |fields|
  {
    hide TakeField, BalanceIn, Spans;
    if fields != [] {
      ReaderSpans(fields[..|fields| - 1]);
      TakeKeepsSpans(TakeAll(fields[..|fields| - 1]).value, fields[|fields| - 1], OpeningBalances(fields[..|fields| - 1]), ClosingBalances(fields[..|fields| - 1]));
    } else {
      BlankSpans();
    }
  }

  lemma BlankSpans()
    ensures Spans(BLANK, [], [])
  {
  }

  /** The account the fields name at their end: that of the last field 25, unless a new message began since. */
  function AccountIn(fields: seq<Field>): string {
    if fields == [] then ""
    else
      var f := fields[|fields| - 1];
      if f.tag == "20" then "" else if f.tag == "25" then Trim(f.value) else AccountIn(fields[..|fields| - 1])
  }

  /** The statement number the fields name at their end, of the last field 28 or 28C. */
  function NumberIn(fields: seq<Field>): string {
    if fields == [] then ""
    else
      var f := fields[|fields| - 1];
      if f.tag == "20" then "" else if f.tag == "28" || f.tag == "28C" then Trim(f.value) else NumberIn(fields[..|fields| - 1])
  }

  /** Account and number at each opening field, in order. */
  function Heads(fields: seq<Field>): seq<(string, string)> {
    if fields == [] then []
    else
      var before, f := fields[..|fields| - 1], fields[|fields| - 1];
      Heads(before) + if OpensStatement(f.tag) then [(AccountIn(before), NumberIn(before))] else []
  }

  /** The machine's account and number, and those of its statements, are the fields'. */
  ghost predicate Headed(s: State, account: string, number: string, heads: seq<(string, string)>) {
    && s.account == account && s.number == number && |heads| == |s.statements|
    && forall i :: 0 <= i < |heads| ==> (s.statements[i].account, s.statements[i].number) == heads[i]
  }

  lemma StartKeepsHeads(s: State, value: string, heads: seq<(string, string)>)
    requires Headed(s, s.account, s.number, heads) && StartStatement(s, value).Ok?
    ensures Headed(StartStatement(s, value).value, s.account, s.number, heads + [(s.account, s.number)])
  {
    hide BalanceOf;
  }

  lemma LastKeepsHeads(s: State, t: State, heads: seq<(string, string)>, open: Statement)
    requires Headed(s, s.account, s.number, heads) && s.statements != []
    requires t.account == s.account && t.number == s.number && t.statements == s.statements[|s.statements| - 1 := open]
    requires open.account == Open(s).account && open.number == Open(s).number
    ensures Headed(t, s.account, s.number, heads)
  {
  }

  lemma AddKeepsHeads(s: State, value: string, heads: seq<(string, string)>)
    requires Headed(s, s.account, s.number, heads) && AddTransaction(s, value).Ok?
    ensures Headed(AddTransaction(s, value).value, s.account, s.number, heads)
  {
    hide TransactionOf, Headed;
    LastKeepsHeads(s, AddTransaction(s, value).value, heads, Open(s).(transactions := Open(s).transactions + [TransactionOf(value).value]));
  }

  lemma NarrativeKeepsHeads(s: State, value: string, heads: seq<(string, string)>)
    requires Headed(s, s.account, s.number, heads) && AddNarrative(s, value).Ok?
    ensures Headed(AddNarrative(s, value).value, s.account, s.number, heads)
  {
    hide JoinText, Headed;
    LastKeepsHeads(s, AddNarrative(s, value).value, heads, Open(AddNarrative(s, value).value));
  }

  lemma CloseKeepsHeads(s: State, value: string, heads: seq<(string, string)>)
    requires Headed(s, s.account, s.number, heads) && CloseStatement(s, value).Ok?
    ensures Headed(CloseStatement(s, value).value, s.account, s.number, heads)
  {
    hide BalanceOf, NotAfter, Total, Worth, Headed;
    LastKeepsHeads(s, CloseStatement(s, value).value, heads, Open(CloseStatement(s, value).value));
  }

  lemma TakeKeepsHeads(s: State, f: Field, heads: seq<(string, string)>)
    requires Headed(s, s.account, s.number, heads) && TakeField(s, f).Ok?
    ensures Headed(TakeField(s, f).value,
      if f.tag == "20" then "" else if f.tag == "25" then Trim(f.value) else s.account,
      if f.tag == "20" then "" else if f.tag == "28" || f.tag == "28C" then Trim(f.value) else s.number,
      heads + if OpensStatement(f.tag) then [(s.account, s.number)] else [])
  {
    hide StartStatement, AddTransaction, AddNarrative, CloseStatement, BalanceOf, Trim;
    assert heads + [] == heads;
    if OpensStatement(f.tag) {
      StartKeepsHeads(s, f.value, heads);
    } else if f.tag == "61" {
      AddKeepsHeads(s, f.value, heads);
    } else if f.tag == "86" {
      NarrativeKeepsHeads(s, f.value, heads);
    } else if ClosesStatement(f.tag) {
      CloseKeepsHeads(s, f.value, heads);
    }
  }

  lemma {:induction false} ReaderHeads(fields: seq<Field>)
    requires TakeAll(fields).Ok?
    ensures Headed(TakeAll(fields).value, AccountIn(fields), NumberIn(fields), Heads(fields))
    decreases |fields|
  {
    hide TakeField, Trim;
    if fields != [] {
      ReaderHeads(fields[..|fields| - 1]);
      TakeKeepsHeads(TakeAll(fields[..|fields| - 1]).value, fields[|fields| - 1], Heads(fields[..|fields| - 1]));
      hide Headed;
    }
  }

  /** A file that is read has statements, one for each opening and each closing
      field, in order. Each is of the account and number named before it, runs from
      its opening to its closing balance, both in one currency, reconciles exactly
      and within its period; together they hold the file's transactions, at most 500
      of them, each once and in order, and none with a narrative that JSON would read. */
  lemma ReadFilesReconcile(fields: seq<Field>, isJson: string -> bool)
    requires Parse(fields, isJson).Ok?
    ensures var statements, starts, ends := Parse(fields, isJson).value, OpeningBalances(fields), ClosingBalances(fields);
      && statements != [] && |starts| == |statements| == |ends| == |Heads(fields)|
      && (forall i :: 0 <= i < |statements| ==>
            && (statements[i].account, statements[i].number) == Heads(fields)[i]
            && OpenedBy(statements[i], starts[i]) && ClosedBy(statements[i], ends[i]) && starts[i].currency == ends[i].currency
            && Reconciled(statements[i]))
      && Flatten(statements) == Lines(fields) && |Lines(fields)| <= LIMIT
      && forall t :: t in Lines(fields) ==> !LooksLikeJson(t, isJson)
  {
    hide TakeAll, Reconciled, JsonShaped, AccountIn, NumberIn, LooksLikeJson;
    forall t ensures JsonShaped(t, isJson) <==> LooksLikeJson(t, isJson) {
      JsonShapedIs(t, isJson);
    }
    ReaderInvariant(fields);
    ReaderSpans(fields);
    ReaderHeads(fields);
  }

  // ----- From lines to fields -----

  predicate EndsWith(s: string, end: string) {
    |end| <= |s| && s[|s| - |end|..] == end
  }

  /** SWIFT block markers around the fields. */
  predicate IsEnvelope(line: string) {
    || (|line| >= 6 && "{1:" <= line && EndsWith(line, "{4:") && OneLine(line))
    || line == "{4:" || line == " -}" || line == "-}"
    || (|line| >= 4 && "{5:" <= line && EndsWith(line, "}") && OneLine(line))
  }

  /** The length of the tag in `:tag:value`, or zero. */
  function TagLength(line: string): (n: nat)
    ensures n == 0 || (2 <= n <= 3 && n + 2 <= |line| && line[0] == ':' && line[n + 1] == ':')
  {
    if |line| < 4 || line[0] != ':' || !DigitsAt(line, 1, 2) || !OneLine(line) then 0
    else if line[3] == ':' then 2
    else if |line| > 4 && IsUpper(line[3]) && line[4] == ':' then 3
    else 0
  }

  function FieldAt(line: string): Field
    requires TagLength(line) > 0
  {
    Field(line[1..TagLength(line) + 1], line[TagLength(line) + 2..])
  }

  predicate Continues(f: Field) {
    f.tag == "61" || f.tag == "86"
  }

  const MISPLACED := "Unsupported MT940 header or field continuation"

  function AddLine(fields: seq<Field>, line: string): Result<seq<Field>> {
    if IsEnvelope(line) then Ok(fields)
    else if TagLength(line) > 0 then Ok(fields + [FieldAt(line)])
    else if Trim(line) == "" then Ok(fields)
    else if fields == [] || !Continues(fields[|fields| - 1]) then Err(MISPLACED)
    else Ok(fields[|fields| - 1 := fields[|fields| - 1].(value := fields[|fields| - 1].value + "\n" + line)])
  }

  function FieldsOf(lines: seq<string>): Result<seq<Field>> {
    if lines == [] then Ok([])
    else
      var before :- FieldsOf(lines[..|lines| - 1]);
      AddLine(before, lines[|lines| - 1])
  }

  /** Collects the fields of a file, line by line. */
  method ReadFields(lines: seq<string>) returns (result: Result<seq<Field>>)
    ensures result == FieldsOf(lines)
  {
    hide IsEnvelope, TagLength, Trim;
    var fields: seq<Field> := [];
    for i := 0 to |lines|
      invariant FieldsOf(lines[..i]) == Ok(fields)
    {
      assert lines[..i + 1][..i] == lines[..i];
      var line := lines[i];
      if IsEnvelope(line) {
      } else if TagLength(line) > 0 {
        fields := fields + [FieldAt(line)];
      } else if Trim(line) != "" {
        if fields == [] || !Continues(fields[|fields| - 1]) {
          MisplacedLine(lines, i + 1);
          return Err(MISPLACED);
        }
        var previous := fields[|fields| - 1];
        fields := fields[|fields| - 1 := previous.(value := previous.value + "\n" + line)];
      }
    }
    assert lines[..|lines|] == lines;
    return Ok(fields);
  }

  lemma {:induction false} MisplacedLine(lines: seq<string>, n: nat)
    requires n <= |lines| && FieldsOf(lines[..n]).Err?
    ensures FieldsOf(lines) == FieldsOf(lines[..n])
    decreases |lines|
  {
    hide AddLine;
    if n == |lines| {
      assert lines[..n] == lines;
    } else {
      assert lines[..|lines| - 1][..n] == lines[..n];
      MisplacedLine(lines[..|lines| - 1], n);
    }
  }

  function JoinLines(lines: seq<string>): string {
    if lines == [] then "" else if |lines| == 1 then lines[0] else JoinLines(lines[..|lines| - 1]) + "\n" + lines[|lines| - 1]
  }

  /** The lines that say something: no block markers, no blank lines. */
  function Kept(lines: seq<string>): seq<string> {
    if lines == [] then []
    else
      var line := lines[|lines| - 1];
      var before := Kept(lines[..|lines| - 1]);
      if IsEnvelope(line) || (TagLength(line) == 0 && Trim(line) == "") then before else before + [line]
  }

  function Printed(fields: seq<Field>): seq<string> {
    seq(|fields|, i requires 0 <= i < |fields| => ":" + fields[i].tag + ":" + fields[i].value)
  }

  lemma JoinMore(lines: seq<string>, line: string)
    ensures JoinLines(lines + [line]) == if lines == [] then line else JoinLines(lines) + "\n" + line
  {
    assert (lines + [line])[..|lines|] == lines;
  }

  lemma JoinLonger(lines: seq<string>, more: string)
    requires lines != []
    ensures JoinLines(lines[|lines| - 1 := lines[|lines| - 1] + "\n" + more]) == JoinLines(lines) + "\n" + more
  {
    var longer := lines[|lines| - 1 := lines[|lines| - 1] + "\n" + more];
    assert longer[..|lines| - 1] == lines[..|lines| - 1];
    if |lines| > 1 {
      var front := JoinLines(lines[..|lines| - 1]);
      assert front + "\n" + (lines[|lines| - 1] + "\n" + more) == (front + "\n" + lines[|lines| - 1]) + "\n" + more;
    }
  }

  lemma FieldPrints(line: string)
    requires TagLength(line) > 0
    ensures ":" + FieldAt(line).tag + ":" + FieldAt(line).value == line
  {
    var n := TagLength(line);
    assert line == [line[0]] + line[1..n + 1] + [line[n + 1]] + line[n + 2..];
  }

  lemma LongerPrints(fields: seq<Field>, line: string)
    requires fields != []
    ensures var k := |fields| - 1;
      Printed(fields[k := fields[k].(value := fields[k].value + "\n" + line)]) == Printed(fields)[k := Printed(fields)[k] + "\n" + line]
  {
    var k := |fields| - 1;
    var last := fields[k];
    assert ":" + last.tag + ":" + (last.value + "\n" + line) == (":" + last.tag + ":" + last.value) + "\n" + line;
  }

  /** Nothing is lost or reordered between lines and fields: the fields written out
      again are the file's lines, without block markers and blank lines. */
  lemma {:induction false} FieldsKeepLines(lines: seq<string>)
    requires FieldsOf(lines).Ok?
    ensures JoinLines(Printed(FieldsOf(lines).value)) == JoinLines(Kept(lines))
    ensures FieldsOf(lines).value == [] <==> Kept(lines) == []
    decreases |lines|
  {
    hide IsEnvelope, TagLength, Trim, JoinLines;
    if lines == [] {
      assert Printed([]) == [];
    } else {
      var init, line := lines[..|lines| - 1], lines[|lines| - 1];
      FieldsKeepLines(init);
      var before, after := FieldsOf(init).value, FieldsOf(lines).value;
      JoinMore(Kept(init), line);
      if IsEnvelope(line) {
      } else if TagLength(line) > 0 {
        FieldPrints(line);
        assert Printed(after) == Printed(before) + [line];
        JoinMore(Printed(before), line);
      } else if Trim(line) != "" {
        JoinLonger(Printed(before), line);
        LongerPrints(before, line);
      }
    }
  }
}
