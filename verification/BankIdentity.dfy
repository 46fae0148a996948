/** What names an imported bank transaction, and when a file is refused for naming two alike. */
module BankIdentity {
  import opened Wrappers
  import Amounts
  import Characters
  import J = StableJson

  datatype Transaction = Transaction(
    date: string, bookingDate: string, amount: string, code: string,
    reference: string, bankReference: string, description: string)

  datatype Statement = Statement(
    account: string, number: string, currency: string, opening: string, closing: string,
    start: string, end: string, transactions: seq<Transaction>)

  datatype Entry = Entry(statement: Statement, row: Transaction, index: nat, identity: string, fingerprint: string, reference: string)

  // ----- Strings of JSON arrays -----

  function Texts(texts: seq<string>): J.Json {
    J.List(seq(|texts|, i requires 0 <= i < |texts| => J.Text(texts[i])))
  }

  function Numeral(n: nat): J.Json {
    J.Number(Amounts.Digits(n))
  }

  lemma TextsAreWellFormed(texts: seq<string>)
    ensures J.WellFormed(Texts(texts))
  {
  }

  lemma NumeralIsWellFormed(n: nat)
    ensures J.WellFormed(Numeral(n))
  {
    var d := Amounts.Digits(n);
    assert forall i :: 0 <= i < |d| ==> Characters.IsDigit(d[i]);
  }

  /** JSON arrays of strings are told apart by their texts. */
  lemma TextsInjective(a: seq<string>, b: seq<string>)
    ensures J.Stringify(Texts(a)) == J.Stringify(Texts(b)) <==> a == b
  {
    TextsAreWellFormed(a);
    TextsAreWellFormed(b);
    J.SameTextIffEqual(Texts(a), Texts(b));
    hide J.Stringify;
    if J.Equal(Texts(a), Texts(b)) {
      forall i | 0 <= i < |a|
        ensures a[i] == b[i]
      {
        assert J.Equal(Texts(a).items[i], Texts(b).items[i]);
      }
    }
    if a == b {
      EqualToSelf(a);
    }
  }

  lemma EqualToSelf(a: seq<string>)
    ensures J.Equal(Texts(a), Texts(a))
  {
  }

  // ----- Identities -----

  function StatementKey(s: Statement): string {
    J.Stringify(Texts([s.number, s.start, s.end, s.opening, s.closing]))
  }

  function ReferenceOf(row: Transaction): string {
    if row.bankReference != "" && row.bankReference != "NONREF" then row.bankReference else ""
  }

  function Place(s: Statement, row: Transaction, index: nat): J.Json {
    if ReferenceOf(row) != "" then J.List([J.Text("bank"), J.Text(ReferenceOf(row))])
    else J.List([J.Text("statement"), J.Text(StatementKey(s)), Numeral(index)])
  }

  function IdentityTree(format: string, s: Statement, row: Transaction, index: nat): J.Json {
    J.List([J.Text(format), J.Text(s.account), J.Text(s.currency), Place(s, row, index)])
  }

  function Identity(format: string, s: Statement, row: Transaction, index: nat): string {
    J.Stringify(IdentityTree(format, s, row, index))
  }

  function Fingerprint(format: string, s: Statement, row: Transaction): string {
    format + "-content:" + J.Stringify(Texts([s.account, s.currency, row.date, row.bookingDate, row.amount, row.code, row.reference, row.description]))
  }

  /** What an identity is meant to say: the bank's reference within an account, or the
      line's place in a statement. */
  datatype Key =
    | ByReference(format: string, account: string, currency: string, reference: string)
    | ByPlace(format: string, account: string, currency: string, number: string, start: string, end: string, opening: string, closing: string, index: nat)

  function KeyOf(format: string, s: Statement, row: Transaction, index: nat): Key {
    if row.bankReference != "" && row.bankReference != "NONREF" then ByReference(format, s.account, s.currency, row.bankReference)
    else ByPlace(format, s.account, s.currency, s.number, s.start, s.end, s.opening, s.closing, index)
  }

  lemma PlaceIsWellFormed(s: Statement, row: Transaction, index: nat)
    ensures J.WellFormed(Place(s, row, index))
  {
    hide J.Stringify;
    NumeralIsWellFormed(index);
  }

  lemma StatementKeyInjective(s: Statement, t: Statement)
    ensures StatementKey(s) == StatementKey(t) <==>
      s.number == t.number && s.start == t.start && s.end == t.end && s.opening == t.opening && s.closing == t.closing
  {
    hide J.Stringify;
    var a, b := [s.number, s.start, s.end, s.opening, s.closing], [t.number, t.start, t.end, t.opening, t.closing];
    TextsInjective(a, b);
    assert a == b <==> a[0] == b[0] && a[1] == b[1] && a[2] == b[2] && a[3] == b[3] && a[4] == b[4];
  }

  lemma DigitsInjective(m: nat, n: nat)
    ensures Amounts.Digits(m) == Amounts.Digits(n) <==> m == n
  {
    Amounts.NatOfDigits(m);
    Amounts.NatOfDigits(n);
  }

  lemma SamePlace(s: Statement, row: Transaction, i: nat, t: Statement, other: Transaction, j: nat)
    ensures J.Equal(Place(s, row, i), Place(t, other, j)) <==>
      if ReferenceOf(row) != "" then ReferenceOf(row) == ReferenceOf(other)
      else ReferenceOf(other) == "" && StatementKey(s) == StatementKey(t) && i == j
  {
    DigitsInjective(i, j);
    hide J.Stringify, Amounts.Digits, ReferenceOf, StatementKey;
    var a, b := Place(s, row, i), Place(t, other, j);
    assert |a.items| == |b.items| ==> (J.Equal(a, b) <==> forall k :: 0 <= k < |a.items| ==> J.Equal(a.items[k], b.items[k]));
    if |a.items| == 2 && |b.items| == 2 {
      assert J.Equal(a, b) <==> J.Equal(a.items[0], b.items[0]) && J.Equal(a.items[1], b.items[1]);
    } else if |a.items| == 3 && |b.items| == 3 {
      assert J.Equal(a, b) <==> J.Equal(a.items[0], b.items[0]) && J.Equal(a.items[1], b.items[1]) && J.Equal(a.items[2], b.items[2]);
    }
  }

  /** Two identity strings are the same exactly when they name the same thing. */
  lemma IdentityIffKey(format: string, s: Statement, row: Transaction, i: nat, format2: string, t: Statement, other: Transaction, j: nat)
    ensures Identity(format, s, row, i) == Identity(format2, t, other, j) <==> KeyOf(format, s, row, i) == KeyOf(format2, t, other, j)
  {
    PlaceIsWellFormed(s, row, i);
    PlaceIsWellFormed(t, other, j);
    SamePlace(s, row, i, t, other, j);
    StatementKeyInjective(s, t);
    hide J.Stringify, Place, StatementKey;
    var a, b := IdentityTree(format, s, row, i), IdentityTree(format2, t, other, j);
    J.SameTextIffEqual(a, b);
    assert J.Equal(a, b) <==> J.Equal(a.items[0], b.items[0]) && J.Equal(a.items[1], b.items[1]) && J.Equal(a.items[2], b.items[2]) && J.Equal(a.items[3], b.items[3]);
  }

  /** Two fingerprints of one format are the same exactly when the content is. */
  lemma FingerprintIffContent(format: string, s: Statement, row: Transaction, t: Statement, other: Transaction)
    ensures Fingerprint(format, s, row) == Fingerprint(format, t, other) <==>
      && s.account == t.account && s.currency == t.currency
      && row.(bankReference := other.bankReference) == other
  {
    hide J.Stringify;
    var a := [s.account, s.currency, row.date, row.bookingDate, row.amount, row.code, row.reference, row.description];
    var b := [t.account, t.currency, other.date, other.bookingDate, other.amount, other.code, other.reference, other.description];
    TextsInjective(a, b);
    var head := format + "-content:";
    assert Fingerprint(format, s, row)[|head|..] == J.Stringify(Texts(a));
    assert Fingerprint(format, t, other)[|head|..] == J.Stringify(Texts(b));
    assert a == b <==> a[0] == b[0] && a[1] == b[1] && a[2] == b[2] && a[3] == b[3] && a[4] == b[4] && a[5] == b[5] && a[6] == b[6] && a[7] == b[7];
  }

  // ----- A file's entries -----

  function EntryOf(format: string, s: Statement, index: nat): Entry
    requires index < |s.transactions|
  {
    var row := s.transactions[index];
    Entry(s, row, index, Identity(format, s, row, index), Fingerprint(format, s, row), ReferenceOf(row))
  }

  /** The first `n` entries of a statement, in file order. */
  function Rows(format: string, s: Statement, n: nat): (r: seq<Entry>)
    requires n <= |s.transactions|
    ensures |r| == n
  {
    if n == 0 then [] else Rows(format, s, n - 1) + [EntryOf(format, s, n - 1)]
  }

  /** All entries of a file, in order. */
  function AllRows(format: string, statements: seq<Statement>): seq<Entry> {
    if statements == [] then []
    else
      var last := statements[|statements| - 1];
      AllRows(format, statements[..|statements| - 1]) + Rows(format, last, |last.transactions|)
  }

  function KeyOfEntry(format: string, e: Entry): Key {
    KeyOf(format, e.statement, e.row, e.index)
  }

  /** No two entries name the same thing. */
  ghost predicate NamedApart(format: string, rows: seq<Entry>) {
    forall i, j :: 0 <= i < j < |rows| ==> KeyOfEntry(format, rows[i]) != KeyOfEntry(format, rows[j])
  }

  const CONFLICTING := "Conflicting bank transaction references in this file"
  const REPEATED := "Repeated bank transaction reference in this file; export non-overlapping statements"

  /** Entry `j` is the first whose name an earlier entry `i` has. */
  ghost predicate FirstRepeat(format: string, rows: seq<Entry>, i: nat, j: nat) {
    i < j < |rows| && KeyOfEntry(format, rows[i]) == KeyOfEntry(format, rows[j]) && NamedApart(format, rows[..j])
  }

  /** What a repeated name is reported as. */
  ghost predicate Reports(format: string, rows: seq<Entry>, error: string) {
    exists i: nat, j: nat :: FirstRepeat(format, rows, i, j) && error == if rows[i].fingerprint == rows[j].fingerprint then REPEATED else CONFLICTING
  }

  /** `seen` records every entry so far under its identity. */
  ghost predicate Seen(format: string, out: seq<Entry>, seen: map<string, string>) {
    && (forall i :: 0 <= i < |out| ==> out[i].identity in seen && seen[out[i].identity] == out[i].fingerprint)
    && (forall id :: id in seen ==> exists i :: 0 <= i < |out| && out[i].identity == id)
    && (forall i :: 0 <= i < |out| ==> out[i].identity == Identity(format, out[i].statement, out[i].row, out[i].index))
    && NamedApart(format, out)
  }

  lemma SeenMore(format: string, out: seq<Entry>, seen: map<string, string>, e: Entry)
    requires Seen(format, out, seen) && e.identity == Identity(format, e.statement, e.row, e.index) && e.identity !in seen
    ensures Seen(format, out + [e], seen[e.identity := e.fingerprint])
  {
    hide Identity, KeyOf;
    forall i | 0 <= i < |out|
      ensures KeyOfEntry(format, out[i]) != KeyOfEntry(format, e)
    {
      IdentityIffKey(format, out[i].statement, out[i].row, out[i].index, format, e.statement, e.row, e.index);
    }
    var more := out + [e];
    assert more[|out|] == e && forall i :: 0 <= i < |out| ==> more[i] == out[i];
    forall id | id in seen
      ensures exists i :: 0 <= i < |more| && more[i].identity == id
    {
      var i :| 0 <= i < |out| && out[i].identity == id;
      assert more[i].identity == id;
    }
  }

  lemma SeenBefore(format: string, out: seq<Entry>, seen: map<string, string>, e: Entry)
    requires Seen(format, out, seen) && e.identity == Identity(format, e.statement, e.row, e.index) && e.identity in seen
    ensures Reports(format, out + [e], if seen[e.identity] == e.fingerprint then REPEATED else CONFLICTING)
  {
    hide Identity, KeyOf;
    var i :| 0 <= i < |out| && out[i].identity == e.identity;
    IdentityIffKey(format, out[i].statement, out[i].row, out[i].index, format, e.statement, e.row, e.index);
    assert (out + [e])[..|out|] == out;
    assert FirstRepeat(format, out + [e], i, |out|);
  }

  lemma ReportStays(format: string, rows: seq<Entry>, more: seq<Entry>, error: string)
    requires Reports(format, rows, error)
    ensures Reports(format, rows + more, error)
  {
    hide KeyOfEntry;
    var i: nat, j: nat :| FirstRepeat(format, rows, i, j) && error == if rows[i].fingerprint == rows[j].fingerprint then REPEATED else CONFLICTING;
    assert (rows + more)[..j] == rows[..j];
    assert FirstRepeat(format, rows + more, i, j);
  }

  lemma {:induction false} RowsContinue(format: string, s: Statement, n: nat, m: nat)
    requires n <= m <= |s.transactions|
    ensures Rows(format, s, n) <= Rows(format, s, m)
    decreases m - n
  {
    if n < m {
      RowsContinue(format, s, n, m - 1);
    }
  }

  lemma {:induction false} AllRowsContinue(format: string, statements: seq<Statement>, k: nat)
    requires k <= |statements|
    ensures AllRows(format, statements[..k]) <= AllRows(format, statements)
    decreases |statements| - k
  {
    if k < |statements| {
      AllRowsContinue(format, statements, k + 1);
      assert statements[..k + 1][..k] == statements[..k];
    } else {
      assert statements[..k] == statements;
    }
  }

  lemma PrefixAppend(a: seq<Entry>, b: seq<Entry>, c: seq<Entry>)
    requires b <= c
    ensures a + b <= a + c
  {
  }

  /** Entry `k` of statement `s` comes after everything before it, and no later. */
  lemma UpTo(format: string, statements: seq<Statement>, s: nat, k: nat)
    requires s < |statements| && k < |statements[s].transactions|
    ensures AllRows(format, statements[..s]) + Rows(format, statements[s], k) + [EntryOf(format, statements[s], k)] <= AllRows(format, statements)
  {
    hide EntryOf;
    var rows := statements[s].transactions;
    RowsStep(format, statements[s], k);
    RowsContinue(format, statements[s], k + 1, |rows|);
    AllRowsStep(format, statements, s);
    AllRowsContinue(format, statements, s + 1);
    hide Rows, AllRows;
    var before, all := AllRows(format, statements[..s]), Rows(format, statements[s], |rows|);
    PrefixAppend(before, Rows(format, statements[s], k + 1), all);
    assert before + Rows(format, statements[s], k + 1) <= before + all <= AllRows(format, statements);
    assert before + Rows(format, statements[s], k) + [EntryOf(format, statements[s], k)] == before + Rows(format, statements[s], k + 1);
  }

  /** Lists a file's entries in order, and refuses exactly the files in which two
      entries name the same thing. */
  method Entries(format: string, statements: seq<Statement>) returns (result: Result<seq<Entry>>)
    ensures result.Ok? <==> NamedApart(format, AllRows(format, statements))
    ensures result.Ok? ==> result.value == AllRows(format, statements)
    ensures result.Err? ==> Reports(format, AllRows(format, statements), result.error)
  {
    hide Identity, Fingerprint, Seen, Reports, NamedApart, AllRows, Rows;
    var out: seq<Entry> := [];
    var seen: map<string, string> := map[];
    NothingSeen(format);
    assert statements[..0] == [];
    for s := 0 to |statements|
      invariant out == AllRows(format, statements[..s])
      invariant Seen(format, out, seen)
    {
      var statement := statements[s];
      ghost var before := out;
      RowsStart(format, statement);
      for k := 0 to |statement.transactions|
        invariant out == before + Rows(format, statement, k)
        invariant Seen(format, out, seen)
      {
        var e := EntryOf(format, statement, k);
        if e.identity in seen {
          SeenBefore(format, out, seen, e);
          UpTo(format, statements, s, k);
          RefusedFile(format, out + [e], AllRows(format, statements), if seen[e.identity] == e.fingerprint then REPEATED else CONFLICTING);
          return Err(if seen[e.identity] != e.fingerprint then CONFLICTING else REPEATED);
        }
        SeenMore(format, out, seen, e);
        RowsStep(format, statement, k);
        seen := seen[e.identity := e.fingerprint];
        out := out + [e];
      }
      AllRowsStep(format, statements, s);
    }
    assert statements[..|statements|] == statements;
    SeenApart(format, out, seen);
    return Ok(out);
  }

  lemma NothingSeen(format: string)
    ensures Seen(format, [], map[]) && AllRows(format, []) == []
  {
  }

  lemma SeenApart(format: string, out: seq<Entry>, seen: map<string, string>)
    requires Seen(format, out, seen)
    ensures NamedApart(format, out)
  {
  }

  lemma RowsStart(format: string, s: Statement)
    ensures Rows(format, s, 0) == []
  {
  }

  lemma RowsStep(format: string, s: Statement, k: nat)
    requires k < |s.transactions|
    ensures Rows(format, s, k + 1) == Rows(format, s, k) + [EntryOf(format, s, k)]
  {
  }

  lemma AllRowsStep(format: string, statements: seq<Statement>, s: nat)
    requires s < |statements|
    ensures AllRows(format, statements[..s + 1]) == AllRows(format, statements[..s]) + Rows(format, statements[s], |statements[s].transactions|)
  {
    assert statements[..s + 1][..s] == statements[..s];
  }

  /** The transactions of the first `n` statements. */
  function Count(statements: seq<Statement>, n: nat): nat
    requires n <= |statements|
  {
    if n == 0 then 0 else Count(statements, n - 1) + |statements[n - 1].transactions|
  }

  lemma {:induction false} CountRows(format: string, statements: seq<Statement>, n: nat)
    requires n <= |statements|
    ensures |AllRows(format, statements[..n])| == Count(statements, n)
  {
    hide Rows;
    if n > 0 {
      CountRows(format, statements, n - 1);
      AllRowsStep(format, statements, n - 1);
    }
  }

  /** Every transaction is listed once, in file order: where it stands, what it is,
      and with which of the bank's references. */
  lemma EntriesInOrder(format: string, statements: seq<Statement>, s: nat, k: nat)
    requires s < |statements| && k < |statements[s].transactions|
    ensures |AllRows(format, statements)| == Count(statements, |statements|)
    ensures Count(statements, s) + k < |AllRows(format, statements)|
    ensures var e, row := AllRows(format, statements)[Count(statements, s) + k], statements[s].transactions[k];
      && e.statement == statements[s] && e.row == row && e.index == k
      && e.reference == if row.bankReference == "NONREF" then "" else row.bankReference
  {
    var before, first := AllRows(format, statements[..s]), Rows(format, statements[s], k);
    assert statements[..|statements|] == statements;
    CountRows(format, statements, |statements|);
    CountRows(format, statements, s);
    UpTo(format, statements, s, k);
    EntryShows(format, statements[s], k);
    hide AllRows, Rows, EntryOf, Count;
    assert (before + first + [EntryOf(format, statements[s], k)])[|before| + k] == EntryOf(format, statements[s], k);
  }

  lemma EntryShows(format: string, s: Statement, k: nat)
    requires k < |s.transactions|
    ensures var e, row := EntryOf(format, s, k), s.transactions[k];
      && e.statement == s && e.row == row && e.index == k
      && e.reference == if row.bankReference == "NONREF" then "" else row.bankReference
  {
    hide Identity, Fingerprint;
  }

  lemma RefusedFile(format: string, rows: seq<Entry>, all: seq<Entry>, error: string)
    requires rows <= all && Reports(format, rows, error)
    ensures Reports(format, all, error) && !NamedApart(format, all)
  {
    assert all == rows + all[|rows|..];
    ReportStays(format, rows, all[|rows|..], error);
    var i: nat, j: nat :| FirstRepeat(format, all, i, j) && error == if all[i].fingerprint == all[j].fingerprint then REPEATED else CONFLICTING;
  }
}
