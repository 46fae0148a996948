/** The append-only records a bank file becomes, and importing a statement again. */
module BankImport {
  import opened Wrappers
  import opened ImportRecords
  import opened BankIdentity
  import opened ImportStore
  import opened ImportSettles
  import opened ImportValues
  import opened ImportAppend
  import Amounts
  import J = StableJson

  /** The configured properties of a statement row, by meaning. */
  datatype Config = Config(
    table: string, rowClass: string,
    account: Property, currency: Property, statement: Property, periodStart: Property, periodEnd: Property,
    opening: Property, closing: Property, entryCount: Property, format: Property, importedDate: Property, sourceId: Property,
    fingerprint: Property)

  const NAME := "https://atomicdata.dev/properties/name"

  function StatementIdentity(format: string, s: Statement): string {
    "statement:" + J.Stringify(Texts([format, s.account, s.currency, s.number, s.start, s.end]))
  }

  /** A statement row's values; properties configured alike take the later value. */
  function StatementValues(c: Config, format: string, s: Statement, today: string): map<Property, Value> {
    map[NAME := Text(s.account + " " + s.currency + " " + s.number)]
    [c.account := Text(s.account)]
    [c.currency := Text(s.currency)]
    [c.statement := Text(s.number)]
    [c.periodStart := Text(s.start)]
    [c.periodEnd := Text(s.end)]
    [c.opening := Text(s.opening)]
    [c.closing := Text(s.closing)]
    [c.entryCount := Text(Amounts.Digits(|s.transactions|))]
    [c.format := Text(format)]
    [c.importedDate := Text(today)]
    [c.sourceId := Text(StatementIdentity(format, s))]
  }

  function StatementRecord(c: Config, format: string, s: Statement, index: nat, today: string): Record {
    Record("statement-" + Amounts.Digits(index), StatementIdentity(format, s), c.table, [c.rowClass], true, NoLegacy, StatementValues(c, format, s, today))
  }

  /** One record for each statement, numbered in file order. */
  function StatementRecords(c: Config, format: string, statements: seq<Statement>, today: string): seq<Record> {
    seq(|statements|, i requires 0 <= i < |statements| => StatementRecord(c, format, statements[i], i, today))
  }

  /** The batch never repeats a local id, whatever the file. */
  lemma LocalIdsDistinct(c: Config, format: string, statements: seq<Statement>, today: string)
    ensures DistinctLocalIds(StatementRecords(c, format, statements, today))
  {
    var records := StatementRecords(c, format, statements, today);
    forall i, j | 0 <= i < j < |records|
      ensures records[i].localId != records[j].localId
    {
      DigitsInjective(i, j);
      assert records[i].localId[|"statement-"|..] == Amounts.Digits(i);
      assert records[j].localId[|"statement-"|..] == Amounts.Digits(j);
    }
  }

  /** Statement rows are told apart by format, account, currency, number and period. */
  lemma StatementIdentityIff(format: string, s: Statement, format2: string, t: Statement)
    ensures StatementIdentity(format, s) == StatementIdentity(format2, t) <==>
      format == format2 && s.account == t.account && s.currency == t.currency && s.number == t.number && s.start == t.start && s.end == t.end
  {
    hide J.Stringify;
    var a, b := [format, s.account, s.currency, s.number, s.start, s.end], [format2, t.account, t.currency, t.number, t.start, t.end];
    TextsInjective(a, b);
    assert StatementIdentity(format, s)[|"statement:"|..] == J.Stringify(Texts(a));
    assert StatementIdentity(format2, t)[|"statement:"|..] == J.Stringify(Texts(b));
    assert a == b <==> a[0] == b[0] && a[1] == b[1] && a[2] == b[2] && a[3] == b[3] && a[4] == b[4] && a[5] == b[5];
  }

  // ----- Importing a file again -----

  lemma OnlyTheDateDiffers(c: Config, format: string, statements: seq<Statement>, first: string, today: string, i: nat)
    requires c.importedDate != c.sourceId && i < |statements|
    ensures var r, t := StatementRecords(c, format, statements, first)[i], StatementRecords(c, format, statements, today)[i];
      && Alike(r, t) && t.append && r.legacy.NoLegacy?
      && r.sourceId == StatementIdentity(format, statements[i])
      && r.values[c.importedDate := Text(today)] == t.values
      && c.importedDate in r.values && r.values[c.importedDate] == Text(first)
  {
    hide StatementIdentity, Amounts.Digits;
  }

  lemma DateIncoming(q: Progress, r: Record, t: Record, date: Property, first: string, today: string)
    requires AllResolve(q.bindings, r.values) && date in r.values && r.values[date] == Text(first)
    requires t.values == r.values[date := Text(today)]
    requires !IsLocal(first) && !IsLocal(today)
    ensures AllResolve(q.bindings, t.values) && t.values.Keys == r.values.Keys
    ensures date in Incoming(q, r) && Incoming(q, r)[date] == Text(first)
    ensures Incoming(q, t) == Incoming(q, r)[date := Text(today)]
  {
    assert Resolve(q.bindings, Text(today)) == Ok(Text(today)) && Resolve(q.bindings, Text(first)) == Ok(Text(first));
    hide Resolve;
    assert forall x :: x in t.values && x != date ==> t.values[x] == r.values[x];
  }

  lemma DateClashes(q: Progress, r: Record, t: Record, date: Property, first: string, today: string, clashes: map<Property, ImportClash>)
    requires date in Incoming(q, r) && Incoming(q, r)[date] == Text(first) && first != today
    requires Incoming(q, t) == Incoming(q, r)[date := Text(today)]
    ensures Changed(q, r, t)
    ensures ChangedOnly(clashes, Incoming(q, r), Incoming(q, t)) ==> clashes.Keys == {date}
  {
    hide Incoming;
    assert Lookup(Incoming(q, r), date) != Some(Incoming(q, t)[date]);
  }

  /** A file's statements were imported cleanly. Importing the same file again on
      the same day leaves every row untouched. On any other day it still writes
      nothing, but reports one conflict for each statement, in file order, on that
      statement's row and on nothing but the import date. */
  lemma ReimportedFile(c: Config, format: string, statements: seq<Statement>, first: string, today: string, store: Store, mint: map<string, Subject>, after: Store)
    requires c.importedDate != c.sourceId && !IsLocal(first) && !IsLocal(today)
    requires Tidy(store) && ImportedInto(store, StatementRecords(c, format, statements, first), mint, after)
    requires Import(store, StatementRecords(c, format, statements, first)).value.problems == []
    ensures var again := Import(after, StatementRecords(c, format, statements, today));
      if first == today then again == Ok(Report([], [], 0, 0, |statements|))
      else
        && again.Ok? && again.value == Report([], again.value.problems, 0, 0, 0)
        && |again.value.problems| == |statements|
        && forall i :: 0 <= i < |statements| ==>
             var problem := again.value.problems[i];
             && problem.ImportConflict? && problem.subject in after
             && after[problem.subject].localId == Some(StatementIdentity(format, statements[i]))
             && problem.clashes.Keys == {c.importedDate}
  {
    var records, others := StatementRecords(c, format, statements, first), StatementRecords(c, format, statements, today);
    forall i | 0 <= i < |statements| ensures Alike(records[i], others[i]) && records[i].legacy.NoLegacy? {
      OnlyTheDateDiffers(c, format, statements, first, today, i);
    }
    hide ImportedInto, Tidy, Import, BindAll, StatementRecords, StatementIdentity, OneRowEach, OwnRow, Readable, Answered;
    UnsharedRows(store, records, mint, after);
    if first == today {
      RepeatLeavesUntouched(store, records, mint, after);
    } else {
      OwnRowsAfter(store, records, mint, after);
      var q := BindAll(after, records).progress;
      forall i | 0 <= i < |statements| ensures Readable(q.bindings, records[i], others[i]) && Changed(q, records[i], others[i]) {
        StatementAgain(c, format, statements, first, today, after, q, i, map[]);
      }
      AppendRepeatReports(store, records, mint, after, others);
      var problems := Import(after, others).value.problems;
      BindsAlike(after, records, others);
      AllAnswered(after, q, records, others, problems);
      forall i | 0 <= i < |statements|
        ensures problems[i].ImportConflict? && problems[i].subject in after
        ensures after[problems[i].subject].localId == Some(StatementIdentity(format, statements[i])) && problems[i].clashes.Keys == {c.importedDate}
      {
        assert Reported(after, q, records[i], others[i], problems[i]);
        StatementAgain(c, format, statements, first, today, after, q, i, problems[i].clashes);
        OnlyTheDateDiffers(c, format, statements, first, today, i);
      }
    }
  }

  lemma StatementAgain(c: Config, format: string, statements: seq<Statement>, first: string, today: string, after: Store, q: Progress, i: nat, clashes: map<Property, ImportClash>)
    requires c.importedDate != c.sourceId && !IsLocal(first) && !IsLocal(today) && first != today && i < |statements|
    requires OwnRow(after, q, StatementRecords(c, format, statements, first)[i])
    ensures var r, t := StatementRecords(c, format, statements, first)[i], StatementRecords(c, format, statements, today)[i];
      && Readable(q.bindings, r, t) && Changed(q, r, t)
      && (ChangedOnly(clashes, Incoming(q, r), Incoming(q, t)) ==> clashes.Keys == {c.importedDate})
  {
    var r, t := StatementRecords(c, format, statements, first)[i], StatementRecords(c, format, statements, today)[i];
    assert AllResolve(q.bindings, r.values);
    OnlyTheDateDiffers(c, format, statements, first, today, i);
    hide StatementRecords, OwnRow, Incoming, Changed, ChangedOnly;
    DateIncoming(q, r, t, c.importedDate, first, today);
    DateClashes(q, r, t, c.importedDate, first, today, clashes);
  }

  // ----- What a statement's row says -----

  /** The configuration gives every meaning a property of its own. */
  predicate OwnProperties(c: Config) {
    && NAME !in {c.account, c.currency, c.statement, c.periodStart, c.periodEnd, c.opening, c.closing, c.entryCount, c.format, c.importedDate, c.sourceId}
    && c.account !in {c.currency, c.statement, c.periodStart, c.periodEnd, c.opening, c.closing, c.entryCount, c.format, c.importedDate, c.sourceId}
    && c.currency !in {c.statement, c.periodStart, c.periodEnd, c.opening, c.closing, c.entryCount, c.format, c.importedDate, c.sourceId}
    && c.statement !in {c.periodStart, c.periodEnd, c.opening, c.closing, c.entryCount, c.format, c.importedDate, c.sourceId}
    && c.periodStart !in {c.periodEnd, c.opening, c.closing, c.entryCount, c.format, c.importedDate, c.sourceId}
    && c.periodEnd !in {c.opening, c.closing, c.entryCount, c.format, c.importedDate, c.sourceId}
    && c.opening !in {c.closing, c.entryCount, c.format, c.importedDate, c.sourceId}
    && c.closing !in {c.entryCount, c.format, c.importedDate, c.sourceId}
    && c.entryCount !in {c.format, c.importedDate, c.sourceId}
    && c.format !in {c.importedDate, c.sourceId}
    && c.importedDate !in {c.sourceId}
  }

  predicate Says(row: Row, p: Property, text: string) {
    p in row.values && row.values[p] == Text(text)
  }

  /** The row is the statement, value by value. */
  predicate TellsStatement(row: Row, c: Config, format: string, s: Statement, today: string) {
    && row.parent == Some(c.table) && row.isA == Some([c.rowClass])
    && row.localId == Some(StatementIdentity(format, s)) && Says(row, c.sourceId, StatementIdentity(format, s))
    && Says(row, NAME, s.account + " " + s.currency + " " + s.number)
    && Says(row, c.account, s.account) && Says(row, c.currency, s.currency) && Says(row, c.statement, s.number)
    && Says(row, c.periodStart, s.start) && Says(row, c.periodEnd, s.end)
    && Says(row, c.opening, s.opening) && Says(row, c.closing, s.closing)
    && Says(row, c.entryCount, Amounts.Digits(|s.transactions|)) && Says(row, c.format, format) && Says(row, c.importedDate, today)
  }

  /** None of the statement's texts reads as a reference to another record. */
  predicate NoReferences(c: Config, format: string, s: Statement, today: string) {
    && !IsLocal(c.table) && !IsLocal(s.account) && !IsLocal(s.currency) && !IsLocal(s.number) && !IsLocal(s.start) && !IsLocal(s.end)
    && !IsLocal(s.opening) && !IsLocal(s.closing) && !IsLocal(format) && !IsLocal(today)
  }

  lemma PlainStays(names: map<string, Subject>, t: string, w: Value)
    requires Mirrors(names, Text(t), w) && !IsLocal(t)
    ensures w == Text(t)
  {
  }

  lemma ValuesSay(c: Config, format: string, s: Statement, today: string)
    requires OwnProperties(c)
    ensures var v := StatementValues(c, format, s, today);
      && v.Keys == {NAME, c.account, c.currency, c.statement, c.periodStart, c.periodEnd, c.opening, c.closing, c.entryCount, c.format, c.importedDate, c.sourceId}
      && v[NAME] == Text(s.account + " " + s.currency + " " + s.number) && v[c.account] == Text(s.account) && v[c.currency] == Text(s.currency)
      && v[c.statement] == Text(s.number) && v[c.periodStart] == Text(s.start) && v[c.periodEnd] == Text(s.end)
      && v[c.opening] == Text(s.opening) && v[c.closing] == Text(s.closing) && v[c.entryCount] == Text(Amounts.Digits(|s.transactions|))
      && v[c.format] == Text(format) && v[c.importedDate] == Text(today) && v[c.sourceId] == Text(StatementIdentity(format, s))
  {
    hide StatementIdentity, Amounts.Digits;
  }

  /** Importing a file into any tidy destination gives every statement that is new
      there a row of its own that says what the statement says, value by value. */
  lemma StatementsAreStored(c: Config, format: string, statements: seq<Statement>, today: string, store: Store, mint: map<string, Subject>, after: Store)
    requires OwnProperties(c) && forall i :: 0 <= i < |statements| ==> NoReferences(c, format, statements[i], today)
    requires Tidy(store) && ImportedInto(store, StatementRecords(c, format, statements, today), mint, after)
    ensures forall i :: 0 <= i < |statements| ==> StatementStored(c, format, statements[i], today, store, after)
  {
    var records := StatementRecords(c, format, statements, today);
    forall i | 0 <= i < |statements| ensures records[i] in records && records[i] == StatementRecord(c, format, statements[i], i, today) {
    }
    hide Tidy, ImportedInto, StatementRecord, StatementRecords, Stored, StatementStored, NothingElse, ChangesSaid;
    var names := ImportStores(store, records, mint, after);
    forall i | 0 <= i < |statements| ensures StatementStored(c, format, statements[i], today, store, after) {
      StatementIsStored(c, format, statements[i], i, today, store, after, names);
    }
  }

  ghost predicate StatementStored(c: Config, format: string, s: Statement, today: string, store: Store, after: Store) {
    exists row :: row in after && if row in store then store[row].localId == Some(StatementIdentity(format, s)) else TellsStatement(after[row], c, format, s, today)
  }

  lemma StatementIsStored(c: Config, format: string, s: Statement, index: nat, today: string, store: Store, after: Store, names: map<string, Subject>)
    requires OwnProperties(c) && NoReferences(c, format, s, today)
    requires Stored(store, after, names, StatementRecord(c, format, s, index, today))
    ensures StatementStored(c, format, s, today, store, after)
  {
    var r := StatementRecord(c, format, s, index, today);
    var row := names[r.localId];
    hide StatementValues, StatementIdentity, Amounts.Digits, Mirrors, Under;
    if row in store {
      NoLegacyFound(store, ParentIn(names, r), r, row);
    } else {
      LocalText(c.table);
      CreatedTells(c, format, s, index, today, after[row], names);
    }
  }

  lemma NoLegacyFound(store: Store, parent: Subject, r: Record, s: Subject)
    requires FoundFor(store, parent, r, s) && r.legacy.NoLegacy?
    ensures s in store && store[s].localId == Some(r.sourceId)
  {
    hide Under;
    assert !CarriesLegacy(store, parent, r, s);
  }

  lemma DigitsAreDigits(n: nat)
    ensures !IsLocal(Amounts.Digits(n))
  {
    assert !Amounts.AllDigits(LOCAL) by {
      assert LOCAL[0] == 'l';
    }
    assert Amounts.AllDigits(Amounts.Digits(n));
  }

  lemma CreatedTells(c: Config, format: string, s: Statement, index: nat, today: string, row: Row, names: map<string, Subject>)
    requires OwnProperties(c) && NoReferences(c, format, s, today)
    requires CreatedFrom(names, StatementRecord(c, format, s, index, today), row)
    ensures TellsStatement(row, c, format, s, today)
  {
    var v := StatementValues(c, format, s, today);
    ValuesSay(c, format, s, today);
    DigitsAreDigits(|s.transactions|);
    LocalText(c.table);
    NameIsPlain(s);
    assert !IsLocal(StatementIdentity(format, s)) by {
      hide J.Stringify;
      assert StatementIdentity(format, s)[0] == 's';
    }
    hide OwnProperties, StatementValues, StatementIdentity, Amounts.Digits, Mirrors, IsLocal;
    forall p | p in v && v[p].Text? && !IsLocal(v[p].text) ensures Says(row, p, v[p].text) {
      PlainStays(names, v[p].text, row.values[p]);
    }
  }

  lemma NameIsPlain(s: Statement)
    requires !IsLocal(s.account)
    ensures !IsLocal(s.account + " " + s.currency + " " + s.number)
  {
    var name := s.account + " " + s.currency + " " + s.number;
    assert name == s.account + (" " + s.currency + " " + s.number);
    assert forall i :: 0 <= i < |LOCAL| ==> LOCAL[i] != ' ';
    assert name[|s.account|] == ' ';
  }
}
