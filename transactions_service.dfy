/** The transaction service: posting a transaction (header, entries, balance
    updates), deleting it (balance reversal, entries, header), reading
    transactions back, and the ledger facts that follow from its balance rule. */
module TransactionsService {
  import opened Wrappers
  import opened Text
  import opened Accounting
  import opened Database

  /** An entry as a caller supplies it; `TransactionEntry` without `id` and `transactionId`. */
  datatype EntryInput = EntryInput(accountId: Id, description: string, debit: int, credit: int)

  /** `CreateTransactionPayload`. */
  datatype CreateTransactionPayload = CreateTransactionPayload(
    date: string, transactionType: string, reference: string, description: string,
    entries: seq<EntryInput>)

  datatype TransactionEntry = TransactionEntry(
    transactionId: Id, accountId: Id, description: string, debit: int, credit: int)

  /** A transaction as the service returns it; timestamps are not modelled. */
  datatype Transaction = Transaction(
    id: Id, date: string, transactionType: string, reference: string, description: string,
    entries: seq<TransactionEntry>)

  /** The storage error each `throw` in the service passes on. */
  datatype ServiceError =
    | TransactionInsertFailed | EntriesInsertFailed | EntriesFetchFailed
    | EntriesDeleteFailed | TransactionDeleteFailed | TransactionsFetchFailed

  /** One account-type read of the posting or the reversal loop: the read
      before the debit, or the one before the credit, of the entry at `index`. */
  datatype Lookup = DebitLookup(index: nat) | CreditLookup(index: nat)

  /** Which storage calls of `createTransaction` report an error; a failing
      type read is named by its place in the posting loop. */
  datatype CreateFaults = CreateFaults(
    transactionInsert: bool, entriesInsert: bool, compensatingDelete: bool, entriesRefetch: bool,
    lookupFails: set<Lookup>)

  /** Which storage calls of `deleteTransaction` report an error. */
  datatype DeleteFaults = DeleteFaults(
    entriesFetch: bool, entriesDelete: bool, transactionDelete: bool, lookupFails: set<Lookup>)

  // ---------------------------------------------------------------------------
  // Rows written and records read back.

  function NewTransactionRow(id: Id, p: CreateTransactionPayload): TransactionRow
  {
    TransactionRow(id, p.date, p.transactionType, Some(p.reference), Some(p.description))
  }

  function EntryRowOf(tid: Id, e: EntryInput): EntryRow
  {
    EntryRow(tid, e.accountId, Some(e.description), Some(e.debit), Some(e.credit))
  }

  /** The rows `createTransaction` inserts for its entries, in payload order. */
  function EntryRowsOf(tid: Id, es: seq<EntryInput>): (r: seq<EntryRow>)
    ensures |r| == |es|
    ensures forall e :: e in r ==> e.transactionId == tid
  {
    if es == [] then [] else EntryRowsOf(tid, es[..|es| - 1]) + [EntryRowOf(tid, es[|es| - 1])]
  }

  /** The mapping of one stored entry in `transformTransaction`. */
  function TransformEntry(row: EntryRow): TransactionEntry
  {
    TransactionEntry(row.transactionId, row.accountId, row.description.GetOr(""),
                     row.debit.GetOr(0), row.credit.GetOr(0))
  }

  function TransformEntries(rows: seq<EntryRow>): (r: seq<TransactionEntry>)
    ensures |r| == |rows|
    ensures forall i :: 0 <= i < |rows| ==> r[i] == TransformEntry(rows[i])
  {
    if rows == [] then [] else TransformEntries(rows[..|rows| - 1]) + [TransformEntry(rows[|rows| - 1])]
  }

  /** `transformTransaction`: a stored header together with its stored entries. */
  function TransformTransaction(header: TransactionRow, rows: seq<EntryRow>): Transaction
  {
    Transaction(header.id, header.date, header.transactionType,
                header.reference.GetOr(""), header.description.GetOr(""), TransformEntries(rows))
  }

  /** Missing text becomes '' and missing amounts become 0; present values are
      copied unchanged. */
  lemma TransformDefaults(header: TransactionRow, rows: seq<EntryRow>, i: nat)
    requires i < |rows|
    ensures var t := TransformTransaction(header, rows);
      && t.id == header.id && t.date == header.date && t.transactionType == header.transactionType
      && (header.reference.None? ==> t.reference == "")
      && (header.reference.Some? ==> t.reference == header.reference.value)
      && (header.description.None? ==> t.description == "")
      && (header.description.Some? ==> t.description == header.description.value)
      && |t.entries| == |rows|
      && t.entries[i].transactionId == rows[i].transactionId
      && t.entries[i].accountId == rows[i].accountId
      && t.entries[i].description == (if rows[i].description.Some? then rows[i].description.value else "")
      && t.entries[i].debit == (if rows[i].debit.Some? then rows[i].debit.value else 0)
      && t.entries[i].credit == (if rows[i].credit.Some? then rows[i].credit.value else 0)
  {
  }

  /** What `createTransaction` returns on success echoes its payload, with the
      new id on the header and on every entry. */
  lemma {:induction false} TransformInserted(tid: Id, p: CreateTransactionPayload)
    ensures var t := TransformTransaction(NewTransactionRow(tid, p), EntryRowsOf(tid, p.entries));
      && t == Transaction(tid, p.date, p.transactionType, p.reference, p.description, t.entries)
      && |t.entries| == |p.entries|
      && forall i :: 0 <= i < |p.entries| ==>
           t.entries[i] == TransactionEntry(tid, p.entries[i].accountId, p.entries[i].description,
                                            p.entries[i].debit, p.entries[i].credit)
  {
    forall i | 0 <= i < |p.entries|
      ensures EntryRowsOf(tid, p.entries)[i] == EntryRowOf(tid, p.entries[i])
    {
      EntryRowsOfAt(tid, p.entries, i);
    }
  }

  lemma {:induction false} EntryRowsOfAt(tid: Id, es: seq<EntryInput>, i: nat)
    requires i < |es|
    ensures EntryRowsOf(tid, es)[i] == EntryRowOf(tid, es[i])
    decreases |es|
  {
    if i < |es| - 1 {
      EntryRowsOfAt(tid, es[..|es| - 1], i);
    }
  }

  /** Each stored header with the entries stored for it, in the given order. */
  function TransformAll(headers: seq<TransactionRow>, entries: seq<EntryRow>): (r: seq<Transaction>)
    ensures |r| == |headers|
    ensures forall i :: 0 <= i < |headers| ==> r[i] == TransformTransaction(headers[i], EntriesOf(entries, headers[i].id))
  {
    if headers == [] then []
    else TransformAll(headers[..|headers| - 1], entries)
         + [TransformTransaction(headers[|headers| - 1], EntriesOf(entries, headers[|headers| - 1].id))]
  }

  /** Each transaction is dated no later than the one before it. */
  predicate NewestFirst(ts: seq<Transaction>)
  {
    forall i :: 0 < i < |ts| ==> LexLessEq(ts[i].date, ts[i - 1].date)
  }

  /** Transforming keeps each header's id, date and type, position by position. */
  lemma TransformAllKeepsHeaders(headers: seq<TransactionRow>, entries: seq<EntryRow>)
    ensures var ts := TransformAll(headers, entries);
      && (DateDescending(headers) ==> NewestFirst(ts))
      && forall i :: 0 <= i < |ts| ==>
           ts[i].id == headers[i].id && ts[i].date == headers[i].date
           && ts[i].transactionType == headers[i].transactionType
           && ts[i].entries == TransformEntries(EntriesOf(entries, headers[i].id))
  {
  }

  /** A read of all transactions lists every stored header exactly as often
      as it is stored, newest first, each with exactly its own stored entries. */
  lemma ListingIsComplete(txs: seq<TransactionRow>, entries: seq<EntryRow>)
    ensures var sorted := SortByDateDesc(txs);
      var ts := TransformAll(sorted, entries);
      && NewestFirst(ts)
      && multiset(sorted) == multiset(txs)
      && |ts| == |txs|
      && forall i :: 0 <= i < |ts| ==>
           sorted[i] in txs && ts[i] == TransformTransaction(sorted[i], EntriesOf(entries, sorted[i].id))
  {
    var sorted := SortByDateDesc(txs);
    TransformAllKeepsHeaders(sorted, entries);
    assert |sorted| == |txs| by {
      assert |multiset(sorted)| == |multiset(txs)|;
    }
    forall i | 0 <= i < |sorted| ensures sorted[i] in txs {
      assert sorted[i] in multiset(txs);
    }
  }

  /** A read by type lists exactly the stored headers of that type, each as
      often as it is stored (see `TransactionsOfTypeCounts`), newest first,
      each with exactly its own stored entries. */
  lemma ListingByTypeIsExact(txs: seq<TransactionRow>, entries: seq<EntryRow>, transactionType: string)
    ensures var of := TransactionsOfType(txs, transactionType);
      var sorted := SortByDateDesc(of);
      var ts := TransformAll(sorted, entries);
      && NewestFirst(ts)
      && multiset(sorted) == multiset(of)
      && |ts| == |of| <= |txs|
      && (forall i :: 0 <= i < |ts| ==>
            && sorted[i] in txs && sorted[i].transactionType == transactionType
            && ts[i] == TransformTransaction(sorted[i], EntriesOf(entries, sorted[i].id)))
      && (forall t :: t in txs && t.transactionType == transactionType ==>
            (exists i :: 0 <= i < |ts| && ts[i].id == t.id))
  {
    var of := TransactionsOfType(txs, transactionType);
    var sorted := SortByDateDesc(of);
    TransformAllKeepsHeaders(sorted, entries);
    SortedOfTypeOnly(txs, transactionType);
    SortedOfTypeComplete(txs, transactionType);
  }

  lemma SortedOfTypeOnly(txs: seq<TransactionRow>, transactionType: string)
    ensures var of := TransactionsOfType(txs, transactionType);
      var sorted := SortByDateDesc(of);
      && |sorted| == |of|
      && forall i :: 0 <= i < |sorted| ==> sorted[i] in txs && sorted[i].transactionType == transactionType
  {
    var of := TransactionsOfType(txs, transactionType);
    var sorted := SortByDateDesc(of);
    assert |sorted| == |of| by {
      assert |multiset(sorted)| == |multiset(of)|;
    }
    forall i | 0 <= i < |sorted| ensures sorted[i] in txs && sorted[i].transactionType == transactionType {
      assert sorted[i] in multiset(sorted);
      assert sorted[i] in multiset(of);
      assert sorted[i] in of;
    }
  }

  lemma SortedOfTypeComplete(txs: seq<TransactionRow>, transactionType: string)
    ensures forall t :: t in txs && t.transactionType == transactionType ==>
      exists i :: 0 <= i < |SortByDateDesc(TransactionsOfType(txs, transactionType))|
        && SortByDateDesc(TransactionsOfType(txs, transactionType))[i].id == t.id
  {
    var of := TransactionsOfType(txs, transactionType);
    var sorted := SortByDateDesc(of);
    forall t | t in txs && t.transactionType == transactionType
      ensures exists i :: 0 <= i < |sorted| && sorted[i].id == t.id
    {
      assert t in of;
      assert t in multiset(of);
      assert t in multiset(sorted);
      var i :| 0 <= i < |sorted| && sorted[i] == t;
      assert sorted[i].id == t.id;
    }
    assert forall t :: t in txs && t.transactionType == transactionType ==>
      exists i :: 0 <= i < |sorted| && sorted[i].id == t.id;
    assert sorted == SortByDateDesc(TransactionsOfType(txs, transactionType));
  }

  // ---------------------------------------------------------------------------
  // The balance rule.

  /** `['asset', 'expense'].includes(type)`. */
  predicate IncreasesOnDebit(t: AccountType)
  {
    t == Asset || t == Expense
  }

  /** `['liability', 'equity', 'income'].includes(type)`. */
  predicate IncreasesOnCredit(t: AccountType)
  {
    t == Liability || t == Equity || t == Income
  }

  /** The balance change of a debit when posting. */
  function DebitChange(t: AccountType, amount: int): int
  {
    if IncreasesOnDebit(t) then amount else -amount
  }

  /** The balance change of a credit when posting. */
  function CreditChange(t: AccountType, amount: int): int
  {
    if IncreasesOnCredit(t) then amount else -amount
  }

  /** The balance change of a stored debit when deleting. */
  function ReverseDebitChange(t: AccountType, amount: int): int
  {
    if IncreasesOnDebit(t) then -amount else amount
  }

  /** The balance change of a stored credit when deleting. */
  function ReverseCreditChange(t: AccountType, amount: int): int
  {
    if IncreasesOnCredit(t) then -amount else amount
  }

  /** The sign table: every type increases on exactly one side; a debit raises
      asset and expense accounts and lowers the three others, a credit the
      other way round; deleting applies the exact negation. */
  lemma SignTable(t: AccountType, d: int)
    ensures IncreasesOnCredit(t) <==> !IncreasesOnDebit(t)
    ensures DebitChange(Asset, d) == d && DebitChange(Expense, d) == d
    ensures DebitChange(Liability, d) == -d && DebitChange(Equity, d) == -d && DebitChange(Income, d) == -d
    ensures CreditChange(Liability, d) == d && CreditChange(Equity, d) == d && CreditChange(Income, d) == d
    ensures CreditChange(Asset, d) == -d && CreditChange(Expense, d) == -d
    ensures ReverseDebitChange(t, d) == -DebitChange(t, d)
    ensures ReverseCreditChange(t, d) == -CreditChange(t, d)
  {
  }

  /** The `i`-th entry posted against the accounts table, as the loop body
      does it: the debit first, then the credit, each only when positive and
      only when the account lookup returns a row. A lookup in `fails` reports
      an error; like a missing account, it leaves that side unposted. */
  function PostEntry(accounts: map<Id, AccountRow>, e: EntryInput, i: nat, fails: set<Lookup>): map<Id, AccountRow>
  {
    var afterDebit :=
      if e.debit > 0 && DebitLookup(i) !in fails && e.accountId in accounts
      then AdjustBalance(accounts, e.accountId, DebitChange(accounts[e.accountId].accountType, e.debit))
      else accounts;
    if e.credit > 0 && CreditLookup(i) !in fails && e.accountId in afterDebit
    then AdjustBalance(afterDebit, e.accountId, CreditChange(afterDebit[e.accountId].accountType, e.credit))
    else afterDebit
  }

  /** The accounts table after posting `es` in order, the lookups in `fails`
      reporting an error. */
  function PostEntries(accounts: map<Id, AccountRow>, es: seq<EntryInput>, fails: set<Lookup>): map<Id, AccountRow>
  {
    if es == [] then accounts
    else PostEntry(PostEntries(accounts, es[..|es| - 1], fails), es[|es| - 1], |es| - 1, fails)
  }

  /** The `i`-th stored entry reversed, as the delete loop does it; a null
      amount counts as not positive. */
  function ReverseEntry(accounts: map<Id, AccountRow>, row: EntryRow, i: nat, fails: set<Lookup>): map<Id, AccountRow>
  {
    var debit := row.debit.GetOr(0);
    var credit := row.credit.GetOr(0);
    var afterDebit :=
      if debit > 0 && DebitLookup(i) !in fails && row.accountId in accounts
      then AdjustBalance(accounts, row.accountId, ReverseDebitChange(accounts[row.accountId].accountType, debit))
      else accounts;
    if credit > 0 && CreditLookup(i) !in fails && row.accountId in afterDebit
    then AdjustBalance(afterDebit, row.accountId, ReverseCreditChange(afterDebit[row.accountId].accountType, credit))
    else afterDebit
  }

  function ReverseEntries(accounts: map<Id, AccountRow>, rows: seq<EntryRow>, fails: set<Lookup>): map<Id, AccountRow>
  {
    if rows == [] then accounts
    else ReverseEntry(ReverseEntries(accounts, rows[..|rows| - 1], fails), rows[|rows| - 1], |rows| - 1, fails)
  }

  /** The change posting `e`, the `i`-th entry, makes to the balance of
      account `id` of type `t`. */
  function EntryEffect(t: AccountType, id: Id, e: EntryInput, i: nat, fails: set<Lookup>): int
  {
    if e.accountId != id then 0
    else (if e.debit > 0 && DebitLookup(i) !in fails then DebitChange(t, e.debit) else 0)
         + (if e.credit > 0 && CreditLookup(i) !in fails then CreditChange(t, e.credit) else 0)
  }

  function Effect(t: AccountType, id: Id, es: seq<EntryInput>, fails: set<Lookup>): int
  {
    if es == [] then 0
    else Effect(t, id, es[..|es| - 1], fails) + EntryEffect(t, id, es[|es| - 1], |es| - 1, fails)
  }

  /** The change reversing `row`, the `i`-th row, makes to the balance of
      account `id` of type `t`. */
  function RowEffect(t: AccountType, id: Id, row: EntryRow, i: nat, fails: set<Lookup>): int
  {
    if row.accountId != id then 0
    else (if row.debit.GetOr(0) > 0 && DebitLookup(i) !in fails then ReverseDebitChange(t, row.debit.GetOr(0)) else 0)
         + (if row.credit.GetOr(0) > 0 && CreditLookup(i) !in fails then ReverseCreditChange(t, row.credit.GetOr(0)) else 0)
  }

  function ReverseEffect(t: AccountType, id: Id, rows: seq<EntryRow>, fails: set<Lookup>): int
  {
    if rows == [] then 0
    else ReverseEffect(t, id, rows[..|rows| - 1], fails) + RowEffect(t, id, rows[|rows| - 1], |rows| - 1, fails)
  }

  /** Posting one entry changes only balances: same accounts, same types,
      and each balance moves by that entry's effect on it. */
  lemma PostEntryBalances(m: map<Id, AccountRow>, e: EntryInput, i: nat, fails: set<Lookup>)
    ensures PostEntry(m, e, i, fails).Keys == m.Keys
    ensures forall id :: id in m ==>
      PostEntry(m, e, i, fails)[id] == m[id].(balance := m[id].balance + EntryEffect(m[id].accountType, id, e, i, fails))
  {
  }

  lemma {:induction false} PostEntriesBalances(a: map<Id, AccountRow>, es: seq<EntryInput>, fails: set<Lookup>)
    ensures PostEntries(a, es, fails).Keys == a.Keys
    ensures forall id :: id in a ==>
      PostEntries(a, es, fails)[id] == a[id].(balance := a[id].balance + Effect(a[id].accountType, id, es, fails))
  {
    if es != [] {
      var init := es[..|es| - 1];
      PostEntriesBalances(a, init, fails);
      PostEntryBalances(PostEntries(a, init, fails), es[|es| - 1], |es| - 1, fails);
    }
  }

  lemma ReverseEntryBalances(m: map<Id, AccountRow>, row: EntryRow, i: nat, fails: set<Lookup>)
    ensures ReverseEntry(m, row, i, fails).Keys == m.Keys
    ensures forall id :: id in m ==>
      ReverseEntry(m, row, i, fails)[id] == m[id].(balance := m[id].balance + RowEffect(m[id].accountType, id, row, i, fails))
  {
  }

  lemma {:induction false} ReverseEntriesBalances(a: map<Id, AccountRow>, rows: seq<EntryRow>, fails: set<Lookup>)
    ensures ReverseEntries(a, rows, fails).Keys == a.Keys
    ensures forall id :: id in a ==>
      ReverseEntries(a, rows, fails)[id] == a[id].(balance := a[id].balance + ReverseEffect(a[id].accountType, id, rows, fails))
  {
    if rows != [] {
      var init := rows[..|rows| - 1];
      ReverseEntriesBalances(a, init, fails);
      ReverseEntryBalances(ReverseEntries(a, init, fails), rows[|rows| - 1], |rows| - 1, fails);
    }
  }

  /** A failed lookup loses exactly the change its side would have made: the
      effect with failures is the effect without them, less each positive
      amount whose read failed. */
  lemma LookupFailureLosesSide(t: AccountType, id: Id, e: EntryInput, i: nat, fails: set<Lookup>)
    ensures EntryEffect(t, id, e, i, fails)
            == EntryEffect(t, id, e, i, {})
               - (if e.accountId == id && e.debit > 0 && DebitLookup(i) in fails then DebitChange(t, e.debit) else 0)
               - (if e.accountId == id && e.credit > 0 && CreditLookup(i) in fails then CreditChange(t, e.credit) else 0)
  {
  }

  /** Reversing the rows a posting stored undoes that posting's effect on
      every balance, when the same lookups fail on both sides. */
  lemma {:induction false} ReverseEffectOfRows(t: AccountType, id: Id, tid: Id, es: seq<EntryInput>, fails: set<Lookup>)
    ensures ReverseEffect(t, id, EntryRowsOf(tid, es), fails) == -Effect(t, id, es, fails)
  {
    if es != [] {
      var rows := EntryRowsOf(tid, es);
      assert rows[..|rows| - 1] == EntryRowsOf(tid, es[..|es| - 1]);
      ReverseEffectOfRows(t, id, tid, es[..|es| - 1], fails);
    }
  }

  /** With no failed read, a row's reversal does not depend on its position. */
  lemma RowEffectAnyPosition(t: AccountType, id: Id, row: EntryRow, i: nat, j: nat)
    ensures RowEffect(t, id, row, i, {}) == RowEffect(t, id, row, j, {})
  {
  }

  lemma {:induction false} ReverseEffectAppend(t: AccountType, id: Id, a: seq<EntryRow>, b: seq<EntryRow>)
    ensures ReverseEffect(t, id, a + b, {}) == ReverseEffect(t, id, a, {}) + ReverseEffect(t, id, b, {})
    decreases |b|
  {
    if b == [] {
      assert a + b == a;
    } else {
      var init := b[..|b| - 1];
      assert (a + b)[..|a + b| - 1] == a + init;
      assert (a + b)[|a + b| - 1] == b[|b| - 1];
      ReverseEffectAppend(t, id, a, init);
      RowEffectAnyPosition(t, id, b[|b| - 1], |a + b| - 1, |b| - 1);
    }
  }

  /** Taking out the row at `k` leaves the other rows' multiset. */
  lemma MultisetWithout(rows1: seq<EntryRow>, rows2: seq<EntryRow>, k: nat)
    requires rows1 != [] && k < |rows2| && rows2[k] == rows1[|rows1| - 1]
    requires multiset(rows1) == multiset(rows2)
    ensures multiset(rows1[..|rows1| - 1]) == multiset(rows2[..k] + rows2[k + 1..])
  {
    var init, x := rows1[..|rows1| - 1], rows1[|rows1| - 1];
    var p, q := rows2[..k], rows2[k + 1..];
    assert rows1 == init + [x];
    assert rows2 == (p + [x]) + q;
    assert multiset(rows2) == multiset(p + q) + multiset{x};
    forall r ensures multiset(init)[r] == multiset(p + q)[r] {
      assert (multiset(init) + multiset{x})[r] == (multiset(p + q) + multiset{x})[r];
    }
  }

  /** With no failed read, the row at `k` contributes its effect wherever it stands. */
  lemma ReverseEffectWithout(t: AccountType, id: Id, rows: seq<EntryRow>, k: nat)
    requires k < |rows|
    ensures ReverseEffect(t, id, rows, {})
            == ReverseEffect(t, id, rows[..k] + rows[k + 1..], {}) + RowEffect(t, id, rows[k], 0, {})
  {
    var p, x, q := rows[..k], rows[k], rows[k + 1..];
    assert rows == (p + [x]) + q;
    ReverseEffectAppend(t, id, p, q);
    ReverseEffectAppend(t, id, p + [x], q);
    ReverseEffectAppend(t, id, p, [x]);
    assert ReverseEffect(t, id, [x], {}) == RowEffect(t, id, x, 0, {});
  }

  /** With no failed read, reversing a set of rows has the same effect in
      whatever order an unordered select returns them. */
  lemma {:induction false} ReverseEffectOrderFree(t: AccountType, id: Id, rows1: seq<EntryRow>, rows2: seq<EntryRow>)
    requires multiset(rows1) == multiset(rows2)
    ensures ReverseEffect(t, id, rows1, {}) == ReverseEffect(t, id, rows2, {})
    decreases |rows1|
  {
    if rows1 == [] {
      assert |rows2| == |multiset(rows2)| == 0;
    } else {
      var x := rows1[|rows1| - 1];
      assert x in multiset(rows2);
      var k :| 0 <= k < |rows2| && rows2[k] == x;
      MultisetWithout(rows1, rows2, k);
      ReverseEffectOrderFree(t, id, rows1[..|rows1| - 1], rows2[..k] + rows2[k + 1..]);
      ReverseEffectWithout(t, id, rows2, k);
      RowEffectAnyPosition(t, id, x, |rows1| - 1, 0);
    }
  }

  /** With no failed read, the accounts after a delete's reversal loop do not
      depend on the order in which the entries were read back. */
  lemma ReverseEntriesOrderFree(a: map<Id, AccountRow>, rows1: seq<EntryRow>, rows2: seq<EntryRow>)
    requires multiset(rows1) == multiset(rows2)
    ensures ReverseEntries(a, rows1, {}) == ReverseEntries(a, rows2, {})
  {
    ReverseEntriesBalances(a, rows1, {});
    ReverseEntriesBalances(a, rows2, {});
    forall id | id in a ensures ReverseEntries(a, rows1, {})[id] == ReverseEntries(a, rows2, {})[id] {
      ReverseEffectOrderFree(a[id].accountType, id, rows1, rows2);
    }
  }

  /** Post followed by delete: reversing the stored rows of a posting
      restores every account exactly, as long as the accounts keep their
      types in between and the same lookups fail in both loops (for instance
      none). */
  lemma PostThenReverseRestores(a: map<Id, AccountRow>, tid: Id, es: seq<EntryInput>, fails: set<Lookup>)
    ensures ReverseEntries(PostEntries(a, es, fails), EntryRowsOf(tid, es), fails) == a
  {
    var posted := PostEntries(a, es, fails);
    var rows := EntryRowsOf(tid, es);
    PostEntriesBalances(a, es, fails);
    ReverseEntriesBalances(posted, rows, fails);
    forall id | id in a ensures ReverseEntries(posted, rows, fails)[id] == a[id] {
      ReverseEffectOfRows(a[id].accountType, id, tid, es, fails);
    }
  }

  // ---------------------------------------------------------------------------
  // The net position: debit-natured balances minus credit-natured balances.

  function SignedBalance(r: AccountRow): int
  {
    if IncreasesOnDebit(r.accountType) then r.balance else -r.balance
  }

  ghost function Pick(keys: set<Id>): Id
    requires keys != {}
  {
    var k :| k in keys; k
  }

  ghost function SumSigned(m: map<Id, AccountRow>, keys: set<Id>): int
    requires keys <= m.Keys
    decreases keys
  {
    if keys == {} then 0
    else var k := Pick(keys); SignedBalance(m[k]) + SumSigned(m, keys - {k})
  }

  /** (asset + expense balances) - (liability + equity + income balances). */
  ghost function NetPosition(m: map<Id, AccountRow>): int
  {
    SumSigned(m, m.Keys)
  }

  lemma {:induction false} SumSignedSplit(m: map<Id, AccountRow>, keys: set<Id>, x: Id)
    requires keys <= m.Keys && x in keys
    ensures SumSigned(m, keys) == SignedBalance(m[x]) + SumSigned(m, keys - {x})
    decreases keys
  {
    var k := Pick(keys);
    if k != x {
      SumSignedSplit(m, keys - {k}, x);
      SumSignedSplit(m, keys - {x}, k);
      assert keys - {k} - {x} == keys - {x} - {k};
    }
  }

  lemma {:induction false} SumSignedAgree(m1: map<Id, AccountRow>, m2: map<Id, AccountRow>, keys: set<Id>)
    requires keys <= m1.Keys && keys <= m2.Keys
    requires forall k :: k in keys ==> SignedBalance(m1[k]) == SignedBalance(m2[k])
    ensures SumSigned(m1, keys) == SumSigned(m2, keys)
    decreases keys
  {
    if keys != {} {
      SumSignedAgree(m1, m2, keys - {Pick(keys)});
    }
  }

  /** One balance update moves the net position by the amount, signed by the
      account's natural side. */
  lemma NetPositionAdjust(m: map<Id, AccountRow>, id: Id, amount: int)
    requires id in m
    ensures NetPosition(AdjustBalance(m, id, amount))
            == NetPosition(m) + (if IncreasesOnDebit(m[id].accountType) then amount else -amount)
  {
    var m' := AdjustBalance(m, id, amount);
    SumSignedSplit(m, m.Keys, id);
    SumSignedSplit(m', m'.Keys, id);
    SumSignedAgree(m, m', m.Keys - {id});
  }

  /** The debit of `e`, the `i`-th entry, when posting applies it (positive,
      lookup answered, account found). */
  function PostedDebit(accounts: map<Id, AccountRow>, e: EntryInput, i: nat, fails: set<Lookup>): int
  {
    if e.debit > 0 && DebitLookup(i) !in fails && e.accountId in accounts then e.debit else 0
  }

  function PostedCredit(accounts: map<Id, AccountRow>, e: EntryInput, i: nat, fails: set<Lookup>): int
  {
    if e.credit > 0 && CreditLookup(i) !in fails && e.accountId in accounts then e.credit else 0
  }

  function PostedDebits(accounts: map<Id, AccountRow>, es: seq<EntryInput>, fails: set<Lookup>): int
  {
    if es == [] then 0
    else PostedDebits(accounts, es[..|es| - 1], fails) + PostedDebit(accounts, es[|es| - 1], |es| - 1, fails)
  }

  function PostedCredits(accounts: map<Id, AccountRow>, es: seq<EntryInput>, fails: set<Lookup>): int
  {
    if es == [] then 0
    else PostedCredits(accounts, es[..|es| - 1], fails) + PostedCredit(accounts, es[|es| - 1], |es| - 1, fails)
  }

  function TotalDebits(es: seq<EntryInput>): int
  {
    if es == [] then 0 else TotalDebits(es[..|es| - 1]) + es[|es| - 1].debit
  }

  function TotalCredits(es: seq<EntryInput>): int
  {
    if es == [] then 0 else TotalCredits(es[..|es| - 1]) + es[|es| - 1].credit
  }

  lemma NetPositionPostEntry(m: map<Id, AccountRow>, e: EntryInput, i: nat, fails: set<Lookup>)
    ensures NetPosition(PostEntry(m, e, i, fails))
            == NetPosition(m) + PostedDebit(m, e, i, fails) - PostedCredit(m, e, i, fails)
  {
    var debits := e.debit > 0 && DebitLookup(i) !in fails && e.accountId in m;
    var afterDebit :=
      if debits
      then AdjustBalance(m, e.accountId, DebitChange(m[e.accountId].accountType, e.debit))
      else m;
    if debits {
      NetPositionAdjust(m, e.accountId, DebitChange(m[e.accountId].accountType, e.debit));
    }
    if e.credit > 0 && CreditLookup(i) !in fails && e.accountId in afterDebit {
      NetPositionAdjust(afterDebit, e.accountId, CreditChange(afterDebit[e.accountId].accountType, e.credit));
    }
  }

  /** Posting moves the net position by exactly the posted debits minus the
      posted credits (positive amounts, answered lookups, accounts that exist). */
  lemma {:induction false} NetPositionAfterPosting(a: map<Id, AccountRow>, es: seq<EntryInput>, fails: set<Lookup>)
    ensures NetPosition(PostEntries(a, es, fails))
            == NetPosition(a) + PostedDebits(a, es, fails) - PostedCredits(a, es, fails)
  {
    if es != [] {
      var init := es[..|es| - 1];
      NetPositionAfterPosting(a, init, fails);
      PostEntriesBalances(a, init, fails);
      NetPositionPostEntry(PostEntries(a, init, fails), es[|es| - 1], |es| - 1, fails);
    }
  }

  /** With every account present, no negative amount and no failed lookup,
      the posted totals are the plain totals. */
  lemma {:induction false} PostedTotalsArePlainTotals(a: map<Id, AccountRow>, es: seq<EntryInput>)
    requires forall e :: e in es ==> e.accountId in a && e.debit >= 0 && e.credit >= 0
    ensures PostedDebits(a, es, {}) == TotalDebits(es) && PostedCredits(a, es, {}) == TotalCredits(es)
  {
    if es != [] {
      var init := es[..|es| - 1];
      assert es[|es| - 1] in es;
      forall e | e in init ensures e.accountId in a && e.debit >= 0 && e.credit >= 0 {
        assert e in es;
      }
      PostedTotalsArePlainTotals(a, init);
    }
  }

  /** Posting a balanced transaction against existing accounts, with every
      lookup answered, leaves the net position unchanged. The service itself
      never checks this balance. */
  lemma BalancedPostingKeepsNetPosition(a: map<Id, AccountRow>, es: seq<EntryInput>)
    requires forall e :: e in es ==> e.accountId in a && e.debit >= 0 && e.credit >= 0
    requires TotalDebits(es) == TotalCredits(es)
    ensures NetPosition(PostEntries(a, es, {})) == NetPosition(a)
  {
    NetPositionAfterPosting(a, es, {});
    PostedTotalsArePlainTotals(a, es);
  }

  // ---------------------------------------------------------------------------
  // createTransaction and deleteTransaction.

  /** An id at or above the store's counter is carried by no header and no entry. */
  lemma FreshIdUnused(txs: seq<TransactionRow>, entries: seq<EntryRow>, nextId: nat)
    requires forall t :: t in txs ==> t.id < nextId
    requires forall e :: e in entries ==> e.transactionId in TransactionIds(txs)
    ensures EntriesOf(entries, nextId) == [] && EntriesNotOf(entries, nextId) == entries
    ensures TransactionsWithout(txs, nextId) == txs
  {
    forall e | e in entries ensures e.transactionId != nextId {
      var t :| t in txs && t.id == e.transactionId;
    }
    EntriesOfAbsent(entries, nextId);
    TransactionsWithoutAbsent(txs, nextId);
  }

  /** Pass `i` of the posting loop: the entry's positive debit, then its
      positive credit, each applied after reading the account's type and
      skipped when that read returns no data. */
  method PostOneEntry(db: Store, e: EntryInput, i: nat, fails: set<Lookup>)
    requires db.Valid()
    modifies db
    ensures db.Valid()
    ensures db.accounts == PostEntry(old(db.accounts), e, i, fails)
    ensures db.transactions == old(db.transactions) && db.entries == old(db.entries)
    ensures db.nextId == old(db.nextId)
  {
    if e.debit > 0 {
      var accountType := db.SelectAccountType(e.accountId, DebitLookup(i) in fails);
      if accountType.Some? {
        db.UpdateAccountBalance(e.accountId, DebitChange(accountType.value, e.debit));
      }
    }
    if e.credit > 0 {
      var accountType := db.SelectAccountType(e.accountId, CreditLookup(i) in fails);
      if accountType.Some? {
        db.UpdateAccountBalance(e.accountId, CreditChange(accountType.value, e.credit));
      }
    }
  }

  /** Pass `i` of the reversal loop, skipping a side whose type read returns
      no data. */
  method ReverseOneEntry(db: Store, row: EntryRow, i: nat, fails: set<Lookup>)
    requires db.Valid()
    modifies db
    ensures db.Valid()
    ensures db.accounts == ReverseEntry(old(db.accounts), row, i, fails)
    ensures db.transactions == old(db.transactions) && db.entries == old(db.entries)
    ensures db.nextId == old(db.nextId)
  {
    if row.debit.GetOr(0) > 0 {
      var accountType := db.SelectAccountType(row.accountId, DebitLookup(i) in fails);
      if accountType.Some? {
        db.UpdateAccountBalance(row.accountId, ReverseDebitChange(accountType.value, row.debit.GetOr(0)));
      }
    }
    if row.credit.GetOr(0) > 0 {
      var accountType := db.SelectAccountType(row.accountId, CreditLookup(i) in fails);
      if accountType.Some? {
        db.UpdateAccountBalance(row.accountId, ReverseCreditChange(accountType.value, row.credit.GetOr(0)));
      }
    }
  }

  /** The posting loop of `createTransaction`: for each entry, a positive
      debit and then a positive credit are applied through
      `update_account_balance`, signed by the account's current type; the
      type reads in `fails` report an error. */
  method PostToStore(db: Store, es: seq<EntryInput>, fails: set<Lookup>)
    requires db.Valid()
    modifies db
    ensures db.Valid()
    ensures db.accounts == PostEntries(old(db.accounts), es, fails)
    ensures db.transactions == old(db.transactions) && db.entries == old(db.entries)
    ensures db.nextId == old(db.nextId)
  {
    var i := 0;
    while i < |es|
      invariant 0 <= i <= |es|
      invariant db.Valid()
      invariant db.accounts == PostEntries(old(db.accounts), es[..i], fails)
      invariant db.transactions == old(db.transactions) && db.entries == old(db.entries)
      invariant db.nextId == old(db.nextId)
    {
      PostOneEntry(db, es[i], i, fails);
      assert es[..i + 1][..i] == es[..i];
      i := i + 1;
    }
    assert es[..i] == es;
  }

  /** The reversal loop of `deleteTransaction`: each stored entry's positive
      debit and then positive credit are applied with the opposite sign. */
  method ReverseInStore(db: Store, rows: seq<EntryRow>, fails: set<Lookup>)
    requires db.Valid()
    modifies db
    ensures db.Valid()
    ensures db.accounts == ReverseEntries(old(db.accounts), rows, fails)
    ensures db.transactions == old(db.transactions) && db.entries == old(db.entries)
    ensures db.nextId == old(db.nextId)
  {
    var i := 0;
    while i < |rows|
      invariant 0 <= i <= |rows|
      invariant db.Valid()
      invariant db.accounts == ReverseEntries(old(db.accounts), rows[..i], fails)
      invariant db.transactions == old(db.transactions) && db.entries == old(db.entries)
      invariant db.nextId == old(db.nextId)
    {
      ReverseOneEntry(db, rows[i], i, fails);
      assert rows[..i + 1][..i] == rows[..i];
      i := i + 1;
    }
    assert rows[..i] == rows;
  }

  /** `data.map(transformTransaction)` awaited with `Promise.all`: the
      entries of every header are read; one failed read fails the whole call. */
  method TransformEach(db: Store, headers: seq<TransactionRow>, entriesFail: set<Id>)
    returns (r: Result<seq<Transaction>, ServiceError>)
    ensures (exists h :: h in headers && h.id in entriesFail) ==> r == Failure(EntriesFetchFailed)
    ensures (forall h :: h in headers ==> h.id !in entriesFail) ==> r == Success(TransformAll(headers, db.entries))
  {
    var out: seq<Transaction> := [];
    var i := 0;
    while i < |headers|
      invariant 0 <= i <= |headers|
      invariant forall k :: 0 <= k < i ==> headers[k].id !in entriesFail
      invariant out == TransformAll(headers[..i], db.entries)
    {
      var fetched := db.SelectEntries(headers[i].id, headers[i].id in entriesFail);
      if fetched.None? {
        return Failure(EntriesFetchFailed);
      }
      out := out + [TransformTransaction(headers[i], fetched.value)];
      assert headers[..i + 1][..i] == headers[..i];
      i := i + 1;
    }
    assert headers[..i] == headers;
    r := Success(out);
  }

  /** `fetchTransactions`: every stored transaction, newest first. */
  method FetchTransactions(db: Store, headersFail: bool, entriesFail: set<Id>)
    returns (r: Result<seq<Transaction>, ServiceError>)
    ensures headersFail ==> r == Failure(TransactionsFetchFailed)
    ensures !headersFail && (exists h :: h in db.transactions && h.id in entriesFail) ==>
      r == Failure(EntriesFetchFailed)
    ensures !headersFail && (forall h :: h in db.transactions ==> h.id !in entriesFail) ==>
      r == Success(TransformAll(SortByDateDesc(db.transactions), db.entries))
  {
    var headers := db.SelectTransactions(headersFail);
    if headers.None? {
      return Failure(TransactionsFetchFailed);
    }
    forall h | h in headers.value ensures h in db.transactions {
      assert h in multiset(db.transactions);
    }
    forall h | h in db.transactions ensures h in headers.value {
      assert h in multiset(headers.value);
    }
    r := TransformEach(db, headers.value, entriesFail);
  }

  /** `fetchTransactionsByType`: the stored transactions of one type, newest first. */
  method FetchTransactionsByType(db: Store, transactionType: string, headersFail: bool, entriesFail: set<Id>)
    returns (r: Result<seq<Transaction>, ServiceError>)
    ensures headersFail ==> r == Failure(TransactionsFetchFailed)
    ensures !headersFail
            && (exists h :: h in db.transactions && h.transactionType == transactionType && h.id in entriesFail) ==>
      r == Failure(EntriesFetchFailed)
    ensures !headersFail
            && (forall h :: h in db.transactions && h.transactionType == transactionType ==> h.id !in entriesFail) ==>
      r == Success(TransformAll(SortByDateDesc(TransactionsOfType(db.transactions, transactionType)), db.entries))
  {
    var headers := db.SelectTransactionsOfType(transactionType, headersFail);
    if headers.None? {
      return Failure(TransactionsFetchFailed);
    }
    ghost var of := TransactionsOfType(db.transactions, transactionType);
    forall h | h in headers.value ensures h in of {
      assert h in multiset(of);
    }
    forall h | h in of ensures h in headers.value {
      assert h in multiset(headers.value);
    }
    r := TransformEach(db, headers.value, entriesFail);
  }

  /** `createTransaction`: insert the header; insert the entries, deleting
      the header again when that fails; then post every entry of the payload
      to the balances; finally read the transaction back. */
  method CreateTransaction(db: Store, p: CreateTransactionPayload, faults: CreateFaults)
    returns (r: Result<Transaction, ServiceError>)
    requires db.Valid()
    modifies db
    ensures db.Valid()
    ensures faults.transactionInsert ==>
      && r == Failure(TransactionInsertFailed)
      && db.accounts == old(db.accounts) && db.transactions == old(db.transactions)
      && db.entries == old(db.entries) && db.nextId == old(db.nextId)
    ensures !faults.transactionInsert && faults.entriesInsert ==>
      && r == Failure(EntriesInsertFailed)
      && db.accounts == old(db.accounts) && db.entries == old(db.entries)
      && db.transactions == old(db.transactions)
           + (if faults.compensatingDelete then [NewTransactionRow(old(db.nextId), p)] else [])
      && db.nextId == old(db.nextId) + 1
    ensures !faults.transactionInsert && !faults.entriesInsert ==>
      var id := old(db.nextId);
      && db.transactions == old(db.transactions) + [NewTransactionRow(id, p)]
      && db.entries == old(db.entries) + EntryRowsOf(id, p.entries)
      && db.accounts == PostEntries(old(db.accounts), p.entries, faults.lookupFails)
      && db.nextId == id + 1
      && r == if faults.entriesRefetch then Failure(EntriesFetchFailed)
              else Success(TransformTransaction(NewTransactionRow(id, p), EntryRowsOf(id, p.entries)))
  {
    FreshIdUnused(db.transactions, db.entries, db.nextId);
    ghost var txs0, entries0 := db.transactions, db.entries;
    var inserted := db.InsertTransaction(p.date, p.transactionType, Some(p.reference), Some(p.description),
                                         faults.transactionInsert);
    if inserted.None? {
      return Failure(TransactionInsertFailed);
    }
    var header := inserted.value;
    var rows := EntryRowsOf(header.id, p.entries);
    assert header in db.transactions;
    var ok := db.InsertEntries(rows, faults.entriesInsert);
    if !ok {
      // The storage does not roll back the header: the service deletes it.
      var _ := db.DeleteTransaction(header.id, faults.compensatingDelete);
      TransactionsWithoutAppend(txs0, [header], header.id);
      return Failure(EntriesInsertFailed);
    }
    PostToStore(db, p.entries, faults.lookupFails);
    var fetched := db.SelectEntries(header.id, faults.entriesRefetch);
    if fetched.None? {
      return Failure(EntriesFetchFailed);
    }
    EntriesOfAppend(entries0, rows, header.id);
    EntriesOfAll(rows, header.id);
    assert db.entries == entries0 + rows;
    assert EntriesOf(entries0, header.id) == [];
    assert fetched.value == rows;
    r := Success(TransformTransaction(header, fetched.value));
  }

  /** `deleteTransaction`: read the stored entries, reverse each one's effect
      on the balances, delete the entries, then delete the header. An unknown
      id has no entries and deletes nothing, without an error. */
  method DeleteTransaction(db: Store, id: Id, faults: DeleteFaults) returns (r: Outcome<ServiceError>)
    requires db.Valid()
    modifies db
    ensures db.Valid()
    ensures db.nextId == old(db.nextId)
    ensures faults.entriesFetch ==>
      && r == Fail(EntriesFetchFailed)
      && db.accounts == old(db.accounts) && db.transactions == old(db.transactions)
      && db.entries == old(db.entries)
    ensures !faults.entriesFetch ==>
      db.accounts == ReverseEntries(old(db.accounts), EntriesOf(old(db.entries), id), faults.lookupFails)
    ensures !faults.entriesFetch && faults.entriesDelete ==>
      && r == Fail(EntriesDeleteFailed)
      && db.transactions == old(db.transactions) && db.entries == old(db.entries)
    ensures !faults.entriesFetch && !faults.entriesDelete ==>
      && db.entries == EntriesNotOf(old(db.entries), id)
      && db.transactions == (if faults.transactionDelete then old(db.transactions)
                             else TransactionsWithout(old(db.transactions), id))
      && r == (if faults.transactionDelete then Fail(TransactionDeleteFailed) else Pass)
  {
    var fetched := db.SelectEntries(id, faults.entriesFetch);
    if fetched.None? {
      return Fail(EntriesFetchFailed);
    }
    ReverseInStore(db, fetched.value, faults.lookupFails);
    var ok := db.DeleteEntries(id, faults.entriesDelete);
    if !ok {
      return Fail(EntriesDeleteFailed);
    }
    EntriesOfAbsent(db.entries, id);
    ok := db.DeleteTransaction(id, faults.transactionDelete);
    if !ok {
      return Fail(TransactionDeleteFailed);
    }
    r := Pass;
  }

  /** Posting a transaction and then deleting it, with no storage error
      other than the same failing type reads in both loops (for instance
      none), leaves the three tables as they were. */
  method CreateThenDeleteRestoresStore(db: Store, p: CreateTransactionPayload, lookupFails: set<Lookup>)
    requires db.Valid()
    modifies db
    ensures db.Valid()
    ensures db.accounts == old(db.accounts)
    ensures db.transactions == old(db.transactions)
    ensures db.entries == old(db.entries)
  {
    var id := db.nextId;
    ghost var accounts0, txs0, entries0 := db.accounts, db.transactions, db.entries;
    ghost var rows := EntryRowsOf(id, p.entries);
    FreshIdUnused(txs0, entries0, id);
    EntriesOfAppend(entries0, rows, id);
    EntriesOfAll(rows, id);
    EntriesNotOfAppend(entries0, rows, id);
    TransactionsWithoutAppend(txs0, [NewTransactionRow(id, p)], id);
    PostThenReverseRestores(accounts0, id, p.entries, lookupFails);
    var created := CreateTransaction(db, p, CreateFaults(false, false, false, false, lookupFails));
    assert db.entries == entries0 + rows;
    assert EntriesOf(db.entries, id) == rows;
    assert EntriesNotOf(db.entries, id) == entries0;
    assert TransactionsWithout(db.transactions, id) == txs0;
    var deleted := DeleteTransaction(db, id, DeleteFaults(false, false, false, lookupFails));
  }
}
