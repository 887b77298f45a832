/** An in-memory stand-in for the three tables the services use (`accounts`,
    `transactions`, `transaction_entries`) and the `update_account_balance`
    remote procedure. Every operation that can report an error takes a `fails`
    flag: the environment decides whether the storage call errors. The
    foreign key from an entry's `transaction_id` to `transactions.id` is
    enforced, as the service's comment on its delete order expects. */
module Database {
  import opened Wrappers
  import opened Text
  import opened Accounting

  /** A row of `accounts`; `description` is a nullable column. */
  datatype AccountRow = AccountRow(
    id: Id, code: string, name: string, accountType: AccountType,
    classification: Classification, description: Option<string>,
    balance: int, isActive: bool)

  /** A row of `transactions`; `reference` and `description` are nullable. */
  datatype TransactionRow = TransactionRow(
    id: Id, date: string, transactionType: string,
    reference: Option<string>, description: Option<string>)

  /** A row of `transaction_entries`; description, debit and credit are nullable. */
  datatype EntryRow = EntryRow(
    transactionId: Id, accountId: Id, description: Option<string>,
    debit: Option<int>, credit: Option<int>)

  /** What an `update` of `accounts` writes: a field is present when it is `Some`. */
  datatype AccountUpdate = AccountUpdate(
    code: Option<string>, name: Option<string>, accountType: Option<AccountType>,
    classification: Option<Classification>, description: Option<string>,
    balance: Option<int>, isActive: Option<bool>)

  function TransactionIds(txs: seq<TransactionRow>): set<Id>
  {
    set t | t in txs :: t.id
  }

  /** `select ... eq('transaction_id', tid)` on the entries table, in table order. */
  function EntriesOf(rows: seq<EntryRow>, tid: Id): (r: seq<EntryRow>)
    ensures forall e :: e in r <==> e in rows && e.transactionId == tid
  {
    if rows == [] then []
    else EntriesOf(rows[..|rows| - 1], tid)
         + (if rows[|rows| - 1].transactionId == tid then [rows[|rows| - 1]] else [])
  }

  /** The entries table after `delete ... eq('transaction_id', tid)`. */
  function EntriesNotOf(rows: seq<EntryRow>, tid: Id): (r: seq<EntryRow>)
    ensures forall e :: e in r <==> e in rows && e.transactionId != tid
  {
    if rows == [] then []
    else EntriesNotOf(rows[..|rows| - 1], tid)
         + (if rows[|rows| - 1].transactionId != tid then [rows[|rows| - 1]] else [])
  }

  /** The transactions table after `delete ... eq('id', id)`. */
  function TransactionsWithout(txs: seq<TransactionRow>, id: Id): (r: seq<TransactionRow>)
    ensures forall t :: t in r <==> t in txs && t.id != id
  {
    if txs == [] then []
    else TransactionsWithout(txs[..|txs| - 1], id)
         + (if txs[|txs| - 1].id != id then [txs[|txs| - 1]] else [])
  }

  lemma {:induction false} EntriesOfAppend(a: seq<EntryRow>, b: seq<EntryRow>, tid: Id)
    ensures EntriesOf(a + b, tid) == EntriesOf(a, tid) + EntriesOf(b, tid)
    decreases |b|
  {
    if b == [] {
      assert a + b == a;
    } else {
      assert (a + b)[..|a + b| - 1] == a + b[..|b| - 1];
      EntriesOfAppend(a, b[..|b| - 1], tid);
    }
  }

  lemma {:induction false} EntriesNotOfAppend(a: seq<EntryRow>, b: seq<EntryRow>, tid: Id)
    ensures EntriesNotOf(a + b, tid) == EntriesNotOf(a, tid) + EntriesNotOf(b, tid)
    decreases |b|
  {
    if b == [] {
      assert a + b == a;
    } else {
      assert (a + b)[..|a + b| - 1] == a + b[..|b| - 1];
      EntriesNotOfAppend(a, b[..|b| - 1], tid);
    }
  }

  /** Filtering on a transaction id no row carries keeps nothing, and its
      complement keeps everything. */
  lemma {:induction false} EntriesOfAbsent(rows: seq<EntryRow>, tid: Id)
    requires forall e :: e in rows ==> e.transactionId != tid
    ensures EntriesOf(rows, tid) == []
    ensures EntriesNotOf(rows, tid) == rows
  {
    if rows != [] {
      var init, last := rows[..|rows| - 1], rows[|rows| - 1];
      assert last in rows;
      forall e | e in init ensures e.transactionId != tid {
        assert e in rows;
      }
      EntriesOfAbsent(init, tid);
      assert EntriesOf(rows, tid) == EntriesOf(init, tid);
      assert EntriesNotOf(rows, tid) == EntriesNotOf(init, tid) + [last];
      assert init + [last] == rows;
    }
  }

  /** Filtering rows that all carry `tid` keeps all of them, and its complement none. */
  lemma {:induction false} EntriesOfAll(rows: seq<EntryRow>, tid: Id)
    requires forall e :: e in rows ==> e.transactionId == tid
    ensures EntriesOf(rows, tid) == rows
    ensures EntriesNotOf(rows, tid) == []
  {
    if rows != [] {
      var init, last := rows[..|rows| - 1], rows[|rows| - 1];
      assert last in rows;
      forall e | e in init ensures e.transactionId == tid {
        assert e in rows;
      }
      EntriesOfAll(init, tid);
      assert EntriesOf(rows, tid) == EntriesOf(init, tid) + [last];
      assert EntriesNotOf(rows, tid) == EntriesNotOf(init, tid);
      assert init + [last] == rows;
    }
  }

  lemma {:induction false} TransactionsWithoutAbsent(txs: seq<TransactionRow>, id: Id)
    requires forall t :: t in txs ==> t.id != id
    ensures TransactionsWithout(txs, id) == txs
  {
    if txs != [] {
      var init, last := txs[..|txs| - 1], txs[|txs| - 1];
      assert last in txs;
      forall t | t in init ensures t.id != id {
        assert t in txs;
      }
      TransactionsWithoutAbsent(init, id);
      assert TransactionsWithout(txs, id) == TransactionsWithout(init, id) + [last];
      assert init + [last] == txs;
    }
  }

  lemma {:induction false} TransactionsWithoutAppend(a: seq<TransactionRow>, b: seq<TransactionRow>, id: Id)
    ensures TransactionsWithout(a + b, id) == TransactionsWithout(a, id) + TransactionsWithout(b, id)
    decreases |b|
  {
    if b == [] {
      assert a + b == a;
    } else {
      assert (a + b)[..|a + b| - 1] == a + b[..|b| - 1];
      TransactionsWithoutAppend(a, b[..|b| - 1], id);
    }
  }

  /** `eq('type', type)` on the transactions table, in table order. */
  function TransactionsOfType(txs: seq<TransactionRow>, transactionType: string): (r: seq<TransactionRow>)
    ensures forall t :: t in r <==> t in txs && t.transactionType == transactionType
    ensures |r| <= |txs|
  {
    if txs == [] then []
    else TransactionsOfType(txs[..|txs| - 1], transactionType)
         + (if txs[|txs| - 1].transactionType == transactionType then [txs[|txs| - 1]] else [])
  }

  /** Filtering by type distributes over concatenation: the table order is kept. */
  lemma {:induction false} TransactionsOfTypeAppend(a: seq<TransactionRow>, b: seq<TransactionRow>, transactionType: string)
    ensures TransactionsOfType(a + b, transactionType)
            == TransactionsOfType(a, transactionType) + TransactionsOfType(b, transactionType)
    decreases |b|
  {
    if b == [] {
      assert a + b == a;
    } else {
      assert (a + b)[..|a + b| - 1] == a + b[..|b| - 1];
      TransactionsOfTypeAppend(a, b[..|b| - 1], transactionType);
    }
  }

  /** Every header of the type is kept exactly as often as it is stored, and
      no other header at all. */
  lemma {:induction false} TransactionsOfTypeCounts(txs: seq<TransactionRow>, transactionType: string)
    ensures forall t :: multiset(TransactionsOfType(txs, transactionType))[t]
                        == if t.transactionType == transactionType then multiset(txs)[t] else 0
  {
    if txs != [] {
      var init, last := txs[..|txs| - 1], txs[|txs| - 1];
      TransactionsOfTypeCounts(init, transactionType);
      assert txs == init + [last];
      assert multiset(txs) == multiset(init) + multiset{last};
    }
  }

  /** Date `a` is strictly earlier than date `b`; dates are ISO `YYYY-MM-DD`
      text, whose character order is the calendar order. */
  predicate Earlier(a: string, b: string)
  {
    LexLessEq(a, b) && a != b
  }

  /** Each header is dated no later than the one before it. */
  predicate DateDescending(txs: seq<TransactionRow>)
  {
    forall i :: 0 < i < |txs| ==> LexLessEq(txs[i].date, txs[i - 1].date)
  }

  /** Puts `t` into a date-descending list, after every header dated on or
      after it. */
  function InsertByDate(t: TransactionRow, sorted: seq<TransactionRow>): seq<TransactionRow>
  {
    if sorted == [] then [t]
    else if Earlier(sorted[0].date, t.date) then [t] + sorted
    else [sorted[0]] + InsertByDate(t, sorted[1..])
  }

  lemma {:induction false} InsertByDateMultiset(t: TransactionRow, sorted: seq<TransactionRow>)
    ensures multiset(InsertByDate(t, sorted)) == multiset(sorted) + multiset{t}
  {
    if sorted != [] && !Earlier(sorted[0].date, t.date) {
      InsertByDateMultiset(t, sorted[1..]);
      assert sorted == [sorted[0]] + sorted[1..];
    }
  }

  lemma {:induction false} InsertByDateSorted(t: TransactionRow, sorted: seq<TransactionRow>)
    requires DateDescending(sorted)
    ensures DateDescending(InsertByDate(t, sorted))
    ensures InsertByDate(t, sorted)[0] == t || (sorted != [] && InsertByDate(t, sorted)[0] == sorted[0])
  {
    if sorted != [] && !Earlier(sorted[0].date, t.date) {
      var tail := sorted[1..];
      assert DateDescending(tail) by {
        forall i | 0 < i < |tail| ensures LexLessEq(tail[i].date, tail[i - 1].date) {
          assert tail[i] == sorted[i + 1] && tail[i - 1] == sorted[i];
        }
      }
      InsertByDateSorted(t, tail);
      LexTotal(t.date, sorted[0].date);
      var rest := InsertByDate(t, tail);
      var r := [sorted[0]] + rest;
      forall i | 0 < i < |r| ensures LexLessEq(r[i].date, r[i - 1].date) {
        if i > 1 {
          assert r[i] == rest[i - 1] && r[i - 1] == rest[i - 2];
        }
      }
    }
  }

  /** `order('date', { ascending: false })`: newest first; headers with the
      same date keep their table order. */
  function SortByDateDesc(txs: seq<TransactionRow>): (r: seq<TransactionRow>)
    ensures multiset(r) == multiset(txs)
    ensures DateDescending(r)
  {
    if txs == [] then []
    else
      var init := txs[..|txs| - 1];
      assert txs == init + [txs[|txs| - 1]];
      InsertByDateMultiset(txs[|txs| - 1], SortByDateDesc(init));
      InsertByDateSorted(txs[|txs| - 1], SortByDateDesc(init));
      InsertByDate(txs[|txs| - 1], SortByDateDesc(init))
  }

  /** Each account's code is no greater than the next one's. */
  predicate CodeAscending(rows: seq<AccountRow>)
  {
    forall i :: 0 < i < |rows| ==> LexLessEq(rows[i - 1].code, rows[i].code)
  }

  /** Puts `row` into a code-ascending list, after every row whose code is
      no greater. */
  function InsertByCode(row: AccountRow, sorted: seq<AccountRow>): seq<AccountRow>
  {
    if sorted == [] then [row]
    else if LexLessEq(row.code, sorted[0].code) && row.code != sorted[0].code then [row] + sorted
    else [sorted[0]] + InsertByCode(row, sorted[1..])
  }

  lemma {:induction false} InsertByCodeMultiset(row: AccountRow, sorted: seq<AccountRow>)
    ensures multiset(InsertByCode(row, sorted)) == multiset(sorted) + multiset{row}
  {
    if sorted != [] && !(LexLessEq(row.code, sorted[0].code) && row.code != sorted[0].code) {
      InsertByCodeMultiset(row, sorted[1..]);
      assert sorted == [sorted[0]] + sorted[1..];
    }
  }

  lemma {:induction false} InsertByCodeSorted(row: AccountRow, sorted: seq<AccountRow>)
    requires CodeAscending(sorted)
    ensures CodeAscending(InsertByCode(row, sorted))
    ensures InsertByCode(row, sorted)[0] == row || (sorted != [] && InsertByCode(row, sorted)[0] == sorted[0])
  {
    if sorted != [] && !(LexLessEq(row.code, sorted[0].code) && row.code != sorted[0].code) {
      var tail := sorted[1..];
      assert CodeAscending(tail) by {
        forall i | 0 < i < |tail| ensures LexLessEq(tail[i - 1].code, tail[i].code) {
          assert tail[i] == sorted[i + 1] && tail[i - 1] == sorted[i];
        }
      }
      InsertByCodeSorted(row, tail);
      LexTotal(row.code, sorted[0].code);
      var rest := InsertByCode(row, tail);
      var r := [sorted[0]] + rest;
      forall i | 0 < i < |r| ensures LexLessEq(r[i - 1].code, r[i].code) {
        if i > 1 {
          assert r[i] == rest[i - 1] && r[i - 1] == rest[i - 2];
        }
      }
    }
  }

  /** What `update_account_balance(p_account_id, p_amount)` does: it adds the
      amount to that account's balance (the procedure body is not part of this
      model; this is its assumed effect). */
  function AdjustBalance(accounts: map<Id, AccountRow>, id: Id, amount: int): (r: map<Id, AccountRow>)
    ensures r.Keys == accounts.Keys
    ensures forall k :: k in accounts && k != id ==> r[k] == accounts[k]
    ensures id in accounts ==> r[id] == accounts[id].(balance := accounts[id].balance + amount)
  {
    if id in accounts then accounts[id := accounts[id].(balance := accounts[id].balance + amount)]
    else accounts
  }

  /** A stored row after an update: fields present in `u` are written, the
      others keep their stored values. */
  function ApplyUpdate(row: AccountRow, u: AccountUpdate): AccountRow
  {
    AccountRow(
      row.id,
      u.code.GetOr(row.code),
      u.name.GetOr(row.name),
      u.accountType.GetOr(row.accountType),
      u.classification.GetOr(row.classification),
      if u.description.Some? then u.description else row.description,
      u.balance.GetOr(row.balance),
      u.isActive.GetOr(row.isActive))
  }

  class Store {
    var accounts: map<Id, AccountRow>
    var transactions: seq<TransactionRow>
    var entries: seq<EntryRow>
    var nextId: nat

    /** Ids are below `nextId`, each account row carries its key, and every
        entry points at a stored transaction. */
    ghost predicate Valid()
      reads this
    {
      && (forall id :: id in accounts ==> id < nextId && accounts[id].id == id)
      && (forall t :: t in transactions ==> t.id < nextId)
      && (forall e :: e in entries ==> e.transactionId in TransactionIds(transactions))
    }

    constructor ()
      ensures Valid()
      ensures accounts == map[] && transactions == [] && entries == [] && nextId == 0
    {
      accounts, transactions, entries, nextId := map[], [], [], 0;
    }

    /** `insert([...]).select().single()` on `transactions`. */
    method InsertTransaction(date: string, transactionType: string, reference: Option<string>,
                             description: Option<string>, fails: bool)
      returns (r: Option<TransactionRow>)
      requires Valid()
      modifies this
      ensures Valid()
      ensures fails ==> r == None && unchanged(this)
      ensures !fails ==>
        && r == Some(TransactionRow(old(nextId), date, transactionType, reference, description))
        && transactions == old(transactions) + [r.value]
        && nextId == old(nextId) + 1
        && accounts == old(accounts) && entries == old(entries)
    {
      if fails {
        return None;
      }
      var row := TransactionRow(nextId, date, transactionType, reference, description);
      transactions := transactions + [row];
      nextId := nextId + 1;
      r := Some(row);
    }

    /** `insert(rows).select()` on `transaction_entries`: one statement, so
        either every row is written or none is; a row whose transaction does
        not exist violates the foreign key. */
    method InsertEntries(rows: seq<EntryRow>, fails: bool) returns (ok: bool)
      requires Valid()
      modifies this
      ensures Valid()
      ensures ok == (!fails && forall e :: e in rows ==> e.transactionId in TransactionIds(transactions))
      ensures ok ==> entries == old(entries) + rows
      ensures !ok ==> entries == old(entries)
      ensures accounts == old(accounts) && transactions == old(transactions) && nextId == old(nextId)
    {
      ok := !fails && forall e | e in rows :: e.transactionId in TransactionIds(transactions);
      if ok {
        entries := entries + rows;
      }
    }

    /** `select('*').eq('transaction_id', tid)` on `transaction_entries`. */
    method SelectEntries(tid: Id, fails: bool) returns (r: Option<seq<EntryRow>>)
      ensures r == if fails then None else Some(EntriesOf(entries, tid))
    {
      r := if fails then None else Some(EntriesOf(entries, tid));
    }

    /** `delete().eq('transaction_id', tid)` on `transaction_entries`. */
    method DeleteEntries(tid: Id, fails: bool) returns (ok: bool)
      requires Valid()
      modifies this
      ensures Valid()
      ensures ok == !fails
      ensures entries == if ok then EntriesNotOf(old(entries), tid) else old(entries)
      ensures accounts == old(accounts) && transactions == old(transactions) && nextId == old(nextId)
    {
      ok := !fails;
      if ok {
        entries := EntriesNotOf(entries, tid);
      }
    }

    /** `delete().eq('id', id)` on `transactions`; refused while entries still
        point at that transaction. */
    method DeleteTransaction(id: Id, fails: bool) returns (ok: bool)
      requires Valid()
      modifies this
      ensures Valid()
      ensures ok == (!fails && EntriesOf(entries, id) == [])
      ensures transactions == if ok then TransactionsWithout(old(transactions), id) else old(transactions)
      ensures accounts == old(accounts) && entries == old(entries) && nextId == old(nextId)
    {
      ok := !fails && EntriesOf(entries, id) == [];
      if ok {
        forall e | e in entries ensures e.transactionId in TransactionIds(TransactionsWithout(transactions, id)) {
          assert e !in EntriesOf(entries, id);
          var t :| t in transactions && t.id == e.transactionId;
          assert t in TransactionsWithout(transactions, id);
        }
        transactions := TransactionsWithout(transactions, id);
      }
    }

    /** `select('*').order('date', { ascending: false })` on `transactions`. */
    method SelectTransactions(fails: bool) returns (r: Option<seq<TransactionRow>>)
      ensures r == if fails then None else Some(SortByDateDesc(transactions))
    {
      r := if fails then None else Some(SortByDateDesc(transactions));
    }

    /** `select('*').eq('type', t).order('date', { ascending: false })` on `transactions`. */
    method SelectTransactionsOfType(transactionType: string, fails: bool) returns (r: Option<seq<TransactionRow>>)
      ensures r == if fails then None else Some(SortByDateDesc(TransactionsOfType(transactions, transactionType)))
    {
      r := if fails then None else Some(SortByDateDesc(TransactionsOfType(transactions, transactionType)));
    }

    /** `select('*').order('code', { ascending: true })` on `accounts`: every
        row once, lowest code first. The rows are gathered in an unspecified
        order, as a table scan does, and placed by code. */
    method SelectAccountsByCode() returns (r: seq<AccountRow>)
      requires Valid()
      ensures CodeAscending(r)
      ensures |r| == |accounts|
      ensures forall row :: row in r <==> row.id in accounts && accounts[row.id] == row
    {
      var remaining := accounts.Keys;
      r := [];
      while remaining != {}
        invariant remaining <= accounts.Keys
        invariant CodeAscending(r)
        invariant |r| + |remaining| == |accounts|
        invariant forall row :: row in r <==> row.id in accounts && row.id !in remaining && accounts[row.id] == row
        decreases |remaining|
      {
        var k :| k in remaining;
        InsertByCodeMultiset(accounts[k], r);
        InsertByCodeSorted(accounts[k], r);
        ghost var before := r;
        r := InsertByCode(accounts[k], r);
        forall row ensures row in r <==> row in before || row == accounts[k] {
          assert row in r <==> row in multiset(r);
        }
        remaining := remaining - {k};
      }
    }

    /** `select('type').eq('id', id).single()` on `accounts`; the caller reads
        only `data`, so an error (`fails`) and a missing row are both just
        "no data". */
    method SelectAccountType(id: Id, fails: bool) returns (r: Option<AccountType>)
      ensures r == if !fails && id in accounts then Some(accounts[id].accountType) else None
    {
      r := if !fails && id in accounts then Some(accounts[id].accountType) else None;
    }

    /** `rpc('update_account_balance', { p_account_id, p_amount })`. */
    method UpdateAccountBalance(id: Id, amount: int)
      requires Valid()
      modifies this
      ensures Valid()
      ensures accounts == AdjustBalance(old(accounts), id, amount)
      ensures transactions == old(transactions) && entries == old(entries) && nextId == old(nextId)
    {
      accounts := AdjustBalance(accounts, id, amount);
    }

    /** `insert([...]).select().single()` on `accounts`; the new row gets a fresh id. */
    method InsertAccount(row: AccountRow, fails: bool) returns (r: Option<AccountRow>)
      requires Valid()
      modifies this
      ensures Valid()
      ensures fails ==> r == None && unchanged(this)
      ensures !fails ==>
        && r == Some(row.(id := old(nextId)))
        && accounts == old(accounts)[old(nextId) := r.value]
        && nextId == old(nextId) + 1
        && transactions == old(transactions) && entries == old(entries)
    {
      if fails {
        return None;
      }
      var stored := row.(id := nextId);
      accounts := accounts[nextId := stored];
      nextId := nextId + 1;
      r := Some(stored);
    }

    /** `select('*').eq('id', id).maybeSingle()` on `accounts`. */
    method SelectAccount(id: Id, fails: bool) returns (r: Result<Option<AccountRow>, bool>)
      ensures r == if fails then Failure(true)
                   else Success(if id in accounts then Some(accounts[id]) else None)
    {
      r := if fails then Failure(true)
           else Success(if id in accounts then Some(accounts[id]) else None);
    }

    /** `update(u).eq('id', id).select().single()` on `accounts`; `single()`
        reports an error when no row matched. */
    method UpdateAccount(id: Id, u: AccountUpdate, fails: bool) returns (r: Option<AccountRow>)
      requires Valid()
      modifies this
      ensures Valid()
      ensures fails || id !in old(accounts) ==> r == None && unchanged(this)
      ensures !fails && id in old(accounts) ==>
        && r == Some(ApplyUpdate(old(accounts)[id], u))
        && accounts == old(accounts)[id := r.value]
      ensures transactions == old(transactions) && entries == old(entries) && nextId == old(nextId)
    {
      if fails || id !in accounts {
        return None;
      }
      var row := ApplyUpdate(accounts[id], u);
      accounts := accounts[id := row];
      r := Some(row);
    }

    /** `delete().eq('id', id)` on `accounts`; deleting a missing id is no error. */
    method DeleteAccount(id: Id, fails: bool) returns (ok: bool)
      requires Valid()
      modifies this
      ensures Valid()
      ensures ok == !fails
      ensures accounts == if ok then old(accounts) - {id} else old(accounts)
      ensures transactions == old(transactions) && entries == old(entries) && nextId == old(nextId)
    {
      ok := !fails;
      if ok {
        accounts := accounts - {id};
      }
    }
  }
}
