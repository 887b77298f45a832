/** The account service: listing, reading, creating, updating and deleting
    accounts of the chart of accounts. */
module AccountsService {
  import opened Wrappers
  import opened Text
  import opened Accounting
  import opened Database

  /** The storage error each `throw` in the service passes on. */
  datatype AccountError = AccountsFetchFailed | AccountInsertFailed | AccountUpdateFailed | AccountDeleteFailed

  /** `transformAccount`: a stored row as the application sees it; a missing
      description reads as ''. */
  function TransformAccount(row: AccountRow): Account
  {
    Account(row.id, row.code, row.name, row.accountType, row.classification,
            row.description.GetOr(""), row.balance, row.isActive)
  }

  function TransformAccounts(rows: seq<AccountRow>): (r: seq<Account>)
    ensures |r| == |rows|
    ensures forall i :: 0 <= i < |rows| ==> r[i] == TransformAccount(rows[i])
  {
    if rows == [] then [] else TransformAccounts(rows[..|rows| - 1]) + [TransformAccount(rows[|rows| - 1])]
  }

  /** The row `createNewAccount` inserts (its id is chosen by the store):
      a missing description is stored as '' and a missing opening balance as 0. */
  function NewAccountRow(p: CreateAccountPayload): AccountRow
  {
    AccountRow(0, p.code, p.name, p.accountType, p.classification,
               Some(p.description.GetOr("")), p.initialBalance.GetOr(0), p.isActive)
  }

  /** The `updateData` object `updateExistingAccount` builds: code and name
      only when present and non-empty, type and classification when present,
      description, balance and status whenever not `undefined`. */
  function BuildUpdate(p: UpdateAccountPayload): AccountUpdate
  {
    AccountUpdate(
      if p.code.Some? && p.code.value != "" then p.code else None,
      if p.name.Some? && p.name.value != "" then p.name else None,
      p.accountType,
      p.classification,
      p.description,
      p.balance,
      p.isActive)
  }

  /** The account `createNewAccount` returns carries the payload's fields,
      the new id, a balance equal to the opening balance (0 when none is
      given) and the description given ('' when none is given). */
  lemma CreatedAccountEchoesPayload(p: CreateAccountPayload, id: Id)
    ensures var a := TransformAccount(NewAccountRow(p).(id := id));
      && a.id == id && a.code == p.code && a.name == p.name
      && a.accountType == p.accountType && a.classification == p.classification
      && a.isActive == p.isActive
      && (p.initialBalance.Some? ==> a.balance == p.initialBalance.value)
      && (p.initialBalance.None? ==> a.balance == 0)
      && (p.description.Some? ==> a.description == p.description.value)
      && (p.description.None? ==> a.description == "")
  {
  }

  /** What an update does to a stored account, field by field: a present,
      non-empty code or name replaces the stored one, an empty one is
      ignored; every other present field replaces the stored one; absent
      fields and the id are kept. */
  lemma UpdateFieldByField(row: AccountRow, p: UpdateAccountPayload)
    ensures var a := ApplyUpdate(row, BuildUpdate(p));
      && a.id == row.id
      && a.code == (if p.code.Some? && p.code.value != "" then p.code.value else row.code)
      && a.name == (if p.name.Some? && p.name.value != "" then p.name.value else row.name)
      && a.accountType == (if p.accountType.Some? then p.accountType.value else row.accountType)
      && a.classification == (if p.classification.Some? then p.classification.value else row.classification)
      && a.description == (if p.description.Some? then p.description else row.description)
      && a.balance == (if p.balance.Some? then p.balance.value else row.balance)
      && a.isActive == (if p.isActive.Some? then p.isActive.value else row.isActive)
  {
  }

  /** An update never blanks a stored code or name. */
  lemma UpdateKeepsCodeAndNameNonEmpty(row: AccountRow, p: UpdateAccountPayload)
    requires row.code != [] && row.name != []
    ensures ApplyUpdate(row, BuildUpdate(p)).code != []
    ensures ApplyUpdate(row, BuildUpdate(p)).name != []
  {
  }

  /** An empty payload changes nothing. */
  lemma EmptyUpdateIsIdentity(row: AccountRow)
    ensures ApplyUpdate(row, BuildUpdate(UpdateAccountPayload(None, None, None, None, None, None, None))) == row
  {
  }

  /** Transforming rows that list a table in code order lists the table's
      accounts in code order, each exactly as stored. */
  lemma ListingOfRows(table: map<Id, AccountRow>, rows: seq<AccountRow>)
    requires forall id :: id in table ==> table[id].id == id
    requires CodeAscending(rows) && |rows| == |table|
    requires forall row :: row in rows <==> row.id in table && table[row.id] == row
    ensures var accounts := TransformAccounts(rows);
      && |accounts| == |table|
      && (forall i :: 0 < i < |accounts| ==> LexLessEq(accounts[i - 1].code, accounts[i].code))
      && (forall id :: id in table ==> TransformAccount(table[id]) in accounts)
      && (forall a :: a in accounts ==> a.id in table && a == TransformAccount(table[a.id]))
  {
    var accounts := TransformAccounts(rows);
    forall i | 0 < i < |accounts| ensures LexLessEq(accounts[i - 1].code, accounts[i].code) {
      assert accounts[i - 1].code == rows[i - 1].code && accounts[i].code == rows[i].code;
    }
    forall id | id in table ensures TransformAccount(table[id]) in accounts {
      assert table[id] in rows;
      var i :| 0 <= i < |rows| && rows[i] == table[id];
      assert accounts[i] == TransformAccount(table[id]);
    }
    forall a | a in accounts ensures a.id in table && a == TransformAccount(table[a.id]) {
      var i :| 0 <= i < |accounts| && accounts[i] == a;
      assert rows[i] in rows;
    }
  }

  /** `fetchAccounts`: every account, lowest code first. */
  method FetchAccounts(db: Store, fails: bool) returns (r: Result<seq<Account>, AccountError>)
    requires db.Valid()
    ensures fails ==> r == Failure(AccountsFetchFailed)
    ensures !fails ==> r.Success?
    ensures r.Success? ==>
      && |r.value| == |db.accounts|
      && (forall i :: 0 < i < |r.value| ==> LexLessEq(r.value[i - 1].code, r.value[i].code))
      && (forall id :: id in db.accounts ==> TransformAccount(db.accounts[id]) in r.value)
      && (forall a :: a in r.value ==> a.id in db.accounts && a == TransformAccount(db.accounts[a.id]))
  {
    if fails {
      return Failure(AccountsFetchFailed);
    }
    var rows := db.SelectAccountsByCode();
    var accounts := TransformAccounts(rows);
    ListingOfRows(db.accounts, rows);
    r := Success(accounts);
  }

  /** `fetchAccountById`: the account with that id, or nothing when there is none. */
  method FetchAccountById(db: Store, id: Id, fails: bool) returns (r: Result<Option<Account>, AccountError>)
    ensures fails ==> r == Failure(AccountsFetchFailed)
    ensures !fails && id !in db.accounts ==> r == Success(None)
    ensures !fails && id in db.accounts ==> r == Success(Some(TransformAccount(db.accounts[id])))
  {
    var found := db.SelectAccount(id, fails);
    if found.Failure? {
      return Failure(AccountsFetchFailed);
    }
    r := Success(if found.value.Some? then Some(TransformAccount(found.value.value)) else None);
  }

  /** `createNewAccount`: one new account under a fresh id. */
  method CreateNewAccount(db: Store, p: CreateAccountPayload, fails: bool) returns (r: Result<Account, AccountError>)
    requires db.Valid()
    modifies db
    ensures db.Valid()
    ensures fails ==> r == Failure(AccountInsertFailed) && db.accounts == old(db.accounts)
    ensures !fails ==>
      var row := NewAccountRow(p).(id := old(db.nextId));
      && old(db.nextId) !in old(db.accounts)
      && db.accounts == old(db.accounts)[old(db.nextId) := row]
      && r == Success(TransformAccount(row))
    ensures db.transactions == old(db.transactions) && db.entries == old(db.entries)
  {
    var inserted := db.InsertAccount(NewAccountRow(p), fails);
    if inserted.None? {
      return Failure(AccountInsertFailed);
    }
    r := Success(TransformAccount(inserted.value));
  }

  /** `updateExistingAccount`: `single()` reports an error when no account has
      that id, so an unknown id fails like a storage error. */
  method UpdateExistingAccount(db: Store, id: Id, p: UpdateAccountPayload, fails: bool)
    returns (r: Result<Account, AccountError>)
    requires db.Valid()
    modifies db
    ensures db.Valid()
    ensures fails || id !in old(db.accounts) ==> r == Failure(AccountUpdateFailed) && db.accounts == old(db.accounts)
    ensures !fails && id in old(db.accounts) ==>
      var row := ApplyUpdate(old(db.accounts)[id], BuildUpdate(p));
      && db.accounts == old(db.accounts)[id := row]
      && r == Success(TransformAccount(row))
    ensures db.transactions == old(db.transactions) && db.entries == old(db.entries)
  {
    var updated := db.UpdateAccount(id, BuildUpdate(p), fails);
    if updated.None? {
      return Failure(AccountUpdateFailed);
    }
    r := Success(TransformAccount(updated.value));
  }

  /** `deleteExistingAccount`: removes the account; an unknown id is no error. */
  method DeleteExistingAccount(db: Store, id: Id, fails: bool) returns (r: Outcome<AccountError>)
    requires db.Valid()
    modifies db
    ensures db.Valid()
    ensures r == (if fails then Fail(AccountDeleteFailed) else Pass)
    ensures db.accounts == (if fails then old(db.accounts) else old(db.accounts) - {id})
    ensures db.transactions == old(db.transactions) && db.entries == old(db.entries)
  {
    var ok := db.DeleteAccount(id, fails);
    r := if ok then Pass else Fail(AccountDeleteFailed);
  }

  /** Creating an account and reading it back by its id returns the created account. */
  method CreateThenFetch(db: Store, p: CreateAccountPayload) returns (created: Result<Account, AccountError>, fetched: Result<Option<Account>, AccountError>)
    requires db.Valid()
    modifies db
    ensures created.Success? && fetched == Success(Some(created.value))
  {
    created := CreateNewAccount(db, p, false);
    fetched := FetchAccountById(db, created.value.id, false);
  }
}
