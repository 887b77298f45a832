/** `useAccounts`: the loaded account list, lookups over it and the error
    text the pages show. */
module UseAccounts {
  import opened Wrappers
  import opened Accounting

  /** What the accounts query reports as its error. */
  datatype QueryError = ErrorInstance(message: string) | OtherThrown

  const FetchFallback := "Failed to fetch accounts"

  /** `data: accounts = []`: no data yet reads as no accounts. */
  function AccountsOf(data: Option<seq<Account>>): seq<Account>
  {
    data.GetOr([])
  }

  /** `accounts.find(account => account.id === id) || null`. */
  function GetAccountById(accounts: seq<Account>, id: Id): (r: Option<Account>)
    ensures r.None? <==> forall a :: a in accounts ==> a.id != id
    ensures r.Some? ==> exists i :: 0 <= i < |accounts| && accounts[i] == r.value
                          && r.value.id == id && forall j :: 0 <= j < i ==> accounts[j].id != id
  {
    if accounts == [] then None
    else if accounts[0].id == id then Some(accounts[0])
    else
      var r := GetAccountById(accounts[1..], id);
      assert forall a :: a in accounts[1..] ==> a in accounts;
      assert accounts == [accounts[0]] + accounts[1..];
      if r.Some? then
        var i :| 0 <= i < |accounts[1..]| && accounts[1..][i] == r.value
                  && r.value.id == id && forall j :: 0 <= j < i ==> accounts[1..][j].id != id;
        assert accounts[i + 1] == r.value;
        assert forall j :: 1 <= j < i + 1 ==> accounts[j].id != id by {
          forall j | 1 <= j < i + 1 ensures accounts[j].id != id {
            assert accounts[j] == accounts[1..][j - 1];
          }
        }
        r
      else r
  }

  /** `accounts.filter(account => account.type === type)`. */
  function GetAccountsByType(accounts: seq<Account>, accountType: string): (r: seq<Account>)
    ensures forall a :: a in r <==> a in accounts && TypeName(a.accountType) == accountType
    ensures |r| <= |accounts|
  {
    if accounts == [] then []
    else GetAccountsByType(accounts[..|accounts| - 1], accountType)
         + (if TypeName(accounts[|accounts| - 1].accountType) == accountType then [accounts[|accounts| - 1]] else [])
  }

  /** The filter keeps the original order: it distributes over concatenation. */
  lemma {:induction false} GetAccountsByTypeAppend(a: seq<Account>, b: seq<Account>, accountType: string)
    ensures GetAccountsByType(a + b, accountType) == GetAccountsByType(a, accountType) + GetAccountsByType(b, accountType)
    decreases |b|
  {
    if b == [] {
      assert a + b == a;
    } else {
      var init, last := b[..|b| - 1], b[|b| - 1];
      var tail := if TypeName(last.accountType) == accountType then [last] else [];
      assert (a + b)[..|a + b| - 1] == a + init;
      assert (a + b)[|a + b| - 1] == last;
      assert GetAccountsByType(a + b, accountType) == GetAccountsByType(a + init, accountType) + tail;
      assert GetAccountsByType(b, accountType) == GetAccountsByType(init, accountType) + tail;
      GetAccountsByTypeAppend(a, init, accountType);
    }
  }

  /** The five type filters split the list: their lengths add up to its length. */
  lemma {:induction false} TypeFiltersPartition(accounts: seq<Account>)
    ensures |GetAccountsByType(accounts, "asset")| + |GetAccountsByType(accounts, "liability")|
            + |GetAccountsByType(accounts, "equity")| + |GetAccountsByType(accounts, "income")|
            + |GetAccountsByType(accounts, "expense")| == |accounts|
  {
    if accounts != [] {
      TypeFiltersPartition(accounts[..|accounts| - 1]);
      var t := accounts[|accounts| - 1].accountType;
      assert "asset" != "liability" && "asset" != "equity" && "asset" != "income" && "asset" != "expense";
      assert "liability" != "equity" && "liability" != "income" && "liability" != "expense";
      assert "equity" != "income" && "equity" != "expense" && "income" != "expense";
    }
  }

  /** A text that names no type selects nothing. */
  lemma UnknownTypeSelectsNothing(accounts: seq<Account>, accountType: string)
    requires ParseType(accountType).None?
    ensures GetAccountsByType(accounts, accountType) == []
  {
    forall a | a in accounts ensures TypeName(a.accountType) != accountType {
      TypeNameRoundTrip(a.accountType);
    }
    if GetAccountsByType(accounts, accountType) != [] {
      assert GetAccountsByType(accounts, accountType)[0] in GetAccountsByType(accounts, accountType);
    }
  }

  /** Before the query has data there are no accounts and no lookup finds one. */
  lemma NoDataFindsNothing(id: Id, accountType: string)
    ensures AccountsOf(None) == []
    ensures GetAccountById(AccountsOf(None), id) == None
    ensures GetAccountsByType(AccountsOf(None), accountType) == []
  {
  }

  /** The error shown: none without a query error, the error's message for
      an `Error`, the fixed fallback for anything else thrown. */
  function ErrorMessage(queryError: Option<QueryError>): (r: Option<string>)
    ensures r.None? <==> queryError.None?
    ensures queryError.Some? && queryError.value.ErrorInstance? ==> r == Some(queryError.value.message)
    ensures queryError.Some? && queryError.value.OtherThrown? ==> r == Some(FetchFallback)
  {
    match queryError
    case None => None
    case Some(ErrorInstance(message)) => Some(message)
    case Some(OtherThrown) => Some(FetchFallback)
  }
}
