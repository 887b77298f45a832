/** One tab of the chart of accounts: the accounts of one type, with the
    classification shown as words and a status badge. */
module AccountTypeTab {
  import opened Text
  import opened Accounting
  import opened UseAccounts

  /** `accounts.filter(account => account.type === type)`. */
  function FilteredAccounts(accounts: seq<Account>, t: AccountType): (r: seq<Account>)
    ensures forall a :: a in r <==> a in accounts && a.accountType == t
  {
    if accounts == [] then []
    else FilteredAccounts(accounts[..|accounts| - 1], t)
         + (if accounts[|accounts| - 1].accountType == t then [accounts[|accounts| - 1]] else [])
  }

  /** The tab lists the same accounts, in the same order, as the hook's
      filter by the type's name. */
  lemma {:induction false} FilteredAgreesWithHook(accounts: seq<Account>, t: AccountType)
    ensures FilteredAccounts(accounts, t) == GetAccountsByType(accounts, TypeName(t))
  {
    if accounts != [] {
      FilteredAgreesWithHook(accounts[..|accounts| - 1], t);
      var u := accounts[|accounts| - 1].accountType;
      TypeNameRoundTrip(u);
      TypeNameRoundTrip(t);
    }
  }

  /** The empty state is shown when no account has the tab's type. */
  predicate ShowsEmptyState(accounts: seq<Account>, t: AccountType)
  {
    |FilteredAccounts(accounts, t)| == 0
  }

  lemma EmptyStateIffNoAccountOfType(accounts: seq<Account>, t: AccountType)
    ensures ShowsEmptyState(accounts, t) <==> forall a :: a in accounts ==> a.accountType != t
  {
    var r := FilteredAccounts(accounts, t);
    if |r| > 0 {
      assert r[0] in r;
    }
  }

  /** `classification.replace(/-/g, ' ')`. */
  function ClassificationDisplay(c: Classification): (r: string)
    ensures |r| == |ClassificationName(c)|
    ensures forall i :: 0 <= i < |r| ==> r[i] != '-'
    ensures forall i :: 0 <= i < |r| && ClassificationName(c)[i] != '-' ==> r[i] == ClassificationName(c)[i]
    ensures forall i :: 0 <= i < |r| && ClassificationName(c)[i] == '-' ==> r[i] == ' '
  {
    ReplaceAll(ClassificationName(c), '-', ' ')
  }

  /** The status badge. */
  function StatusLabel(isActive: bool): (r: string)
    ensures r == "Active" <==> isActive
    ensures r == "Inactive" <==> !isActive
  {
    if isActive then "Active" else "Inactive"
  }

  /** The line under the tab's title: one text per type, each non-empty. */
  function TypeDescription(t: AccountType): (r: string)
    ensures r != ""
  {
    match t
    case Asset => "Resources owned by the business"
    case Liability => "Obligations owed to others"
    case Equity => "Ownership interest in the business"
    case Income => "Revenue from business activities"
    case Expense => "Costs incurred in business operations"
  }

  /** Each tab shows its own description: no two types share one. */
  lemma TypeDescriptionsDistinct(t: AccountType, u: AccountType)
    ensures TypeDescription(t) == TypeDescription(u) ==> t == u
  {
  }

  lemma ClassificationDisplayExample()
    ensures ClassificationDisplay(NonOperatingRevenue) == "non operating revenue"
  {
  }
}
