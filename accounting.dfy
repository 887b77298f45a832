/** The chart-of-accounts data model: the five account types, the fourteen
    classifications, which classifications belong to which type, the display
    labels, the default chart of accounts and the account records and payloads. */
module Accounting {
  import opened Wrappers
  import opened Text

  /** Identifiers of stored rows (the database hands them out). */
  type Id = nat

  datatype AccountType = Asset | Liability | Equity | Income | Expense

  datatype Classification =
    | CurrentAsset | FixedAsset | NonCurrentAsset | OtherAsset
    | CurrentLiability | LongTermLiability | OtherLiability
    | OwnerEquity | RetainedEarnings
    | OperatingRevenue | NonOperatingRevenue
    | OperatingExpense | NonOperatingExpense | Tax

  const AllTypes: seq<AccountType> := [Asset, Liability, Equity, Income, Expense]

  const AllClassifications: seq<Classification> := [
    CurrentAsset, FixedAsset, NonCurrentAsset, OtherAsset,
    CurrentLiability, LongTermLiability, OtherLiability,
    OwnerEquity, RetainedEarnings,
    OperatingRevenue, NonOperatingRevenue,
    OperatingExpense, NonOperatingExpense, Tax]

  /** The string a type is stored and compared as. */
  function TypeName(t: AccountType): string
  {
    match t
    case Asset => "asset"
    case Liability => "liability"
    case Equity => "equity"
    case Income => "income"
    case Expense => "expense"
  }

  /** The string a classification is stored and compared as. */
  function ClassificationName(c: Classification): string
  {
    match c
    case CurrentAsset => "current-asset"
    case FixedAsset => "fixed-asset"
    case NonCurrentAsset => "non-current-asset"
    case OtherAsset => "other-asset"
    case CurrentLiability => "current-liability"
    case LongTermLiability => "long-term-liability"
    case OtherLiability => "other-liability"
    case OwnerEquity => "owner-equity"
    case RetainedEarnings => "retained-earnings"
    case OperatingRevenue => "operating-revenue"
    case NonOperatingRevenue => "non-operating-revenue"
    case OperatingExpense => "operating-expense"
    case NonOperatingExpense => "non-operating-expense"
    case Tax => "tax"
  }

  /** `accountClassifications[t]`: the classifications offered for type `t`,
      in display order; never empty, so its first element always exists. */
  function ClassificationsOf(t: AccountType): (r: seq<Classification>)
    ensures |r| > 0
  {
    match t
    case Asset => [CurrentAsset, FixedAsset, NonCurrentAsset, OtherAsset]
    case Liability => [CurrentLiability, LongTermLiability, OtherLiability]
    case Equity => [OwnerEquity, RetainedEarnings]
    case Income => [OperatingRevenue, NonOperatingRevenue]
    case Expense => [OperatingExpense, NonOperatingExpense, Tax]
  }

  /** The type a classification is grouped under in the union declaration. */
  function OwnerType(c: Classification): AccountType
  {
    match c
    case CurrentAsset | FixedAsset | NonCurrentAsset | OtherAsset => Asset
    case CurrentLiability | LongTermLiability | OtherLiability => Liability
    case OwnerEquity | RetainedEarnings => Equity
    case OperatingRevenue | NonOperatingRevenue => Income
    case OperatingExpense | NonOperatingExpense | Tax => Expense
  }

  function TypeLabel(t: AccountType): string
  {
    match t
    case Asset => "Asset"
    case Liability => "Liability"
    case Equity => "Equity"
    case Income => "Income"
    case Expense => "Expense"
  }

  function ClassificationLabel(c: Classification): string
  {
    match c
    case CurrentAsset => "Current Asset"
    case FixedAsset => "Fixed Asset"
    case NonCurrentAsset => "Non-Current Asset"
    case OtherAsset => "Other Asset"
    case CurrentLiability => "Current Liability"
    case LongTermLiability => "Long-Term Liability"
    case OtherLiability => "Other Liability"
    case OwnerEquity => "Owner Equity"
    case RetainedEarnings => "Retained Earnings"
    case OperatingRevenue => "Operating Revenue"
    case NonOperatingRevenue => "Non-Operating Revenue"
    case OperatingExpense => "Operating Expense"
    case NonOperatingExpense => "Non-Operating Expense"
    case Tax => "Tax"
  }

  /** There are exactly five account types. */
  lemma ExactlyFiveTypes()
    ensures |AllTypes| == 5
    ensures forall i, j :: 0 <= i < j < |AllTypes| ==> AllTypes[i] != AllTypes[j]
    ensures forall t: AccountType :: t in AllTypes
  {
    forall t: AccountType ensures t in AllTypes {
      match t
      case Asset => assert AllTypes[0] == t;
      case Liability => assert AllTypes[1] == t;
      case Equity => assert AllTypes[2] == t;
      case Income => assert AllTypes[3] == t;
      case Expense => assert AllTypes[4] == t;
    }
  }

  /** The fourteen classifications are split by type: each belongs to the list
      of its owner type and of no other, and the five lists together hold all
      fourteen. */
  lemma ClassificationsPartition(t: AccountType, c: Classification)
    ensures c in ClassificationsOf(t) <==> OwnerType(c) == t
    ensures c in AllClassifications
  {
    ClassificationListed(c);
    if c in ClassificationsOf(t) {
      ListedUnderOwner(t, c);
    }
  }

  /** A classification sits in the list of the type that owns it, and in the
      list of all classifications. */
  lemma {:induction false} ClassificationListed(c: Classification)
    ensures c in ClassificationsOf(OwnerType(c)) && c in AllClassifications
  {
    match c
    case CurrentAsset => {} case FixedAsset => {} case NonCurrentAsset => {} case OtherAsset => {}
    case CurrentLiability => {} case LongTermLiability => {} case OtherLiability => {}
    case OwnerEquity => {} case RetainedEarnings => {}
    case OperatingRevenue => {} case NonOperatingRevenue => {}
    case OperatingExpense => {} case NonOperatingExpense => {} case Tax => {}
  }

  /** A type's list holds only classifications that type owns. */
  lemma {:induction false} ListedUnderOwner(t: AccountType, c: Classification)
    requires c in ClassificationsOf(t)
    ensures OwnerType(c) == t
  {
    match t
    case Asset => {} case Liability => {} case Equity => {} case Income => {} case Expense => {}
  }

  /** The list of all classifications names each of the fourteen once. */
  lemma ClassificationsDistinct()
    ensures |AllClassifications| == 14
    ensures forall i, j :: 0 <= i < j < |AllClassifications| ==> AllClassifications[i] != AllClassifications[j]
  {
  }

  /** The five lengths 4 + 3 + 2 + 2 + 3 add up to the fourteen classifications
      and no list repeats an element. */
  lemma ClassificationListsCoverAll()
    ensures |ClassificationsOf(Asset)| + |ClassificationsOf(Liability)| + |ClassificationsOf(Equity)|
            + |ClassificationsOf(Income)| + |ClassificationsOf(Expense)| == |AllClassifications|
    ensures forall t: AccountType, i, j :: 0 <= i < j < |ClassificationsOf(t)| ==> ClassificationsOf(t)[i] != ClassificationsOf(t)[j]
  {
  }

  /** Reads a stored type name back; the inverse of `TypeName`. */
  function ParseType(s: string): (r: Option<AccountType>)
    ensures r.Some? ==> TypeName(r.value) == s
  {
    if s == "asset" then Some(Asset)
    else if s == "liability" then Some(Liability)
    else if s == "equity" then Some(Equity)
    else if s == "income" then Some(Income)
    else if s == "expense" then Some(Expense)
    else None
  }

  /** Reads a stored classification name back; the inverse of `ClassificationName`. */
  function ParseClassification(s: string): (r: Option<Classification>)
    ensures r.Some? ==> ClassificationName(r.value) == s
  {
    if s == "current-asset" then Some(CurrentAsset)
    else if s == "fixed-asset" then Some(FixedAsset)
    else if s == "non-current-asset" then Some(NonCurrentAsset)
    else if s == "other-asset" then Some(OtherAsset)
    else if s == "current-liability" then Some(CurrentLiability)
    else if s == "long-term-liability" then Some(LongTermLiability)
    else if s == "other-liability" then Some(OtherLiability)
    else if s == "owner-equity" then Some(OwnerEquity)
    else if s == "retained-earnings" then Some(RetainedEarnings)
    else if s == "operating-revenue" then Some(OperatingRevenue)
    else if s == "non-operating-revenue" then Some(NonOperatingRevenue)
    else if s == "operating-expense" then Some(OperatingExpense)
    else if s == "non-operating-expense" then Some(NonOperatingExpense)
    else if s == "tax" then Some(Tax)
    else None
  }

  /** Stored type names are read back as the type they name, so different
      types never share a name; no name is empty. */
  lemma {:induction false} TypeNameRoundTrip(t: AccountType)
    ensures ParseType(TypeName(t)) == Some(t)
    ensures TypeName(t) != ""
  {
    match t
    case Asset => {} case Liability => {} case Equity => {} case Income => {} case Expense => {}
  }

  /** Stored classification names are read back as the classification they
      name, so different classifications never share a name; no name is empty. */
  lemma ClassificationNameRoundTrip(c: Classification)
    ensures ParseClassification(ClassificationName(c)) == Some(c)
    ensures ClassificationName(c) != ""
  {
    match OwnerType(c)
    case Asset => AssetNamesRoundTrip(c);
    case Liability => LiabilityNamesRoundTrip(c);
    case Equity => EquityNamesRoundTrip(c);
    case Income => IncomeNamesRoundTrip(c);
    case Expense =>
      if c == Tax {
        TaxNameRoundTrip();
      } else {
        ExpenseNamesRoundTrip(c);
      }
  }

  lemma {:induction false} AssetNamesRoundTrip(c: Classification)
    requires OwnerType(c) == Asset
    ensures ParseClassification(ClassificationName(c)) == Some(c) && ClassificationName(c) != ""
  {
    match c
    case CurrentAsset => {} case FixedAsset => {} case NonCurrentAsset => {} case OtherAsset => {}
  }

  lemma {:induction false} LiabilityNamesRoundTrip(c: Classification)
    requires OwnerType(c) == Liability
    ensures ParseClassification(ClassificationName(c)) == Some(c) && ClassificationName(c) != ""
  {
    match c
    case CurrentLiability => {} case LongTermLiability => {} case OtherLiability => {}
  }

  lemma {:induction false} EquityNamesRoundTrip(c: Classification)
    requires OwnerType(c) == Equity
    ensures ParseClassification(ClassificationName(c)) == Some(c) && ClassificationName(c) != ""
  {
    match c
    case OwnerEquity => {} case RetainedEarnings => {}
  }

  lemma {:induction false} IncomeNamesRoundTrip(c: Classification)
    requires OwnerType(c) == Income
    ensures ParseClassification(ClassificationName(c)) == Some(c) && ClassificationName(c) != ""
  {
    match c
    case OperatingRevenue => {} case NonOperatingRevenue => {}
  }

  lemma {:induction false} ExpenseNamesRoundTrip(c: Classification)
    requires c == OperatingExpense || c == NonOperatingExpense
    ensures ParseClassification(ClassificationName(c)) == Some(c) && ClassificationName(c) != ""
  {
    if c == OperatingExpense {
      assert "operating-expense"[0] != "non-current-asset"[0];
      assert "operating-expense"[0] != "current-liability"[0];
      assert "operating-expense"[0] != "retained-earnings"[0];
      assert "operating-expense"[10] != "operating-revenue"[10];
    } else {
      assert "non-operating-expense"[14] != "non-operating-revenue"[14];
    }
  }

  lemma TaxNameRoundTrip()
    ensures ParseClassification(ClassificationName(Tax)) == Some(Tax) && ClassificationName(Tax) != ""
  {
  }

  /** Every type and every classification has a (non-empty) label. */
  lemma LabelsPresent(t: AccountType, c: Classification)
    ensures |TypeLabel(t)| > 0 && |ClassificationLabel(c)| > 0
  {
  }

  // ---------------------------------------------------------------------------
  // The default chart of accounts.

  datatype DefaultAccount = DefaultAccount(
    name: string, code: string, accountType: AccountType,
    classification: Classification, description: string)

  const DefaultAccounts: seq<DefaultAccount> := [
    DefaultAccount("Cash", "1001", Asset, CurrentAsset, "Cash on hand"),
    DefaultAccount("Bank Account", "1002", Asset, CurrentAsset, "Primary bank account"),
    DefaultAccount("Accounts Receivable", "1200", Asset, CurrentAsset, "Money owed by customers"),
    DefaultAccount("Inventory", "1300", Asset, CurrentAsset, "Goods for sale"),
    DefaultAccount("Office Equipment", "1500", Asset, FixedAsset, "Computers, furniture, etc."),
    DefaultAccount("Vehicles", "1600", Asset, FixedAsset, "Company vehicles"),
    DefaultAccount("Accounts Payable", "2001", Liability, CurrentLiability, "Money owed to suppliers"),
    DefaultAccount("Credit Card", "2002", Liability, CurrentLiability, "Company credit card"),
    DefaultAccount("GST Payable", "2100", Liability, CurrentLiability, "GST/Tax collected to be paid"),
    DefaultAccount("Bank Loan", "2500", Liability, LongTermLiability, "Long-term bank loan"),
    DefaultAccount("Owner's Capital", "3001", Equity, OwnerEquity, "Owner's investment"),
    DefaultAccount("Retained Earnings", "3900", Equity, RetainedEarnings, "Accumulated earnings"),
    DefaultAccount("Sales Revenue", "4001", Income, OperatingRevenue, "Revenue from sales"),
    DefaultAccount("Service Revenue", "4002", Income, OperatingRevenue, "Revenue from services"),
    DefaultAccount("Interest Income", "4900", Income, NonOperatingRevenue, "Income from interest"),
    DefaultAccount("Rent Expense", "5001", Expense, OperatingExpense, "Office rent"),
    DefaultAccount("Salaries Expense", "5002", Expense, OperatingExpense, "Employee salaries"),
    DefaultAccount("Utilities Expense", "5003", Expense, OperatingExpense, "Electricity, water, etc."),
    DefaultAccount("Office Supplies", "5100", Expense, OperatingExpense, "Stationery and supplies"),
    DefaultAccount("Bank Charges", "5900", Expense, NonOperatingExpense, "Bank fees"),
    DefaultAccount("Income Tax Expense", "5950", Expense, Tax, "Corporate income tax")
  ]

  /** Every default account is classified consistently with its type. */
  lemma DefaultAccountsConsistent()
    ensures |DefaultAccounts| == 21
    ensures forall i :: 0 <= i < |DefaultAccounts| ==>
              DefaultAccounts[i].classification in ClassificationsOf(DefaultAccounts[i].accountType)
  {
  }

  /** Default account codes are non-empty and digits only. */
  lemma DefaultCodesAreDigits()
    ensures forall i :: 0 <= i < |DefaultAccounts| ==> IsDigits(DefaultAccounts[i].code)
  {
  }

  /** The number a four-digit code spells (-1 for any other length). */
  function CodeNumber(code: string): int
  {
    if |code| != 4 then -1
    else 1000 * DigitValue(code[0]) + 100 * DigitValue(code[1]) + 10 * DigitValue(code[2]) + DigitValue(code[3])
  }

  function DigitValue(c: char): int
  {
    c as int - '0' as int
  }

  /** Each default code is numerically larger than the one before it. */
  lemma DefaultCodesAscending()
    ensures forall i :: 0 <= i < |DefaultAccounts| - 1 ==>
      CodeNumber(DefaultAccounts[i].code) < CodeNumber(DefaultAccounts[i + 1].code)
  {
  }

  /** Codes that grow from each account to the next grow along the whole list. */
  lemma {:induction false} AscendingCodesIncrease(accounts: seq<DefaultAccount>)
    requires forall i :: 0 <= i < |accounts| - 1 ==> CodeNumber(accounts[i].code) < CodeNumber(accounts[i + 1].code)
    ensures forall i, j :: 0 <= i < j < |accounts| ==> CodeNumber(accounts[i].code) < CodeNumber(accounts[j].code)
  {
    if |accounts| > 1 {
      var init := accounts[..|accounts| - 1];
      AscendingCodesIncrease(init);
      forall i, j | 0 <= i < j < |accounts|
        ensures CodeNumber(accounts[i].code) < CodeNumber(accounts[j].code)
      {
        if j < |accounts| - 1 {
          assert init[i] == accounts[i] && init[j] == accounts[j];
        } else if i < j - 1 {
          assert init[i] == accounts[i] && init[j - 1] == accounts[j - 1];
        }
      }
    }
  }

  /** No two default accounts share a code. */
  lemma DefaultCodesDistinct()
    ensures forall i, j :: 0 <= i < j < |DefaultAccounts| ==> DefaultAccounts[i].code != DefaultAccounts[j].code
  {
    DefaultCodesAscending();
    AscendingCodesIncrease(DefaultAccounts);
  }

  // ---------------------------------------------------------------------------
  // Account records and the payloads that create and update them.

  /** An account as the application sees it (`Account` in the types file);
      timestamps and `parentId` are not modelled. */
  datatype Account = Account(
    id: Id, code: string, name: string, accountType: AccountType,
    classification: Classification, description: string,
    balance: int, isActive: bool)

  /** `CreateAccountPayload`: an account without id and balance, with an
      optional opening balance. */
  datatype CreateAccountPayload = CreateAccountPayload(
    code: string, name: string, accountType: AccountType,
    classification: Classification, description: Option<string>,
    isActive: bool, initialBalance: Option<int>)

  /** `UpdateAccountPayload`: every field optional (`Partial<...>`). */
  datatype UpdateAccountPayload = UpdateAccountPayload(
    code: Option<string>, name: Option<string>, accountType: Option<AccountType>,
    classification: Option<Classification>, description: Option<string>,
    balance: Option<int>, isActive: Option<bool>)
}
