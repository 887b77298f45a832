/** The landing page's double-entry showcase: four sample journal entries
    whose amounts are display strings such as "₹11,800", and the debit and
    credit totals computed from them. */
module DoubleEntryShowcase {
  import opened Wrappers
  import opened Text

  datatype Tab = Tab(id: string, caption: string)

  /** One line of a sample journal entry: the amounts are display text and an
      unused side is "". */
  datatype ShowcaseEntry = ShowcaseEntry(account: string, debit: string, credit: string)

  datatype Showcase = Showcase(title: string, entries: seq<ShowcaseEntry>)

  // ---------------------------------------------------------------------
  // Amount parsing: `parseInt(amount.replace(/[^\d]/g, ''))`
  // ---------------------------------------------------------------------

  /** `acc` followed by the digits of `s[i..]`, in order. */
  function StripFrom(s: string, i: nat, acc: string): string
    requires i <= |s|
    decreases |s| - i
  {
    if i == |s| then acc
    else StripFrom(s, i + 1, if IsDigit(s[i]) then acc + [s[i]] else acc)
  }

  /** The scan keeps `acc` and appends at most one digit per character. */
  lemma {:induction false} StripFromShape(s: string, i: nat, acc: string)
    requires i <= |s|
    ensures var r := StripFrom(s, i, acc);
      && |acc| <= |r| <= |acc| + (|s| - i) && r[..|acc|] == acc
      && forall k :: |acc| <= k < |r| ==> IsDigit(r[k])
    decreases |s| - i
  {
    if i < |s| {
      var next := if IsDigit(s[i]) then acc + [s[i]] else acc;
      StripFromShape(s, i + 1, next);
      assert StripFrom(s, i, acc)[..|next|][..|acc|] == StripFrom(s, i, acc)[..|acc|];
    }
  }

  /** `s.replace(/[^\d]/g, '')`: the digits of `s`, everything else deleted. */
  function StripNonDigits(s: string): string
  {
    StripFrom(s, 0, [])
  }

  /** What is left is at most as long as `s` and made of digits only. */
  lemma StripLeavesDigits(s: string)
    ensures |StripNonDigits(s)| <= |s|
    ensures forall k :: 0 <= k < |StripNonDigits(s)| ==> IsDigit(StripNonDigits(s)[k])
  {
    StripFromShape(s, 0, []);
  }

  /** The decimal value of the digits of `s[i..]`, read after `acc`. */
  function ValueFrom(s: string, i: nat, acc: nat): nat
    requires i <= |s|
    decreases |s| - i
  {
    if i == |s| then acc
    else ValueFrom(s, i + 1, if IsDigit(s[i]) then 10 * acc + (s[i] as int - '0' as int) else acc)
  }

  /** `parseInt` of a digit string. */
  function DecimalValue(ds: string): nat
  {
    ValueFrom(ds, 0, 0)
  }

  /** The amount a display string stands for; `None` is the `NaN` that
      `parseInt('')` gives when the string holds no digit at all. */
  function ParseAmount(s: string): (r: Option<nat>)
    ensures r.None? <==> StripNonDigits(s) == []
  {
    var ds := StripNonDigits(s);
    if ds == [] then None else Some(DecimalValue(ds))
  }

  lemma {:induction false} StripFromAcc(s: string, i: nat, acc: string)
    requires i <= |s|
    ensures StripFrom(s, i, acc) == acc + StripFrom(s, i, [])
    decreases |s| - i
  {
    if i < |s| {
      StripFromAcc(s, i + 1, []);
      if IsDigit(s[i]) {
        StripFromAcc(s, i + 1, acc + [s[i]]);
        StripFromAcc(s, i + 1, [s[i]]);
        assert [] + [s[i]] == [s[i]];
        assert (acc + [s[i]]) + StripFrom(s, i + 1, []) == acc + ([s[i]] + StripFrom(s, i + 1, []));
      } else {
        StripFromAcc(s, i + 1, acc);
      }
    }
  }

  lemma {:induction false} StripFromSuffix(a: string, b: string, j: nat, acc: string)
    requires j <= |b|
    ensures StripFrom(a + b, |a| + j, acc) == StripFrom(b, j, acc)
    decreases |b| - j
  {
    if j < |b| {
      assert (a + b)[|a| + j] == b[j];
      StripFromSuffix(a, b, j + 1, if IsDigit(b[j]) then acc + [b[j]] else acc);
    }
  }

  lemma {:induction false} StripFromPrefix(a: string, b: string, i: nat, acc: string)
    requires i <= |a|
    ensures StripFrom(a + b, i, acc) == StripFrom(b, 0, StripFrom(a, i, acc))
    decreases |a| - i
  {
    if i == |a| {
      StripFromSuffix(a, b, 0, acc);
    } else {
      assert (a + b)[i] == a[i];
      StripFromPrefix(a, b, i + 1, if IsDigit(a[i]) then acc + [a[i]] else acc);
    }
  }

  /** Stripping works piece by piece. */
  lemma StripAppend(a: string, b: string)
    ensures StripNonDigits(a + b) == StripNonDigits(a) + StripNonDigits(b)
  {
    StripFromPrefix(a, b, 0, []);
    StripFromAcc(b, 0, StripNonDigits(a));
  }

  /** A single character survives exactly when it is a digit. */
  lemma StripChar(c: char)
    ensures StripNonDigits([c]) == if IsDigit(c) then [c] else []
  {
    assert [c][0] == c && [] + [c] == [c];
    assert StripFrom([c], 0, []) == StripFrom([c], 1, if IsDigit(c) then [c] else []);
  }

  lemma {:induction false} StripFromDigits(s: string, i: nat, acc: string)
    requires i <= |s|
    requires forall k :: 0 <= k < |s| ==> IsDigit(s[k])
    ensures StripFrom(s, i, acc) == acc + s[i..]
    decreases |s| - i
  {
    if i < |s| {
      StripFromDigits(s, i + 1, acc + [s[i]]);
      assert s[i..] == [s[i]] + s[i + 1..];
    }
  }

  /** A string of digits is left as it is. */
  lemma StripKeepsDigitStrings(s: string)
    requires forall k :: 0 <= k < |s| ==> IsDigit(s[k])
    ensures StripNonDigits(s) == s
  {
    StripFromDigits(s, 0, []);
  }

  lemma {:induction false} ValueFromAppend(ds: string, d: char, i: nat, acc: nat)
    requires i <= |ds| && IsDigit(d)
    ensures ValueFrom(ds + [d], i, acc) == 10 * ValueFrom(ds, i, acc) + (d as int - '0' as int)
    decreases |ds| - i
  {
    if i == |ds| {
      assert (ds + [d])[i] == d;
    } else {
      assert (ds + [d])[i] == ds[i];
      ValueFromAppend(ds, d, i + 1, if IsDigit(ds[i]) then 10 * acc + (ds[i] as int - '0' as int) else acc);
    }
  }

  /** The positional reading: one more digit multiplies the value by ten and
      adds that digit. */
  lemma DecimalAppendDigit(ds: string, d: char)
    requires IsDigit(d)
    ensures DecimalValue(ds + [d]) == 10 * DecimalValue(ds) + (d as int - '0' as int)
  {
    ValueFromAppend(ds, d, 0, 0);
  }

  /** A thousands separator does not change the amount. */
  lemma SeparatorIgnored(a: string, b: string)
    ensures ParseAmount(a + [','] + b) == ParseAmount(a + b)
  {
    StripAppend(a + [','], b);
    StripAppend(a, [',']);
    StripChar(',');
    StripAppend(a, b);
    assert StripNonDigits(a) + [] == StripNonDigits(a);
  }

  /** An amount whose digits are `ds`, worth `v`. */
  lemma AmountOf(s: string, ds: string, v: nat)
    requires StripNonDigits(s) == ds && ds != [] && DecimalValue(ds) == v
    ensures ParseAmount(s) == Some(v)
  {
  }

  lemma ParseExample()
    ensures ParseAmount("\U{20B9}11,800") == Some(11800)
    ensures ParseAmount("11800") == Some(11800)
    ensures ParseAmount("\U{20B9}") == None
  {
  }

  // ---------------------------------------------------------------------
  // Totals: `entries.reduce((sum, e) => sum + (side ? parseInt(...) : 0), 0)`
  // ---------------------------------------------------------------------

  function Side(e: ShowcaseEntry, debit: bool): string
  {
    if debit then e.debit else e.credit
  }

  /** One step of the fold: an empty side adds nothing; a side without digits
      turns the sum into `NaN`, which stays `NaN`. */
  function AddSide(sum: Option<int>, e: ShowcaseEntry, debit: bool): Option<int>
  {
    var side := Side(e, debit);
    if side == "" then sum
    else match (sum, ParseAmount(side))
      case (Some(a), Some(b)) => Some(a + b)
      case _ => None
  }

  function TotalFrom(es: seq<ShowcaseEntry>, i: nat, debit: bool, sum: Option<int>): Option<int>
    requires i <= |es|
    decreases |es| - i
  {
    if i == |es| then sum else TotalFrom(es, i + 1, debit, AddSide(sum, es[i], debit))
  }

  /** The debit (or credit) total shown in the last row of the table. */
  function SideTotal(es: seq<ShowcaseEntry>, debit: bool): Option<int>
  {
    TotalFrom(es, 0, debit, Some(0))
  }

  lemma {:induction false} TotalFromAppend(es: seq<ShowcaseEntry>, e: ShowcaseEntry, i: nat, debit: bool, sum: Option<int>)
    requires i <= |es|
    ensures TotalFrom(es + [e], i, debit, sum) == AddSide(TotalFrom(es, i, debit, sum), e, debit)
    decreases |es| - i
  {
    if i == |es| {
      assert (es + [e])[i] == e;
    } else {
      assert (es + [e])[i] == es[i];
      TotalFromAppend(es, e, i + 1, debit, AddSide(sum, es[i], debit));
    }
  }

  /** The fold read line by line: the total of a table with one more line is
      the old total with that line added. */
  lemma TotalAppend(es: seq<ShowcaseEntry>, e: ShowcaseEntry, debit: bool)
    ensures SideTotal(es + [e], debit) == AddSide(SideTotal(es, debit), e, debit)
    ensures SideTotal([], debit) == Some(0)
  {
    TotalFromAppend(es, e, 0, debit, Some(0));
  }

  /** An empty side contributes 0; a non-empty side without digits makes the
      total `NaN`. */
  lemma SideContribution(es: seq<ShowcaseEntry>, e: ShowcaseEntry, debit: bool)
    ensures Side(e, debit) == "" ==> SideTotal(es + [e], debit) == SideTotal(es, debit)
    ensures Side(e, debit) != "" && StripNonDigits(Side(e, debit)) == []
      ==> SideTotal(es + [e], debit) == None
    ensures SideTotal(es, debit).Some? && ParseAmount(Side(e, debit)).Some?
      ==> SideTotal(es + [e], debit) == Some(SideTotal(es, debit).value + ParseAmount(Side(e, debit)).value)
  {
    TotalAppend(es, e, debit);
  }

  // ---------------------------------------------------------------------
  // The sample data
  // ---------------------------------------------------------------------

  const Tabs: seq<Tab> := [
    Tab("sales", "Sales Recording"),
    Tab("purchases", "Purchase Processing"),
    Tab("payroll", "Payroll Management"),
    Tab("compliance", "Statutory Compliance")]

  /** The tab shown first. */
  const InitialTab := "sales"

  const SalesEntries: seq<ShowcaseEntry> := [
    ShowcaseEntry("Accounts Receivable", "\U{20B9}11,800", ""),
    ShowcaseEntry("Sales Revenue", "", "\U{20B9}10,000"),
    ShowcaseEntry("IGST Payable", "", "\U{20B9}1,800")]

  const PurchaseEntries: seq<ShowcaseEntry> := [
    ShowcaseEntry("Office Supplies Expense", "\U{20B9}5,000", ""),
    ShowcaseEntry("Input CGST", "\U{20B9}450", ""),
    ShowcaseEntry("Input SGST", "\U{20B9}450", ""),
    ShowcaseEntry("TDS Payable", "", "\U{20B9}500"),
    ShowcaseEntry("Accounts Payable", "", "\U{20B9}5,400")]

  const PayrollEntries: seq<ShowcaseEntry> := [
    ShowcaseEntry("Salary Expense", "\U{20B9}50,000", ""),
    ShowcaseEntry("Employer PF Contribution", "\U{20B9}4,500", ""),
    ShowcaseEntry("Employer ESIC Contribution", "\U{20B9}1,625", ""),
    ShowcaseEntry("Employee PF Payable", "", "\U{20B9}4,500"),
    ShowcaseEntry("Employee ESIC Payable", "", "\U{20B9}750"),
    ShowcaseEntry("TDS Payable", "", "\U{20B9}5,000"),
    ShowcaseEntry("Salary Payable", "", "\U{20B9}45,875")]

  const ComplianceEntries: seq<ShowcaseEntry> := [
    ShowcaseEntry("CGST Payable", "\U{20B9}45,000", ""),
    ShowcaseEntry("SGST Payable", "\U{20B9}45,000", ""),
    ShowcaseEntry("IGST Payable", "\U{20B9}10,000", ""),
    ShowcaseEntry("Bank Account", "", "\U{20B9}100,000")]

  const ShowcaseData: map<string, Showcase> := map[
    "sales" := Showcase("Double-Entry Sales Recording", SalesEntries),
    "purchases" := Showcase("Double-Entry Purchase Processing", PurchaseEntries),
    "payroll" := Showcase("Double-Entry Payroll Management", PayrollEntries),
    "compliance" := Showcase("Statutory Compliance Management", ComplianceEntries)]

  /** Every tab, the first one included, has a record to show. */
  lemma EveryTabHasData()
    ensures forall k :: 0 <= k < |Tabs| ==> Tabs[k].id in ShowcaseData
    ensures InitialTab in ShowcaseData && Tabs[0].id == InitialTab
    ensures ShowcaseData.Keys == {"sales", "purchases", "payroll", "compliance"}
  {
  }

  /** Exactly one side of every sample line is filled in. */
  lemma EveryLineOneSided()
    ensures forall id, k :: id in ShowcaseData && 0 <= k < |ShowcaseData[id].entries| ==>
      (ShowcaseData[id].entries[k].debit == "") != (ShowcaseData[id].entries[k].credit == "")
  {
  }

  /** The "sales" tab: debits and credits both total 11800. */
  lemma SalesBalances()
    ensures SideTotal(ShowcaseData["sales"].entries, true) == SideTotal(ShowcaseData["sales"].entries, false) == Some(11800)
  {
    ShowcaseDataLines();
    SalesAmounts();
    SalesDebits();
    SalesCredits();
  }

  lemma SalesAmounts()
    ensures ParseAmount("\U{20B9}11,800") == Some(11800)
    ensures ParseAmount("\U{20B9}10,000") == Some(10000)
    ensures ParseAmount("\U{20B9}1,800") == Some(1800)
  {
    AmountOf("\U{20B9}11,800", "11800", 11800);
    AmountOf("\U{20B9}10,000", "10000", 10000);
    AmountOf("\U{20B9}1,800", "1800", 1800);
  }

  lemma SalesDebits()
    ensures SideTotal(SalesEntries, true) == Some(11800)
  {
    SalesAmounts();
  }

  lemma SalesCredits()
    ensures SideTotal(SalesEntries, false) == Some(11800)
  {
    SalesAmounts();
  }

  /** The "purchases" tab: debits and credits both total 5900. */
  lemma PurchasesBalance()
    ensures SideTotal(ShowcaseData["purchases"].entries, true) == SideTotal(ShowcaseData["purchases"].entries, false) == Some(5900)
  {
    ShowcaseDataLines();
    PurchaseAmounts();
    PurchaseDebits();
    PurchaseCredits();
  }

  lemma PurchaseAmounts()
    ensures ParseAmount("\U{20B9}5,000") == Some(5000)
    ensures ParseAmount("\U{20B9}450") == Some(450)
    ensures ParseAmount("\U{20B9}500") == Some(500)
    ensures ParseAmount("\U{20B9}5,400") == Some(5400)
  {
    AmountOf("\U{20B9}5,000", "5000", 5000);
    AmountOf("\U{20B9}450", "450", 450);
    AmountOf("\U{20B9}500", "500", 500);
    AmountOf("\U{20B9}5,400", "5400", 5400);
  }

  lemma PurchaseDebits()
    ensures SideTotal(PurchaseEntries, true) == Some(5900)
  {
    PurchaseAmounts();
  }

  lemma PurchaseCredits()
    ensures SideTotal(PurchaseEntries, false) == Some(5900)
  {
    PurchaseAmounts();
  }

  /** The "payroll" tab: debits and credits both total 56125. */
  lemma PayrollBalances()
    ensures SideTotal(ShowcaseData["payroll"].entries, true) == SideTotal(ShowcaseData["payroll"].entries, false) == Some(56125)
  {
    ShowcaseDataLines();
    PayrollAmounts();
    PayrollDebits();
    PayrollCredits();
  }

  lemma PayrollAmounts()
    ensures ParseAmount("\U{20B9}50,000") == Some(50000)
    ensures ParseAmount("\U{20B9}4,500") == Some(4500)
    ensures ParseAmount("\U{20B9}1,625") == Some(1625)
    ensures ParseAmount("\U{20B9}750") == Some(750)
    ensures ParseAmount("\U{20B9}5,000") == Some(5000)
    ensures ParseAmount("\U{20B9}45,875") == Some(45875)
  {
    AmountOf("\U{20B9}50,000", "50000", 50000);
    AmountOf("\U{20B9}4,500", "4500", 4500);
    AmountOf("\U{20B9}1,625", "1625", 1625);
    AmountOf("\U{20B9}750", "750", 750);
    AmountOf("\U{20B9}5,000", "5000", 5000);
    AmountOf("\U{20B9}45,875", "45875", 45875);
  }

  lemma PayrollDebits()
    ensures SideTotal(PayrollEntries, true) == Some(56125)
  {
    PayrollAmounts();
  }

  lemma PayrollCredits()
    ensures SideTotal(PayrollEntries, false) == Some(56125)
  {
    PayrollAmounts();
  }

  /** The "compliance" tab: debits and credits both total 100000. */
  lemma ComplianceBalances()
    ensures SideTotal(ShowcaseData["compliance"].entries, true) == SideTotal(ShowcaseData["compliance"].entries, false) == Some(100000)
  {
    ShowcaseDataLines();
    ComplianceAmounts();
    ComplianceDebits();
    ComplianceCredits();
  }

  lemma ComplianceAmounts()
    ensures ParseAmount("\U{20B9}45,000") == Some(45000)
    ensures ParseAmount("\U{20B9}10,000") == Some(10000)
    ensures ParseAmount("\U{20B9}100,000") == Some(100000)
  {
    AmountOf("\U{20B9}45,000", "45000", 45000);
    AmountOf("\U{20B9}10,000", "10000", 10000);
    AmountOf("\U{20B9}100,000", "100000", 100000);
  }

  lemma ComplianceDebits()
    ensures SideTotal(ComplianceEntries, true) == Some(100000)
  {
    ComplianceAmounts();
  }

  lemma ComplianceCredits()
    ensures SideTotal(ComplianceEntries, false) == Some(100000)
  {
    ComplianceAmounts();
  }

  /** The record of each tab id holds that tab's sample lines. */
  lemma ShowcaseDataLines()
    ensures ShowcaseData.Keys == {"sales", "purchases", "payroll", "compliance"}
    ensures ShowcaseData["sales"].entries == SalesEntries
    ensures ShowcaseData["purchases"].entries == PurchaseEntries
    ensures ShowcaseData["payroll"].entries == PayrollEntries
    ensures ShowcaseData["compliance"].entries == ComplianceEntries
  {
  }
}
