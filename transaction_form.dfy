/** The journal-entry editor of the new-transaction dialog: a list of entry
    lines (at least two) with add, remove and change handlers, and the debit
    and credit totals that decide whether the transaction may be saved. */
module TransactionForm {

  /** One line of the editor; amounts in minor units. */
  datatype FormEntry = FormEntry(accountId: string, description: string, debit: int, credit: int)

  const BlankEntry := FormEntry("", "", 0, 0)

  /** A change made through `handleEntryChange(index, field, value)`. */
  datatype EntryEdit = SetAccount(accountId: string) | SetDescription(description: string)
                     | SetDebit(debit: int) | SetCredit(credit: int)

  /** A non-zero debit clears the credit, a non-zero credit clears the debit;
      any other change sets only its own field. */
  function ApplyEdit(e: FormEntry, edit: EntryEdit): FormEntry
  {
    match edit
    case SetDebit(v) => if v != 0 then e.(debit := v, credit := 0) else e.(debit := v)
    case SetCredit(v) => if v != 0 then e.(credit := v, debit := 0) else e.(credit := v)
    case SetAccount(a) => e.(accountId := a)
    case SetDescription(d) => e.(description := d)
  }

  /** At most one side of the line is non-zero. */
  predicate OneSided(e: FormEntry)
  {
    e.debit == 0 || e.credit == 0
  }

  /** Setting an amount side leaves that amount and a zero on the other side
      (when non-zero); every edit keeps a one-sided line one-sided. */
  lemma ApplyEditSides(e: FormEntry, edit: EntryEdit)
    ensures edit.SetDebit? && edit.debit != 0 ==> ApplyEdit(e, edit) == e.(debit := edit.debit, credit := 0)
    ensures edit.SetCredit? && edit.credit != 0 ==> ApplyEdit(e, edit) == e.(credit := edit.credit, debit := 0)
    ensures OneSided(e) ==> OneSided(ApplyEdit(e, edit))
    ensures edit.SetAccount? || edit.SetDescription? ==>
      ApplyEdit(e, edit).debit == e.debit && ApplyEdit(e, edit).credit == e.credit
  {
  }

  function TotalDebits(entries: seq<FormEntry>): int
  {
    if entries == [] then 0 else TotalDebits(entries[..|entries| - 1]) + entries[|entries| - 1].debit
  }

  function TotalCredits(entries: seq<FormEntry>): int
  {
    if entries == [] then 0 else TotalCredits(entries[..|entries| - 1]) + entries[|entries| - 1].credit
  }

  /** Save is enabled exactly when the debit total is positive and equals the credit total. */
  predicate IsBalanced(entries: seq<FormEntry>)
  {
    TotalDebits(entries) == TotalCredits(entries) && TotalDebits(entries) > 0
  }

  /** The displayed difference `Math.abs(totalDebits - totalCredits)`. */
  function Difference(entries: seq<FormEntry>): (d: nat)
    ensures d == 0 <==> TotalDebits(entries) == TotalCredits(entries)
    ensures d == TotalDebits(entries) - TotalCredits(entries) || d == TotalCredits(entries) - TotalDebits(entries)
  {
    var delta := TotalDebits(entries) - TotalCredits(entries);
    if delta < 0 then -delta else delta
  }

  /** A balanced editor shows a zero difference, and a zero difference with
      a positive debit total is balanced. */
  lemma BalancedIffZeroDifference(entries: seq<FormEntry>)
    ensures IsBalanced(entries) <==> Difference(entries) == 0 && TotalDebits(entries) > 0
  {
  }

  /** Totals over two line lists add up. */
  lemma {:induction false} TotalsAppend(a: seq<FormEntry>, b: seq<FormEntry>)
    ensures TotalDebits(a + b) == TotalDebits(a) + TotalDebits(b)
    ensures TotalCredits(a + b) == TotalCredits(a) + TotalCredits(b)
    decreases |b|
  {
    if b == [] {
      assert a + b == a;
    } else {
      assert (a + b)[..|a + b| - 1] == a + b[..|b| - 1];
      TotalsAppend(a, b[..|b| - 1]);
    }
  }

  /** Replacing one line moves each total by that line's change. */
  lemma TotalsAfterReplace(entries: seq<FormEntry>, i: nat, e: FormEntry)
    requires i < |entries|
    ensures TotalDebits(entries[i := e]) == TotalDebits(entries) - entries[i].debit + e.debit
    ensures TotalCredits(entries[i := e]) == TotalCredits(entries) - entries[i].credit + e.credit
  {
    var before, after := entries[..i], entries[i + 1..];
    assert entries == before + [entries[i]] + after;
    assert entries[i := e] == before + [e] + after;
    TotalsAppend(before + [entries[i]], after);
    TotalsAppend(before + [e], after);
    TotalsAppend(before, [entries[i]]);
    TotalsAppend(before, [e]);
    assert [entries[i]][..0] == [] && [e][..0] == [];
  }

  /** The position `splice(index, 1)` removes from: a negative index counts
      from the end (clamped to 0), a large one is clamped to the length. */
  function SpliceStart(index: int, n: nat): (s: nat)
    ensures s <= n
  {
    if index < 0 then (if n + index < 0 then 0 else n + index)
    else if index > n then n else index
  }

  class EntryEditor {
    var entries: seq<FormEntry>

    /** Never fewer than two lines, and each line has at most one non-zero side. */
    ghost predicate Valid()
      reads this
    {
      |entries| >= 2 && forall i :: 0 <= i < |entries| ==> OneSided(entries[i])
    }

    /** The editor starts with two blank lines. */
    constructor ()
      ensures Valid()
      ensures entries == [BlankEntry, BlankEntry]
      ensures TotalDebits(entries) == 0 && TotalCredits(entries) == 0 && !IsBalanced(entries)
    {
      var initial := [BlankEntry, BlankEntry];
      assert initial[..1] == [BlankEntry] && [BlankEntry][..0] == [];
      assert TotalDebits([BlankEntry]) == 0 && TotalCredits([BlankEntry]) == 0;
      entries := initial;
    }

    /** `handleAddEntry`: one blank line at the end. */
    method AddEntry()
      requires Valid()
      modifies this
      ensures Valid()
      ensures entries == old(entries) + [BlankEntry]
      ensures TotalDebits(entries) == TotalDebits(old(entries))
      ensures TotalCredits(entries) == TotalCredits(old(entries))
    {
      entries := entries + [BlankEntry];
      assert entries[..|entries| - 1] == old(entries);
    }

    /** `handleRemoveEntry(index)`: nothing happens at two lines or fewer;
        otherwise the line `splice(index, 1)` designates is removed and the
        order of the others is kept. */
    method RemoveEntry(index: int)
      requires Valid()
      modifies this
      ensures Valid()
      ensures var s := SpliceStart(index, |old(entries)|);
        entries == if |old(entries)| <= 2 || s == |old(entries)| then old(entries)
                   else old(entries)[..s] + old(entries)[s + 1..]
      ensures 0 <= index < |old(entries)| && |old(entries)| > 2 ==> |entries| == |old(entries)| - 1
    {
      if |entries| <= 2 {
        return;
      }
      var s := SpliceStart(index, |entries|);
      if s < |entries| {
        ghost var before := entries;
        entries := entries[..s] + entries[s + 1..];
        forall i | 0 <= i < |entries| ensures OneSided(entries[i]) {
          if i < s {
            assert entries[i] == before[i];
          } else {
            assert entries[i] == before[i + 1];
          }
        }
      }
    }

    /** `handleEntryChange(index, field, value)` for an index the line items
        pass in. */
    method ChangeEntry(index: nat, edit: EntryEdit)
      requires Valid()
      requires index < |entries|
      modifies this
      ensures Valid()
      ensures entries == old(entries)[index := ApplyEdit(old(entries)[index], edit)]
      ensures TotalDebits(entries) == TotalDebits(old(entries)) - old(entries)[index].debit + entries[index].debit
      ensures TotalCredits(entries) == TotalCredits(old(entries)) - old(entries)[index].credit + entries[index].credit
    {
      var e := ApplyEdit(entries[index], edit);
      ApplyEditSides(entries[index], edit);
      TotalsAfterReplace(entries, index, e);
      entries := entries[index := e];
    }
  }
}
