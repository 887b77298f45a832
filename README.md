# ledgerpro: a verified model of the double-entry core

ledgerpro is a small bookkeeping web application. Accounts are arranged in a
chart of accounts: five account types, fourteen classifications and a default
list of 21 accounts. Journal transactions are headers with a list of entries.
When a transaction is created, every entry's debit and credit is posted to its
account's balance. The sign depends on the account type: a debit raises asset
and expense accounts and lowers liability, equity and income accounts, and a
credit does the opposite. Deleting a transaction reverses those postings.

Around this core sit pure helpers, which the model covers too:

- the account form and its validator;
- the journal-entry editor, with its totals and balance test;
- the generic form hook;
- the account hook and the chart-of-accounts tab;
- the query-key factories, whose prefixes decide what a cache invalidation reaches;
- the sign-up, login and profile pages;
- the landing page's journal showcase and its testimonial carousel.

The Postgres tables behind the services are modelled in memory by the class
`Database.Store`:

- accounts are a map from id to row;
- transaction headers and entries are sequences in table order, and a select
  with no `order()` returns its rows in table order (see "Left out");
- ids come from a counter;
- every storage call whose error the services handle takes a boolean that
  says whether the call fails;
- the account-type read before each balance update can fail too: a create
  or delete names its failing reads as a set of `Lookup`s (the debit or
  credit read of the i-th entry), and a failed read skips that update, as
  the code does;
- two calls take no fault of their own: `update_account_balance`, whose
  result the code ignores, and the ordered accounts scan, whose error is the
  `fails` parameter of `AccountsService.FetchAccounts`.

Money is an unbounded integer in minor units. Each service operation is an
imperative method on the store. Its contract ties the new tables to
specification functions (`PostEntries`, `ReverseEntries`, `EntriesOf`,
`SortByDateDesc`, `ApplyUpdate` and so on), and lemmas prove the bookkeeping
facts about those functions:

- the sign table;
- post-then-delete restores every balance;
- posting moves (asset + expense) − (liability + equity + income) by exactly
  the posted debits minus the posted credits;
- a balanced posting leaves that net position unchanged.

Modules, one file each:

- `Wrappers`: Option, Result and Outcome.
- `Text`: trim, the digit test, `replace`, the `\S+@\S+\.\S+` email test and
  string order.
- `Accounting`: `src/types/accounting.ts`.
- `Database`: the in-memory tables.
- `TransactionsService` and `AccountsService`: the two services.
- `AccountFormValidator` and `AccountForm`: the account form.
- `TransactionForm`: the entry editor.
- `UseForm`, `UseAccounts` and `AccountTypeTab`: the form hook, the account
  hook and the tab.
- `QueryKeys`, `AccountsQueryKeys` and `TransactionsQueryKeys`: the key
  factories.
- `Signup`, `Login` and `Profile`: the pages.
- `DoubleEntryShowcase` and `Testimonials`: the landing page.

Two checks a reader might expect are absent from the code:

- `deleteTransaction` of an unknown id reads no entries, deletes nothing and
  reports success; it raises no "not found" error.
- Neither service checks that a transaction balances or that an account is
  active. Only the entry editor's Save button checks the balance.

## Model

| member | source | states |
|---|---|---|
| `Accounting.ClassificationsOf` | src/types/accounting.ts:53-59 | every type's classification list is non-empty, so its first element exists |
| `Accounting.ExactlyFiveTypes` | src/types/accounting.ts:5 | there are exactly five distinct account types and every type is one of them |
| `Accounting.ClassificationsPartition` | src/types/accounting.ts:8-27 | a classification is in a type's list exactly when that type owns it, so the lists are disjoint; every classification is among the fourteen declared |
| `Accounting.ClassificationsDistinct` | src/types/accounting.ts:8-27 | the declared classifications are fourteen distinct values |
| `Accounting.ClassificationListsCoverAll` | src/types/accounting.ts:53-59 | the five list lengths add up to fourteen and no list repeats an element |
| `Accounting.ParseType` | src/types/accounting.ts:5 | a name that parses is the stored name of the type it parses to |
| `Accounting.ParseClassification` | src/types/accounting.ts:8-27 | a name that parses is the stored name of the classification it parses to |
| `Accounting.TypeNameRoundTrip` | src/types/accounting.ts:5 | the stored type names read back as their type and are non-empty, so different types have different names |
| `Accounting.ClassificationNameRoundTrip` | src/types/accounting.ts:8-27 | the stored classification names read back as their classification and are non-empty |
| `Accounting.LabelsPresent` | src/types/accounting.ts:62-86 | every type and every classification has a non-empty label |
| `Accounting.DefaultAccountsConsistent` | src/types/accounting.ts:89-120 | there are 21 default accounts and each one's classification is in the list of its type |
| `Accounting.DefaultCodesAreDigits` | src/types/accounting.ts:91-119 | every default code is non-empty and digits only |
| `Accounting.DefaultCodesAscending` | src/types/accounting.ts:91-119 | each default code is numerically larger than the one before |
| `Accounting.AscendingCodesIncrease` | src/types/accounting.ts:91-119 | codes that grow from each account to the next grow along the whole list |
| `Accounting.DefaultCodesDistinct` | src/types/accounting.ts:91-119 | the default codes are pairwise distinct |
| `Text.TrimStart` | src/components/accounting/utils/accountFormValidator.ts:15 | the result is a suffix of the input, starts with no whitespace, and only whitespace was dropped |
| `Text.TrimEnd` | src/components/accounting/utils/accountFormValidator.ts:15 | the result is a prefix of the input, ends with no whitespace, and only whitespace was dropped |
| `Text.Trim` | src/components/accounting/utils/accountFormValidator.ts:15 | the trimmed text is empty exactly when the input is blank |
| `Text.ReplaceAll` | src/components/accounting/chart-of-accounts/AccountTypeTab.tsx:72 | same length; each occurrence of the character is replaced and every other character is kept |
| `Text.DotTailSpec` | src/pages/Signup.tsx:33 | the scanner for the `\S+\.\S+` tail succeeds exactly when such a tail exists |
| `Text.EmailFromSpec` | src/pages/Signup.tsx:33 | the scanner from a position succeeds exactly when a match of `\S+@\S+\.\S+` has its '@' at or after it |
| `Text.MatchesEmailPattern` | src/pages/Signup.tsx:33 | the left-to-right scan is true exactly when the text contains a match of `\S+@\S+\.\S+` |
| `Text.LexTotal` | src/services/accountsService.ts:24 | the text order used for ordering by code and date is total |
| `Database.EntriesOf` | src/services/transactionsService.ts:186-189 | the entries selected for a transaction id are exactly the stored entries with that id |
| `Database.EntriesNotOf` | src/services/transactionsService.ts:237-240 | after deleting by transaction id, exactly the entries of other transactions remain |
| `Database.TransactionsWithout` | src/services/transactionsService.ts:247-250 | after deleting by id, exactly the headers with other ids remain |
| `Database.EntriesOfAppend` | src/services/transactionsService.ts:186-189 | selecting by transaction id keeps table order: it distributes over concatenation |
| `Database.EntriesNotOfAppend` | src/services/transactionsService.ts:237-240 | deleting by transaction id distributes over concatenation |
| `Database.EntriesOfAbsent` | src/services/transactionsService.ts:186-189 | an id no entry carries selects nothing and deletes nothing |
| `Database.EntriesOfAll` | src/services/transactionsService.ts:186-189 | rows that all carry the id are all selected and all deleted |
| `Database.TransactionsWithoutAbsent` | src/services/transactionsService.ts:247-250 | deleting an id no header carries keeps the table |
| `Database.TransactionsWithoutAppend` | src/services/transactionsService.ts:247-250 | deleting a header by id distributes over concatenation |
| `Database.TransactionsOfType` | src/services/transactionsService.ts:83 | the headers selected by type are exactly the stored headers of that type, and no more headers than are stored |
| `Database.TransactionsOfTypeAppend` | src/services/transactionsService.ts:83 | filtering by type keeps table order: it distributes over concatenation |
| `Database.TransactionsOfTypeCounts` | src/services/transactionsService.ts:83 | each header of the type is kept exactly as often as it is stored, every other header never |
| `Database.InsertByDateMultiset` | src/services/transactionsService.ts:67 | inserting into the date order adds exactly that header |
| `Database.InsertByDateSorted` | src/services/transactionsService.ts:67 | inserting into a newest-first list keeps it newest first |
| `Database.SortByDateDesc` | src/services/transactionsService.ts:67 | ordering by date descending is a permutation and is newest first |
| `Database.InsertByCodeMultiset` | src/services/accountsService.ts:24 | inserting into the code order adds exactly that row |
| `Database.InsertByCodeSorted` | src/services/accountsService.ts:24 | inserting into a code-ascending list keeps it ascending |
| `Database.AdjustBalance` | src/services/transactionsService.ts:151-154 | `update_account_balance` adds the amount to that account's balance and changes no other account |
| `Database.Store.InsertTransaction` | src/services/transactionsService.ts:98-111 | a header insert appends one row under a fresh id, or changes nothing on failure |
| `Database.Store.InsertEntries` | src/services/transactionsService.ts:122-125 | a multi-row entry insert writes all rows or none; a row naming no stored transaction fails the foreign key |
| `Database.Store.SelectEntries` | src/services/transactionsService.ts:31-34 | returns exactly the entries of that transaction, in table order (one of the orders an unordered select may give), or fails |
| `Database.Store.DeleteEntries` | src/services/transactionsService.ts:237-244 | removes exactly the entries of that transaction, or changes nothing on failure |
| `Database.Store.DeleteTransaction` | src/services/transactionsService.ts:247-254 | removes the header with that id; refused while entries still point at it |
| `Database.Store.SelectTransactions` | src/services/transactionsService.ts:64-67 | returns every header newest first, or fails |
| `Database.Store.SelectTransactionsOfType` | src/services/transactionsService.ts:80-84 | returns the headers of one type newest first, or fails |
| `Database.Store.SelectAccountsByCode` | src/services/accountsService.ts:21-24 | returns every stored account row once, in code order |
| `Database.Store.SelectAccountType` | src/services/transactionsService.ts:140-146 | returns the account's type, or no data when the read fails or there is no such account |
| `Database.Store.UpdateAccountBalance` | src/services/transactionsService.ts:151-154 | the accounts table becomes `AdjustBalance` of the old one; the other tables are kept |
| `Database.Store.InsertAccount` | src/services/accountsService.ts:50-62 | inserts the row under a fresh id and returns it, or changes nothing on failure |
| `Database.Store.SelectAccount` | src/services/accountsService.ts:35-39 | returns the row with that id or none, or fails |
| `Database.Store.UpdateAccount` | src/services/accountsService.ts:83-88 | writes the update into the row with that id; an unknown id fails as `single()` does |
| `Database.Store.DeleteAccount` | src/services/accountsService.ts:99-102 | removes only that id; an unknown id is no error |
| `TransactionsService.EntryRowsOf` | src/services/transactionsService.ts:114-120 | one entry row per payload entry, each pointing at the new header |
| `TransactionsService.TransformEntries` | src/services/transactionsService.ts:41-48 | the mapped entries correspond one to one with the stored rows |
| `TransactionsService.TransformDefaults` | src/services/transactionsService.ts:41-59 | a missing reference, description or entry description becomes '', a missing debit or credit becomes 0, and present values are copied |
| `TransactionsService.TransformInserted` | src/services/transactionsService.ts:96-181 | the transaction a create returns echoes the payload, with the new id on the header and on every entry |
| `TransactionsService.TransformAll` | src/services/transactionsService.ts:73-75 | each header, in the given order, is paired with exactly its own stored entries |
| `TransactionsService.TransformAllKeepsHeaders` | src/services/transactionsService.ts:50-59 | the mapping keeps each header's id, date and type in place, so a newest-first order is kept |
| `TransactionsService.ListingIsComplete` | src/services/transactionsService.ts:63-76 | listing all transactions gives each stored header as often as stored, newest first, each with its own entries |
| `TransactionsService.ListingByTypeIsExact` | src/services/transactionsService.ts:79-93 | listing by type is a permutation of the stored headers of that type, newest first, each with exactly its own entries, and every stored header of that type appears |
| `TransactionsService.SignTable` | src/services/transactionsService.ts:137-176 | a debit raises asset and expense balances and lowers the others, a credit the reverse; every type grows on exactly one side |
| `TransactionsService.PostEntryBalances` | src/services/transactionsService.ts:136-178 | posting one entry keeps the accounts and their types and moves each balance by that entry's effect |
| `TransactionsService.PostEntriesBalances` | src/services/transactionsService.ts:136-178 | posting a list moves each balance by the sum of the entries' effects |
| `TransactionsService.ReverseEntryBalances` | src/services/transactionsService.ts:196-234 | reversing one stored entry keeps the accounts and moves each balance by that row's effect |
| `TransactionsService.ReverseEntriesBalances` | src/services/transactionsService.ts:196-234 | reversing a list moves each balance by the sum of the rows' effects |
| `TransactionsService.ReverseEffectAppend` | src/services/transactionsService.ts:196-234 | with no failed read, the reversal effect of two lists of rows is the sum of their effects |
| `TransactionsService.ReverseEffectOrderFree` | src/services/transactionsService.ts:186-234 | with no failed read, the reversal effect of the rows does not depend on the order they were read in |
| `TransactionsService.ReverseEntriesOrderFree` | src/services/transactionsService.ts:186-234 | with no failed read, the balances after the reversal loop are the same for every order of the same entries |
| `TransactionsService.LookupFailureLosesSide` | src/services/transactionsService.ts:140-167 | a failed type read loses exactly the balance change of its side of the entry and nothing else |
| `TransactionsService.ReverseEffectOfRows` | src/services/transactionsService.ts:205-207 | reversing the rows a posting stored has exactly the negated effect on every account, when the same reads fail in both loops |
| `TransactionsService.PostThenReverseRestores` | src/services/transactionsService.ts:147-149 | reversing the stored rows of a posting restores every account exactly, when the same reads fail in both loops (for instance none) |
| `TransactionsService.NetPositionAdjust` | src/services/transactionsService.ts:151-154 | one balance update moves (asset + expense) − (liability + equity + income) by the amount signed by the account's side |
| `TransactionsService.NetPositionAfterPosting` | src/services/transactionsService.ts:136-178 | posting moves the net position by exactly the posted debits minus the posted credits, counting only sides whose read succeeded on an existing account |
| `TransactionsService.PostedTotalsArePlainTotals` | src/services/transactionsService.ts:137-158 | with every account present, no negative amount and no failed read, the posted totals are the plain totals |
| `TransactionsService.BalancedPostingKeepsNetPosition` | src/services/transactionsService.ts:136-178 | a balanced transaction on existing accounts, with no failed read, leaves the net position unchanged |
| `TransactionsService.FreshIdUnused` | src/services/transactionsService.ts:98-107 | an id from the store's counter is carried by no header and no entry |
| `TransactionsService.PostOneEntry` | src/services/transactionsService.ts:137-177 | one loop pass applies the entry's positive debit and then its positive credit, each only when the type read returns a row; a failed read or a missing account skips that side |
| `TransactionsService.ReverseOneEntry` | src/services/transactionsService.ts:197-233 | one reversal pass applies the stored entry's positive amounts with the opposite sign, skipping a side whose type read returns no data |
| `TransactionsService.PostToStore` | src/services/transactionsService.ts:136-178 | the posting loop leaves the accounts as `PostEntries` of the old accounts and the failing reads; the other tables are kept |
| `TransactionsService.ReverseInStore` | src/services/transactionsService.ts:196-234 | the reversal loop leaves the accounts as `ReverseEntries` of the old accounts and the failing reads |
| `TransactionsService.TransformEach` | src/services/transactionsService.ts:74-75 | all headers are transformed; one failed entries read fails the whole call |
| `TransactionsService.FetchTransactions` | src/services/transactionsService.ts:63-76 | every transaction newest first, or the failure of the header read or of an entries read |
| `TransactionsService.FetchTransactionsByType` | src/services/transactionsService.ts:79-93 | the transactions of one type newest first, or the corresponding failure |
| `TransactionsService.CreateTransaction` | src/services/transactionsService.ts:96-181 | a failed header insert changes nothing; a failed entries insert touches no balance and deletes the header unless that delete fails; otherwise header and entries are stored, the id counter moves on by one and the balances are posted, skipping the failed type reads |
| `TransactionsService.DeleteTransaction` | src/services/transactionsService.ts:184-255 | a failed entries read changes nothing; otherwise balances are reversed from the stored entries, skipping the failed type reads, then the entries and then the header are deleted, stopping at the first failure |
| `TransactionsService.CreateThenDeleteRestoresStore` | src/services/transactionsService.ts:96-255 | creating and then deleting a transaction with no storage error, other than the same failed type reads in both loops, leaves all three tables as they were |
| `AccountsService.TransformAccounts` | src/services/accountsService.ts:30 | one mapped account per row, in order |
| `AccountsService.CreatedAccountEchoesPayload` | src/services/accountsService.ts:49-68 | a created account carries the payload's fields and the new id, balance = opening balance or 0, description = given or '' |
| `AccountsService.UpdateFieldByField` | src/services/accountsService.ts:74-88 | code and name are written only when non-empty, type and classification when present, description, balance and status whenever defined; other fields and the id are kept |
| `AccountsService.UpdateKeepsCodeAndNameNonEmpty` | src/services/accountsService.ts:75-76 | an update never blanks a stored code or name |
| `AccountsService.EmptyUpdateIsIdentity` | src/services/accountsService.ts:74-81 | an empty payload changes nothing |
| `AccountsService.ListingOfRows` | src/services/accountsService.ts:20-31 | mapping code-ordered rows of a table lists each stored account once, as stored, in code order |
| `AccountsService.FetchAccounts` | src/services/accountsService.ts:20-31 | every account once, lowest code first, or the fetch error |
| `AccountsService.FetchAccountById` | src/services/accountsService.ts:34-46 | null exactly when no account has that id, otherwise that account, or the error |
| `AccountsService.CreateNewAccount` | src/services/accountsService.ts:49-69 | adds exactly one account under a fresh id, or changes nothing on error |
| `AccountsService.UpdateExistingAccount` | src/services/accountsService.ts:72-95 | only the row with that id changes, to the update applied to it; an unknown id fails |
| `AccountsService.DeleteExistingAccount` | src/services/accountsService.ts:98-107 | removes only that id, or changes nothing on error |
| `AccountsService.CreateThenFetch` | src/services/accountsService.ts:34-69 | reading a created account back by its id gives the created account |
| `AccountFormValidator.ErrorKeys` | src/components/accounting/utils/accountFormValidator.ts:12-37 | each field is reported exactly when its own check fails; the code is blank-or-not-all-digits, the balance only when not editing |
| `AccountFormValidator.NoErrorsIffAllChecksPass` | src/components/accounting/utils/accountFormValidator.ts:12-37 | the error map is empty exactly when every check passes |
| `AccountFormValidator.CodeMessage` | src/components/accounting/utils/accountFormValidator.ts:15-19 | a blank code gets 'Account code is required', any other non-digit code the digits message |
| `AccountFormValidator.FieldMessages` | src/components/accounting/utils/accountFormValidator.ts:21-35 | the name, type, classification and balance messages are the fixed texts |
| `AccountFormValidator.EditingIgnoresBalance` | src/components/accounting/utils/accountFormValidator.ts:33-35 | editing never reports the opening balance |
| `AccountFormValidator.PaddedCodeIsNotNumeric` | src/components/accounting/utils/accountFormValidator.ts:17-18 | every non-blank code with whitespace anywhere, surrounding spaces included, fails the digits test, which sees the untrimmed text |
| `AccountFormValidator.PaddedCodeExample` | src/components/accounting/utils/accountFormValidator.ts:17-18 | the code " 1000 " gets the digits message |
| `AccountForm.InitialValuesDefaults` | src/components/accounting/AccountForm.tsx:47-65 | a new account starts blank, asset, current-asset, active, balance 0, and that classification fits the type; editing copies the account with balance 0 |
| `AccountForm.ValidateFormAgrees` | src/components/accounting/AccountForm.tsx:90-116 | the dialog's checks equal `validateAccountForm` with editing = an account was passed; type and classification are never reported |
| `AccountForm.EditKeepsBalance` | src/components/accounting/AccountForm.tsx:128-139 | saving an edit writes every dialog field and never the balance |
| `AccountForm.CreateUsesOpeningBalance` | src/components/accounting/AccountForm.tsx:146-156 | a created account opens with the dialog's opening balance and description |
| `AccountForm.AccountFormState.constructor` | src/components/accounting/AccountForm.tsx:47-87 | the dialog opens with its initial values, fixed up by the type effect |
| `AccountForm.AccountFormState.SelectType` | src/components/accounting/AccountForm.tsx:77-87 | after a type change the classification belongs to the new type: kept if it fits, otherwise the first |
| `AccountForm.AccountFormState.SelectClassification` | src/components/accounting/AccountForm.tsx:260 | sets only the classification |
| `AccountForm.AccountFormState.SetActive` | src/components/accounting/AccountForm.tsx:326 | sets only the status |
| `AccountForm.AccountFormState.HandleChange` | src/components/accounting/AccountForm.tsx:185-291 | a text input sets its value and clears that field's error |
| `AccountForm.HandleChangeAgreesWithHook` | src/hooks/useForm.ts:15-17 | removing the field's error key, as the dialog model does, shows exactly the errors, message for message, that the hook shows after storing `undefined` |
| `AccountForm.AccountFormState.SetInitialBalance` | src/components/accounting/AccountForm.tsx:303-307 | sets only the opening balance and clears its error |
| `AccountForm.AccountFormState.Submit` | src/components/accounting/AccountForm.tsx:119-172 | any validation error is shown and nothing is saved; otherwise the account is updated or created and the dialog closes only on success |
| `TransactionForm.ApplyEditSides` | src/components/accounting/ledger/TransactionForm.tsx:74-99 | a non-zero debit clears the credit and vice versa; other edits keep the amounts; every edit keeps a line one-sided |
| `TransactionForm.Difference` | src/components/accounting/ledger/TransactionForm.tsx:207-208 | the shown difference is the absolute difference of the totals and is 0 exactly when they are equal |
| `TransactionForm.BalancedIffZeroDifference` | src/components/accounting/ledger/TransactionForm.tsx:59-61 | balanced exactly when the difference is 0 and the debit total is positive |
| `TransactionForm.TotalsAppend` | src/components/accounting/ledger/TransactionForm.tsx:59-60 | the totals add over concatenation |
| `TransactionForm.TotalsAfterReplace` | src/components/accounting/ledger/TransactionForm.tsx:59-60 | replacing one line moves each total by that line's change |
| `TransactionForm.SpliceStart` | src/components/accounting/ledger/TransactionForm.tsx:70 | the position `splice` removes from is within the list |
| `TransactionForm.EntryEditor.constructor` | src/components/accounting/ledger/TransactionForm.tsx:53-56 | the editor starts with two blank lines, zero totals, not balanced |
| `TransactionForm.EntryEditor.AddEntry` | src/components/accounting/ledger/TransactionForm.tsx:63-65 | appends one blank line and keeps the others and the totals |
| `TransactionForm.EntryEditor.RemoveEntry` | src/components/accounting/ledger/TransactionForm.tsx:67-72 | nothing at two lines or fewer; otherwise removes the line `splice` designates and keeps order; never fewer than two lines |
| `TransactionForm.EntryEditor.ChangeEntry` | src/components/accounting/ledger/TransactionForm.tsx:74-99 | changes only that line, by the side-clearing rule, and keeps every line one-sided |
| `UseForm.ClearOnChange` | src/hooks/useForm.ts:15-17 | the typed field's shown error is cleared, every other error is kept, and nothing changes when none was shown |
| `UseForm.AsErrors` | src/hooks/useForm.ts:23-24 | the errors become exactly the validation result |
| `UseForm.FormHook.constructor` | src/hooks/useForm.ts:7-9 | starts with the initial values, no errors, not submitting |
| `UseForm.FormHook.HandleChange` | src/hooks/useForm.ts:11-18 | sets one value, keeps the others, clears that field's error |
| `UseForm.FormHook.Validate` | src/hooks/useForm.ts:20-26 | with no function: valid and errors kept; otherwise the errors become the result and valid means it has no keys |
| `UseForm.FormHook.HandleSubmit` | src/hooks/useForm.ts:28-55 | an invalid form calls nothing; a valid one calls `onSubmit` once with the values and is submitting only while a returned promise is pending |
| `UseForm.FormHook.SettlePromise` | src/hooks/useForm.ts:44-46 | a settled promise clears the submitting flag |
| `UseForm.FormHook.ResetForm` | src/hooks/useForm.ts:57-60 | back to the initial values with no errors |
| `UseAccounts.GetAccountById` | src/hooks/useAccounts.ts:29-31 | the first account with that id, or null exactly when there is none |
| `UseAccounts.GetAccountsByType` | src/hooks/useAccounts.ts:33-35 | exactly the accounts of that type |
| `UseAccounts.GetAccountsByTypeAppend` | src/hooks/useAccounts.ts:34 | the filter keeps the original order (distributes over concatenation) |
| `UseAccounts.TypeFiltersPartition` | src/hooks/useAccounts.ts:34 | the five type filters' lengths add up to the number of accounts |
| `UseAccounts.UnknownTypeSelectsNothing` | src/hooks/useAccounts.ts:34 | a text that names no type selects nothing |
| `UseAccounts.NoDataFindsNothing` | src/hooks/useAccounts.ts:15-35 | with no data the list is empty and no lookup finds anything |
| `UseAccounts.ErrorMessage` | src/hooks/useAccounts.ts:26 | null exactly without a query error; an Error's message, otherwise the fixed fallback |
| `AccountTypeTab.FilteredAccounts` | src/components/accounting/chart-of-accounts/AccountTypeTab.tsx:25 | exactly the accounts of the tab's type |
| `AccountTypeTab.FilteredAgreesWithHook` | src/components/accounting/chart-of-accounts/AccountTypeTab.tsx:25 | the tab lists the same accounts, in the same order, as the hook's filter |
| `AccountTypeTab.EmptyStateIffNoAccountOfType` | src/components/accounting/chart-of-accounts/AccountTypeTab.tsx:40 | the empty state shows exactly when no account has the type |
| `AccountTypeTab.ClassificationDisplay` | src/components/accounting/chart-of-accounts/AccountTypeTab.tsx:72 | same length as the name, each '-' becomes a space, every other character kept |
| `AccountTypeTab.StatusLabel` | src/components/accounting/chart-of-accounts/AccountTypeTab.tsx:83 | 'Active' exactly when active, otherwise 'Inactive' |
| `AccountTypeTab.TypeDescription` | src/components/accounting/chart-of-accounts/AccountTypeTab.tsx:31-37 | every type has a non-empty description under the tab's title |
| `AccountTypeTab.TypeDescriptionsDistinct` | src/components/accounting/chart-of-accounts/AccountTypeTab.tsx:31-37 | no two types share a description |
| `AccountTypeTab.ClassificationDisplayExample` | src/components/accounting/chart-of-accounts/AccountTypeTab.tsx:72 | 'non-operating-revenue' is shown as 'non operating revenue' |
| `QueryKeys.MatchesTransitive` | src/hooks/queries/useAccountsQuery.ts:14-20 | prefix matching of keys is transitive |
| `QueryKeys.DifferentPartNoMatch` | src/hooks/queries/useAccountsQuery.ts:14-20 | keys that differ at a shared position never match either way |
| `AccountsQueryKeys.EveryKeyUnderAll` | src/hooks/queries/useAccountsQuery.ts:15-19 | every account key starts with ['accounts'] |
| `AccountsQueryKeys.ListsCoverList` | src/hooks/queries/useAccountsQuery.ts:16-17 | lists() is ['accounts','list'] and a strict prefix of every list(f) |
| `AccountsQueryKeys.DetailInjective` | src/hooks/queries/useAccountsQuery.ts:18-19 | detail(id) is ['accounts','detail',id] and different ids give different keys |
| `AccountsQueryKeys.ListsAndDetailsSeparate` | src/hooks/queries/useAccountsQuery.ts:48 | invalidating lists never reaches a detail query and a detail never reaches a list |
| `AccountsQueryKeys.UpdateInvalidation` | src/hooks/queries/useAccountsQuery.ts:76-77 | an update invalidates its own detail and the lists, and no other account's detail |
| `TransactionsQueryKeys.EveryKeyUnderAll` | src/hooks/queries/useTransactionsQuery.ts:15-21 | every transaction key starts with ['transactions'] |
| `TransactionsQueryKeys.InvalidationCoversFamilies` | src/hooks/queries/useTransactionsQuery.ts:50-51 | invalidating lists() and types() reaches every list and every per-type query; type(t) is ['transactions','types',t] |
| `TransactionsQueryKeys.FamiliesSeparate` | src/hooks/queries/useTransactionsQuery.ts:16-21 | lists, types and details never reach each other's queries |
| `TransactionsQueryKeys.TypeAndDetailInjective` | src/hooks/queries/useTransactionsQuery.ts:19-21 | type and detail are injective in their argument |
| `Signup.ErrorKeys` | src/pages/Signup.tsx:24-48 | each field is reported exactly when its condition fails; the confirmation is compared whatever the other checks say |
| `Signup.NoShapeInEmpty` | src/pages/Signup.tsx:31-35 | the empty text holds no email shape |
| `Signup.Messages` | src/pages/Signup.tsx:27-45 | each reported field's message; the two email messages exclude each other, and so do the two password messages |
| `Signup.NoErrorsIffAcceptable` | src/pages/Signup.tsx:24-48 | the error map is empty exactly when all four conditions hold |
| `Signup.BlankNameRequired` | src/pages/Signup.tsx:27-29 | a whitespace-only name is reported as required |
| `Login.EmailCheckMatchesSignup` | src/pages/Login.tsx:26-30 | the email check and messages are those of the sign-up page |
| `Login.ErrorKeys` | src/pages/Login.tsx:23-37 | email reported exactly when it has no email shape, password exactly when empty, with their messages |
| `Login.NoErrorsIffAcceptable` | src/pages/Login.tsx:23-37 | no errors exactly when the email has the shape and a password was typed |
| `Login.ShortPasswordAccepted` | src/pages/Login.tsx:32-34 | a one-character password passes here though the sign-up page refuses it |
| `Profile.AtIndexFrom` | src/pages/Profile.tsx:35 | the position of the first '@' from a position, or the length when there is none |
| `Profile.PrefixBeforeAt` | src/pages/Profile.tsx:35 | element 0 of `split('@')`: a prefix with no '@', followed by '@' when shorter than the text |
| `Profile.NameFromEmail` | src/pages/Profile.tsx:35 | '' without an email, otherwise the text before its first '@' |
| `Profile.NameFromEmailExample` | src/pages/Profile.tsx:35 | 'jane.doe@example.com' gives 'jane.doe' |
| `Profile.NameFromEmailEdgeCases` | src/pages/Profile.tsx:35 | a leading '@' gives '' and a text without '@' is kept whole |
| `Profile.ProfilePage.constructor` | src/pages/Profile.tsx:17-25 | every field starts empty |
| `Profile.ProfilePage.OnUserLoaded` | src/pages/Profile.tsx:33-37 | the name comes from the email, the email is copied ('' when none), the other fields are kept |
| `Profile.ProfilePage.HandleChange` | src/pages/Profile.tsx:41-47 | only the named field changes |
| `Profile.ProfilePage.HandlePasswordChange` | src/pages/Profile.tsx:57-80 | different new and confirmation passwords change nothing; equal ones (both empty included) clear the three password fields; the profile fields are always kept |
| `Profile.ChangePasswordScenario` | src/pages/Profile.tsx:41-80 | typing a matching password pair and submitting clears them and keeps the name |
| `DoubleEntryShowcase.StripFromShape` | src/components/DoubleEntryShowcase.tsx:170 | the digit scan keeps its prefix and appends digits only, at most one per character |
| `DoubleEntryShowcase.StripLeavesDigits` | src/components/DoubleEntryShowcase.tsx:170 | `replace(/[^\d]/g, '')` leaves only digits and never grows the text |
| `DoubleEntryShowcase.ParseAmount` | src/components/DoubleEntryShowcase.tsx:170 | the amount is NaN exactly when the text holds no digit |
| `DoubleEntryShowcase.StripAppend` | src/components/DoubleEntryShowcase.tsx:170 | stripping works piece by piece over concatenation |
| `DoubleEntryShowcase.StripChar` | src/components/DoubleEntryShowcase.tsx:170 | a character survives exactly when it is a digit |
| `DoubleEntryShowcase.StripKeepsDigitStrings` | src/components/DoubleEntryShowcase.tsx:170 | a digit string is left as it is |
| `DoubleEntryShowcase.DecimalAppendDigit` | src/components/DoubleEntryShowcase.tsx:170 | one more digit multiplies the value by ten and adds the digit |
| `DoubleEntryShowcase.SeparatorIgnored` | src/components/DoubleEntryShowcase.tsx:170 | a thousands separator does not change the amount |
| `DoubleEntryShowcase.AmountOf` | src/components/DoubleEntryShowcase.tsx:170 | a text whose digits are non-empty parses to their decimal value |
| `DoubleEntryShowcase.ParseExample` | src/components/DoubleEntryShowcase.tsx:27 | '₹11,800' and '11800' parse to 11800 and '₹' to NaN |
| `DoubleEntryShowcase.TotalAppend` | src/components/DoubleEntryShowcase.tsx:170-173 | the total of a table with one more line is the old total with that line added |
| `DoubleEntryShowcase.SideContribution` | src/components/DoubleEntryShowcase.tsx:170-173 | an empty side adds 0, a side without digits makes the total NaN, otherwise the amounts add |
| `DoubleEntryShowcase.EveryTabHasData` | src/components/DoubleEntryShowcase.tsx:7-16 | every tab, the initial one included, has a record, and there are no others |
| `DoubleEntryShowcase.EveryLineOneSided` | src/components/DoubleEntryShowcase.tsx:26-82 | every sample line has exactly one side filled in |
| `DoubleEntryShowcase.ShowcaseDataLines` | src/components/DoubleEntryShowcase.tsx:16-84 | the record of each tab holds that tab's sample lines |
| `DoubleEntryShowcase.SalesBalances` | src/components/DoubleEntryShowcase.tsx:26-30 | the sales journal: debits and credits both total 11800 |
| `DoubleEntryShowcase.PurchasesBalance` | src/components/DoubleEntryShowcase.tsx:41-47 | the purchase journal: debits and credits both total 5900 |
| `DoubleEntryShowcase.PayrollBalances` | src/components/DoubleEntryShowcase.tsx:58-66 | the payroll journal: debits and credits both total 56125 |
| `DoubleEntryShowcase.ComplianceBalances` | src/components/DoubleEntryShowcase.tsx:77-82 | the compliance journal: debits and credits both total 100000 |
| `Testimonials.NextIndex` | src/components/Testimonials.tsx:27-29 | `(i + 1) % n` stays in range, steps forward and wraps from the last to 0 |
| `Testimonials.PrevIndex` | src/components/Testimonials.tsx:31-33 | `(i - 1 + n) % n` stays in range, steps back and wraps from 0 to the last |
| `Testimonials.PrevUndoesNext` | src/components/Testimonials.tsx:27-33 | the two arrows undo each other |
| `Testimonials.ForwardWithinLap` | src/components/Testimonials.tsx:28 | k ≤ n presses forward add up, wrapping once |
| `Testimonials.FullCycle` | src/components/Testimonials.tsx:28 | n presses forward return to the start |
| `Testimonials.ExactlyOneActive` | src/components/Testimonials.tsx:98-108 | with the index in range exactly one indicator, the one at the index, is highlighted |
| `Testimonials.Carousel.constructor` | src/components/Testimonials.tsx:7 | the carousel starts at 0 |
| `Testimonials.Carousel.Next` | src/components/Testimonials.tsx:27-29 | the right arrow moves to `NextIndex` and stays in range |
| `Testimonials.Carousel.Prev` | src/components/Testimonials.tsx:31-33 | the left arrow moves to `PrevIndex` and stays in range |
| `Testimonials.Carousel.Select` | src/components/Testimonials.tsx:101-104 | clicking indicator k makes k active and the only highlighted dot |
| `Testimonials.RoundTrip` | src/components/Testimonials.tsx:27-29 | three presses of the right arrow return to the same testimonial |

## Left out

- Network and database I/O: every Supabase call is a method of the in-memory `Database.Store`. A storage error is a parameter of the call (a boolean, or a set naming the failing type reads), not a real outcome.
- Asynchrony: React Query caching, mutation hooks, invalidation timing and `Promise.all` are left out. Operations run one at a time, so the lost update that concurrent per-entry balance calls could cause is not modelled.
- `Database.Store.UpdateAccountBalance`: always succeeds. The body of `update_account_balance` is not part of this model; it is assumed to add the amount to the balance. The code ignores the call's result, so a failed update would leave that balance unchanged without any error; the model does not cover that case.
- Floating point: money is an unbounded integer in minor units. `toFixed`, `toLocaleString` and float `===` comparisons are not modelled.
- Ids are numbers from a counter rather than generated uuids. Creation and update timestamps, entry ids and `parentId` are not modelled.
- `Text.Trim`: uses a fixed ASCII whitespace set (space, tab, newline, carriage return, vertical tab, form feed), not JavaScript's Unicode whitespace. The same set stands for `\S` in `Text.MatchesEmailPattern`.
- JavaScript string length counts UTF-16 units. The model counts characters.
- `Database.SortByDateDesc`: Postgres collation is approximated by code-point order on the text (`Text.LexLessEq`). Dates are ISO text. Headers with equal dates keep their table order.
- `Database.Store.SelectEntries`: `select('*').eq('transaction_id', …)` has no `order()`, so the database may return the rows in any order. The model returns them in table order, which is one such order. The positional claims rest on that choice: the transaction `createTransaction` returns echoes the payload's entries by position (`TransactionsService.CreateTransaction`, `TransactionsService.TransformInserted`), and a delete whose type reads fail lines those reads up with the rows in that order (`TransactionsService.PostThenReverseRestores`, `TransactionsService.CreateThenDeleteRestoresStore`). With no failed read, the balances after a delete do not depend on the order (`TransactionsService.ReverseEntriesOrderFree`).
- `Database.Store.SelectAccountsByCode`: orders by code in code-point order, not the database collation. It takes no fault of its own: its error is the `fails` parameter of `AccountsService.FetchAccounts`, which then never reaches the scan.
- `AccountForm.AccountFormState.SetInitialBalance`: takes an integer. The number input actually delivers a string through `handleChange`, and that string is not modelled.
- The entry editor's header fields (type, reference, date, description) and its `handleSubmit` are not modelled. Those fields are plain setters, and `handleSubmit` only logs and closes.
- `TransactionForm.EntryEditor.ChangeEntry`: requires an index inside the list, which is what the line items pass in. An out-of-range index is not modelled.
- Query keys: a filters object in a key is compared by value as one part. React Query's deep partial matching of objects is not modelled.
- Authentication and routing are not modelled: `signIn`, `signUp`, navigation, and the redirect on the profile page when no user is signed in. The disabled email input on the profile page is not modelled either.
- The profile page's `handleProfileUpdate` only shows a toast and is not modelled. Toasts elsewhere are not modelled.
- In the journal showcase, the titles, step lists and descriptions are display text and are not modelled. Amounts are parsed from text, as the code does, and `NaN` is `None`.
- In the testimonial carousel, the quote texts are not modelled. Only the authors and positions are kept, and only the count matters to the carousel.
