# Dhan Track, modelled in Dafny

Dhan Track is a personal budget tracker. The user records income and
expense transactions, each in a category. Expense categories can carry a
monthly budget. Recurring expenses (rent, subscriptions) can be marked as
paid for the month on view. Data lives in three tables of a hosted
database:
- `transactions`;
- `recurring_expenses`;
- `categories`.

This project models the core of the application:

- **`useSupabaseTransactions`** (`SupabaseTransactions`, with `Aggregation`).
  - It keeps the transactions list, the category list and the viewed period.
  - It writes each change to the tables.
  - It derives the visible transactions, the income/expense/balance totals, the expense breakdown by category, and the budget progress bars.
- **`useRecurringExpenses`** (`RecurringExpenses`). It loads recurring expenses with their paid state for the viewed month. It also creates, updates, deletes, duplicates and pays/unpays them. Paying one inserts a transaction and links it.
- **`useTransactions`** (`LocalTransactions`): the older in-memory hook with sample data.
- **The components**:
  - the month/year filter (`MonthYearFilter`);
  - the add/edit transaction dialogs (`AddTransactionForm`, `EditTransactionForm`);
  - the create/edit recurring expense dialogs (`CreateRecurringForm`, `EditRecurringForm`);
  - the balance adjustment dialog (`EditBalanceForm`);
  - the budget settings dialog (`BudgetSettingsForm`);
  - the recurring expenses list (`RecurringList`);
  - the CSV/PDF export (`Export`).

  The category lists these components show are in `CategoryLists`.

Shared modules:
- `Ledger`: entities, default categories, recurrence options, ISO dates.
- `Store`: table rows, and the outcome of a database write.
- `Seqs`, `Text`, `Wrappers`: generic sequence, text and option helpers.

How the model is built:
- **Hooks** are classes. Their React state becomes fields that their methods reassign. A `Tables` object stands for the database, as maps from row id to row.
- **A database call** is a parameter of the method: an `Insert` that assigns an id or is rejected, and a `Write` that succeeds or fails. Every error path is modelled as the source takes it, including writes that succeed only part-way.
- **Dialogs** are classes whose fields are the form state. Their validation is a function from the form to an optional payload.
- **JavaScript number parsing and formatting** are parameters. `parseFloat` is `parse: string -> Option<real>`, with `None` for NaN. Number-to-text is `numberText`, date display is `formatDate`, and the current date and `Date.now()` are `today` and `now`.

## Model

| member | source | states |
|---|---|---|
| Ledger.ResolveCategory | src/hooks/useSupabaseTransactions.ts:135 | a loaded row gets the category with its id when one is listed, otherwise the "Other" fallback and only when no category has that id |
| Ledger.DefaultCategoryIds | src/hooks/useSupabaseTransactions.ts:32-45 | twelve default categories with distinct ids, and the fallback `defaultCategories[11]` is "other"/"Other" |
| Ledger.DefaultCategoriesWithoutBudget | src/hooks/useSupabaseTransactions.ts:32-45 | exactly Salary, Freelance and Investment have no default budget |
| Ledger.DefaultBudgetsPositive | src/hooks/useSupabaseTransactions.ts:32-45 | every default budget is positive, so each budgeted default category enters budget progress |
| Ledger.RecurrenceOptionsComplete | src/hooks/useSupabaseTransactions.ts:47-53 | every recurrence value is offered exactly once |
| Ledger.RecurrenceCaptions | src/hooks/useSupabaseTransactions.ts:47-53 | each option's caption is its value with the first letter upper-cased |
| Ledger.IsoDateRoundTrip | src/hooks/useSupabaseTransactions.ts:164 | the `YYYY-MM-DD` text written for a date reads back as that date for years 0 to 9999 |
| Store.UpdateWhere | src/hooks/useSupabaseTransactions.ts:201-205 | an update filtered on `id` changes the row with that id and leaves every other row and the set of ids alone |
| Aggregation.FilterByPeriodContents | src/hooks/useSupabaseTransactions.ts:265-273 | "all time" shows every transaction; otherwise exactly those dated in the viewed month and year, with their multiplicities |
| Aggregation.FilterByPeriodKeepsOrder | src/hooks/useSupabaseTransactions.ts:265-273 | filtering keeps the list order |
| Aggregation.BalanceIsSignedSum | src/hooks/useSupabaseTransactions.ts:275-288 | the balance is the sum of incomes counted positive and expenses counted negative |
| Aggregation.TotalsCoverAll | src/hooks/useSupabaseTransactions.ts:275-288 | income plus expenses is the sum of all amounts: every transaction is counted once, on one side |
| Aggregation.TotalsNonNegative | src/hooks/useSupabaseTransactions.ts:275-288 | with non-negative amounts both totals are non-negative |
| Aggregation.PrependTotals | src/hooks/useTransactions.ts:66-91 | adding a transaction at the front moves its own side's total by its amount and the balance by its signed amount |
| Aggregation.GroupTallies | src/hooks/useSupabaseTransactions.ts:290-300 | the grouping reduce has one entry per category id that occurs, holding the sum of that category's amounts |
| Aggregation.GroupSum | src/hooks/useSupabaseTransactions.ts:290-300 | the group totals add up to the sum of the grouped amounts |
| Aggregation.AddToTallies | src/hooks/useSupabaseTransactions.ts:292-299 | one reduce step keeps the per-category tallies exact |
| Aggregation.ObjectValuesPermutes | src/hooks/useSupabaseTransactions.ts:302 | `Object.values` returns the object's entries, each once |
| Aggregation.ObjectValuesOrder | src/hooks/useSupabaseTransactions.ts:302 | `Object.values` lists array-index keys first, in ascending numeric order |
| Aggregation.ObjectValuesKeepsOthers | src/hooks/useSupabaseTransactions.ts:302 | `Object.values` keeps the other keys in insertion order |
| Aggregation.ExpensesByCategoryPermutes | src/hooks/useSupabaseTransactions.ts:290-303 | the breakdown holds the groups of the expense transactions, nothing more or less |
| Aggregation.ExpensesByCategoryDistinct | src/hooks/useSupabaseTransactions.ts:290-303 | no category appears twice in the breakdown |
| Aggregation.ExpensesByCategoryIds | src/hooks/useSupabaseTransactions.ts:290-303 | a category appears in the breakdown exactly when some expense is in it |
| Aggregation.ExpensesByCategoryTotals | src/hooks/useSupabaseTransactions.ts:290-303 | each entry's total is what was spent in its category |
| Aggregation.ExpensesByCategorySum | src/hooks/useSupabaseTransactions.ts:290-303 | the breakdown adds up to the expense total |
| Aggregation.ExpensesByCategoryOrder | src/hooks/useSupabaseTransactions.ts:302 | entries are in descending total; ties keep their `Object.values` order (the sort is stable) |
| Aggregation.StatusOf | src/hooks/useSupabaseTransactions.ts:308-319 | a bar's spent is the category's expense sum; its percentage is the share of the budget spent, `percentage × budget = 100 × min(spent, budget)`, so it is capped at 100 and reaches 100 exactly when spent reaches the budget; over budget means spent strictly exceeds it |
| Aggregation.Statuses | src/hooks/useSupabaseTransactions.ts:308-320 | one bar per budgeted category, in category order |
| Aggregation.RatioFacts | src/hooks/useSupabaseTransactions.ts:317-318 | the uncapped ratio is at least 100 exactly when spent is at least the budget, and times the budget it gives back 100 × spent |
| Aggregation.ShownKeepsAll | src/hooks/useSupabaseTransactions.ts:321 | the `spent > 0 or budget > 0` filter drops nothing, because every listed budget is positive |
| Aggregation.BudgetProgressEntries | src/hooks/useSupabaseTransactions.ts:305-323 | budget progress has exactly one bar for each category with a positive budget, and each bar is that category's status |
| Aggregation.BudgetProgressOrder | src/hooks/useSupabaseTransactions.ts:322 | bars are in descending percentage |
| Aggregation.WithoutContents | src/hooks/useSupabaseTransactions.ts:237 | deleting removes exactly the transactions with that id, keeping the rest with their multiplicities and order |
| Aggregation.BudgetExamples | src/hooks/useSupabaseTransactions.ts:305-323 | Food (budget 5000) shows 100% and over budget at 6000 spent, and 50% and within budget at 2500 |
| Aggregation.MarchFoodExample | src/hooks/useSupabaseTransactions.ts:265-323 | two March Food expenses of 2000 and 3500 make the March Food bar 5500 of 5000, at 100%, over budget |
| SupabaseTransactions.SavedMatchesReload | src/hooks/useSupabaseTransactions.ts:153-188 | the transaction put at the front of the list after an insert is what loading the inserted row gives |
| SupabaseTransactions.UpdateAgreement | src/hooks/useSupabaseTransactions.ts:193-218 | the truthy-field row update and the spread merge agree unless the patch holds amount 0 or an empty description; then the table keeps the old value while the list takes the new one |
| SupabaseTransactions.MergeWhere | src/hooks/useSupabaseTransactions.ts:213-218 | the merge applies to the transactions with that id and leaves the others in place |
| SupabaseTransactions.BudgetOrUndefined | src/hooks/useSupabaseTransactions.ts:258 | `budget \|\| undefined` turns no budget and a budget of 0 into no budget and keeps any other value |
| SupabaseTransactions.SeedThenLoad | src/hooks/useSupabaseTransactions.ts:81-96 | a seeded default category reads back as itself under its new id |
| SupabaseTransactions.WithBudget | src/hooks/useSupabaseTransactions.ts:256-261 | the budget change applies to the category with that id only |
| SupabaseTransactions.BudgetUpdateMatchesReload | src/hooks/useSupabaseTransactions.ts:241-261 | the in-memory budget change is what reloading the updated category row gives |
| SupabaseTransactions.BudgetClearedLeavesProgress | src/hooks/useSupabaseTransactions.ts:256-261 | clearing a budget, or setting it to 0, removes the category's progress bar |
| SupabaseTransactions.BudgetSetEntersProgress | src/hooks/useSupabaseTransactions.ts:256-261 | setting a positive budget gives the category a bar with that budget |
| SupabaseTransactions.TransactionsHook.constructor | src/hooks/useSupabaseTransactions.ts:55-63 | the hook starts with no transactions, the default categories and the current month in view |
| SupabaseTransactions.TransactionsHook.SetFilterPeriod | src/hooks/useSupabaseTransactions.ts:55-63 | changing the period changes only the period |
| SupabaseTransactions.TransactionsHook.AddTransaction | src/hooks/useSupabaseTransactions.ts:153-188 | without a user or on an insert error nothing changes; otherwise the row is stored under the new id and the saved transaction is put first |
| SupabaseTransactions.TransactionsHook.UpdateTransaction | src/hooks/useSupabaseTransactions.ts:190-220 | on success the row takes the truthy fields and the list merges the patch; on failure nothing changes |
| SupabaseTransactions.TransactionsHook.DeleteTransaction | src/hooks/useSupabaseTransactions.ts:222-239 | on success the row and the listed transactions with that id are gone; on failure nothing changes |
| SupabaseTransactions.TransactionsHook.UpdateCategoryBudget | src/hooks/useSupabaseTransactions.ts:241-263 | on success the row takes the raw budget and the list takes `budget \|\| undefined`; on failure nothing changes |
| RecurringExpenses.FromRow | src/hooks/useRecurringExpenses.ts:44-63 | a record is paid exactly when its row is paid for the viewed month (stored 1-based) and year; the link is kept only on a paid record |
| RecurringExpenses.PaidInOnePeriodOnly | src/hooks/useRecurringExpenses.ts:47-49 | a row reads as paid in at most one viewed period |
| RecurringExpenses.PeriodChangesOnlyPaidState | src/hooks/useRecurringExpenses.ts:44-63 | changing the viewed period changes only the paid state and the link |
| RecurringExpenses.CreatedMatchesReload | src/hooks/useRecurringExpenses.ts:71-107 | a new recurring expense is unpaid and unlinked, and equals what loading its row gives |
| RecurringExpenses.StampedPaidOnlyThen | src/hooks/useRecurringExpenses.ts:146-155 | a row stamped paid for a period reads as paid, with the new link, in that period only |
| RecurringExpenses.ClearedNeverPaid | src/hooks/useRecurringExpenses.ts:192-201 | a cleared row reads as unpaid and unlinked in every period |
| RecurringExpenses.StatusEditsMatchReload | src/hooks/useRecurringExpenses.ts:163-167 | the in-memory paid and unpaid edits equal what reloading the updated row gives |
| RecurringExpenses.PaymentDay | src/hooks/useRecurringExpenses.ts:120 | the payment day is `min(dueDay, 28)`: at most both, and equal to one of them |
| RecurringExpenses.PaymentDateIsIso | src/hooks/useRecurringExpenses.ts:119-123 | for a four-digit year the payment date text is the ISO date of day `min(dueDay, 28)` of the month, and reads back as it |
| RecurringExpenses.PaymentRow | src/hooks/useRecurringExpenses.ts:125-135 | the payment is an expense with the recurring expense's amount, category, description and recurrence, dated on the payment date |
| RecurringExpenses.Merged | src/hooks/useRecurringExpenses.ts:242-246 | an update never changes the id or the paid state of the record |
| RecurringExpenses.UpdateMatchesReload | src/hooks/useRecurringExpenses.ts:217-246 | the update leaves the paid columns alone, and unless it empties the description the merged record is what reloading gives |
| RecurringExpenses.MapWhereAt | src/hooks/useRecurringExpenses.ts:163-167 | the list edit applies to records with that id and keeps the others in place |
| RecurringExpenses.LookupIsFind | src/hooks/useRecurringExpenses.ts:116 | the record lookup is the first record with that id |
| RecurringExpenses.CopyOf | src/hooks/useRecurringExpenses.ts:280-292 | a duplicate copies amount, category, due day and recurrence, with " (Copy)" appended to the description |
| RecurringExpenses.AddKeepsWellFormed | src/hooks/useRecurringExpenses.ts:94-104 | adding and re-sorting keeps the list sorted by due day, one record per stored id, links only on paid records |
| RecurringExpenses.PayKeepsWellFormed | src/hooks/useRecurringExpenses.ts:163-167 | marking paid keeps that invariant |
| RecurringExpenses.UnpayKeepsWellFormed | src/hooks/useRecurringExpenses.ts:209-213 | marking unpaid keeps it |
| RecurringExpenses.UpdateKeepsWellFormed | src/hooks/useRecurringExpenses.ts:242-246 | an update with re-sort keeps it |
| RecurringExpenses.RemoveKeepsWellFormed | src/hooks/useRecurringExpenses.ts:276 | deleting keeps it against the table without that row |
| RecurringExpenses.UpdateKeepsTieOrder | src/hooks/useRecurringExpenses.ts:242-246 | the re-sort keeps records with equal due days in their previous order |
| RecurringExpenses.LookupAfterMap | src/hooks/useRecurringExpenses.ts:163-167 | after an edit that keeps ids, the lookup finds the edited record |
| RecurringExpenses.RecurringExpensesHook.constructor | src/hooks/useRecurringExpenses.ts:20-23 | the hook starts with an empty list |
| RecurringExpenses.RecurringExpensesHook.Add | src/hooks/useRecurringExpenses.ts:71-107 | on an insert the unpaid row is stored and the record added in due-day order; otherwise nothing changes |
| RecurringExpenses.RecurringExpensesHook.MarkAsPaid | src/hooks/useRecurringExpenses.ts:109-170 | with no user, an unknown id or a failed insert nothing changes; an insert adds the payment transaction; only a successful stamp marks row and record paid, and returns the new id |
| RecurringExpenses.RecurringExpensesHook.MarkAsUnpaid | src/hooks/useRecurringExpenses.ts:172-215 | with no link or a failed delete nothing changes; a delete removes the linked transaction; only a successful clear marks row and record unpaid |
| RecurringExpenses.RecurringExpensesHook.Update | src/hooks/useRecurringExpenses.ts:217-248 | on success the row takes the patch and the list the merge, re-sorted by due day |
| RecurringExpenses.RecurringExpensesHook.Delete | src/hooks/useRecurringExpenses.ts:250-278 | the linked transaction is deleted when that write succeeds; the row and record are removed only when the row delete succeeds |
| RecurringExpenses.RecurringExpensesHook.Duplicate | src/hooks/useRecurringExpenses.ts:280-293 | a duplicate of a listed record is added as a new unpaid expense |
| RecurringExpenses.UnpaidAfterPaid | src/hooks/useRecurringExpenses.ts:163-167 | unpaying right after paying leaves the list as unpaying alone would |
| RecurringExpenses.PayThenUnpay | src/hooks/useRecurringExpenses.ts:109-215 | paying then unpaying, every write succeeding, restores the transactions table and leaves the record unpaid |
| LocalTransactions.LocalTransactionsHook.constructor | src/hooks/useTransactions.ts:64 | the hook starts with the sample transactions |
| LocalTransactions.LocalTransactionsHook.AddTransaction | src/hooks/useTransactions.ts:66-72 | the new transaction, with the clock reading as its id, goes first, and the balance moves by its signed amount |
| LocalTransactions.LocalTransactionsHook.DeleteTransaction | src/hooks/useTransactions.ts:74-76 | exactly the transactions with that id are removed |
| LocalTransactions.LocalCategoryIds | src/types/transaction.ts:19-32 | the local category ids are "1" to "12", in order |
| LocalTransactions.InitialTotals | src/hooks/useTransactions.ts:4-61 | the sample data totals 5350 income, 349.5 expenses, balance 5000.5 |
| MonthYearFilter.PrevMonth | src/components/MonthYearFilter.tsx:32-40 | the previous arrow moves exactly one month back, wrapping January to December of the year before |
| MonthYearFilter.NextMonth | src/components/MonthYearFilter.tsx:42-50 | the next arrow moves exactly one month forward, wrapping December to January of the year after |
| MonthYearFilter.Click | src/components/MonthYearFilter.tsx:16-30 | a click changes the period exactly when the control is on screen |
| MonthYearFilter.NextMonthCases | src/components/MonthYearFilter.tsx:42-50 | the next month within a year, and January of the next year from December |
| MonthYearFilter.PrevMonthCases | src/components/MonthYearFilter.tsx:32-40 | the previous month within a year, and December of the previous year from January |
| MonthYearFilter.StepsAreInverse | src/components/MonthYearFilter.tsx:32-50 | previous after next, and next after previous, return to the same month |
| MonthYearFilter.ForwardMoves | src/components/MonthYearFilter.tsx:42-50 | k clicks forward move k months; twelve clicks reach the same month a year later |
| MonthYearFilter.YearChangesOnlyOnWrap | src/components/MonthYearFilter.tsx:32-50 | the year changes only when the step wraps |
| MonthYearFilter.AllTimeRoundTrip | src/components/MonthYearFilter.tsx:52-54 | the label switches to all time; all time offers only its button, which returns to the current month |
| CategoryLists.IncomeCategories | src/components/AddTransactionModal.tsx:43-45 | the income list is the categories named Salary, Freelance, Gift, Investment or Other |
| CategoryLists.ExpenseCategories | src/components/AddTransactionModal.tsx:46-48 | the expense list is every category not named Salary, Freelance or Investment |
| CategoryLists.ListMembership | src/components/AddTransactionModal.tsx:43-48 | Gift and Other are in both lists, the three income-only names only in the income list, and every category is in at least one |
| CategoryLists.ListsKeepOrder | src/components/AddTransactionModal.tsx:43-48 | both lists keep category order |
| CategoryLists.LocalLists | src/components/AddTransactionModal.tsx:15-18 | for the local categories the income list starts with Salary and the expense list with Food |
| CategoryLists.DefaultExpenseList | src/components/BudgetSettingsModal.tsx:30-32 | among the default categories the expense list is exactly those with a budget |
| AddTransactionForm.Validated | src/components/AddTransactionModal.tsx:20-33 | a transaction is added exactly when the amount parses to a positive number and the description is not blank; it carries the trimmed description, the chosen kind and category, and today's date |
| AddTransactionForm.AddTransactionModal.constructor | src/components/AddTransactionModal.tsx:15-18 | the form starts blank: expense, empty fields, the first expense category |
| AddTransactionForm.AddTransactionModal.ChooseExpense | src/components/AddTransactionModal.tsx:63-66 | switching to expense selects the first expense category and keeps the typed fields |
| AddTransactionForm.AddTransactionModal.ChooseIncome | src/components/AddTransactionModal.tsx:77-80 | switching to income selects the first income category and keeps the typed fields |
| AddTransactionForm.AddTransactionModal.Submit | src/components/AddTransactionModal.tsx:20-41 | submit adds the validated transaction and resets the form; an invalid form stays as it was |
| EditTransactionForm.Years | src/components/EditTransactionModal.tsx:22-23 | the year choices are the five years around the current one, ascending |
| EditTransactionForm.Validated | src/components/EditTransactionModal.tsx:46-63 | an update is sent exactly when a transaction and a category are set, the amount is positive and the description not blank; it is dated on the 15th of the chosen month |
| EditTransactionForm.EditAgreesWithStore | src/components/EditTransactionModal.tsx:46-63 | a valid edit is written to the table exactly as merged into the list |
| EditTransactionForm.KeepIfListed | src/components/EditTransactionModal.tsx:88-93 | switching kind keeps the category when the new list has its id; otherwise it takes the list's first entry, none on an empty list; no selection stays none |
| CategoryLists.FirstOf | src/components/EditTransactionModal.tsx:91 | `list[0]`: the first entry, and none exactly on an empty list |
| EditTransactionForm.EditTransactionModal.constructor | src/components/EditTransactionModal.tsx:26-32 | the form starts as an empty expense in January of the current year |
| EditTransactionForm.EditTransactionModal.Open | src/components/EditTransactionModal.tsx:34-44 | opening on a transaction copies its fields into the form; without one nothing changes |
| EditTransactionForm.EditTransactionModal.ChooseExpense | src/components/EditTransactionModal.tsx:88-93 | switching to expense keeps a listed category and the other fields |
| EditTransactionForm.EditTransactionModal.ChooseIncome | src/components/EditTransactionModal.tsx:104-109 | switching to income keeps a listed category and the other fields |
| EditTransactionForm.OpenThenSubmit | src/components/EditTransactionModal.tsx:34-63 | saving an unchanged form only trims the description and moves the date to the 15th |
| CreateRecurringForm.RecurrenceChoicesAreShared | src/components/CreateRecurringExpenseModal.tsx:22-27 | the dialog offers the hook's recurrence options without one-time |
| CreateRecurringForm.RecurrenceChoicesRepeat | src/components/CreateRecurringExpenseModal.tsx:22-27 | every repeating recurrence is offered and one-time is not |
| CreateRecurringForm.DueDayOptionsRange | src/components/CreateRecurringExpenseModal.tsx:127 | the due-day choices are "1" to "31" and read back as 1 to 31 |
| CreateRecurringForm.Validated | src/components/CreateRecurringExpenseModal.tsx:46-58 | an expense is created exactly when description and amount are non-empty and the chosen id names a category; it takes the first such category |
| CreateRecurringForm.EnabledButton | src/components/CreateRecurringExpenseModal.tsx:164 | an enabled button submits exactly when the category id is listed, and a submit implies the button was enabled |
| CreateRecurringForm.ToDraft | src/components/CreateRecurringExpenseModal.tsx:50-57 | the payload reaches the hook unchanged whenever amount and due day are numbers |
| CreateRecurringForm.CreateRecurringExpenseModal.constructor | src/components/CreateRecurringExpenseModal.tsx:35-39 | the form starts blank, monthly on day 1 |
| CreateRecurringForm.CreateRecurringExpenseModal.Selectable | src/components/CreateRecurringExpenseModal.tsx:42-44 | the category list leaves out the income-only names |
| CreateRecurringForm.CreateRecurringExpenseModal.Submit | src/components/CreateRecurringExpenseModal.tsx:46-67 | submit sends the validated payload and resets the form; an invalid form stays as it was |
| CreateRecurringForm.ChosenDueDay | src/components/CreateRecurringExpenseModal.tsx:127 | a due day picked from the list is 1 to 31 and its payment day 1 to 28 |
| EditRecurringForm.RecurringOptions | src/components/EditRecurringExpenseModal.tsx:59 | the options are the hook's options other than one-time |
| EditRecurringForm.RecurringOptionsOrder | src/components/EditRecurringExpenseModal.tsx:59 | they match the create dialog's in the same order |
| EditRecurringForm.Validated | src/components/EditRecurringExpenseModal.tsx:41-56 | an update is sent exactly when an expense is open and the id names a category |
| EditRecurringForm.PatchOf | src/components/EditRecurringExpenseModal.tsx:44-53 | every field of the form is sent when amount and due day are numbers |
| EditRecurringForm.EditRecurringExpenseModal.constructor | src/components/EditRecurringExpenseModal.tsx:25-29 | the form starts empty, monthly on day 1 |
| EditRecurringForm.EditRecurringExpenseModal.Open | src/components/EditRecurringExpenseModal.tsx:31-39 | opening copies the expense's fields into the form |
| EditRecurringForm.OpenThenSave | src/components/EditRecurringExpenseModal.tsx:31-56 | saving an unchanged form leaves the record as it was |
| EditRecurringForm.SaveKeepsPaidState | src/components/EditRecurringExpenseModal.tsx:41-56 | an edit keeps the id and the paid state and takes the new description and category |
| EditBalanceForm.Difference | src/components/EditBalanceModal.tsx:40-41 | the difference exists exactly for a parsable balance, and the current balance plus it is the new one |
| EditBalanceForm.Abs | src/components/EditBalanceModal.tsx:80 | the preview amount is non-negative and equal to the difference up to sign |
| EditBalanceForm.PreviewOf | src/components/EditBalanceModal.tsx:68-80 | a preview shows exactly for a valid balance that differs from the current one; it is income exactly when the balance rises, and applying it reaches the new balance |
| EditBalanceForm.EnabledIffPreviewed | src/components/EditBalanceModal.tsx:68-92 | the update button is enabled exactly when a preview is shown |
| EditBalanceForm.EditBalanceModal.constructor | src/components/EditBalanceModal.tsx:20 | the field starts empty |
| EditBalanceForm.EditBalanceModal.Open | src/components/EditBalanceModal.tsx:22-26 | opening fills in the current balance |
| EditBalanceForm.EditBalanceModal.Submit | src/components/EditBalanceModal.tsx:28-34 | submit reports the parsed balance exactly when it is a number |
| EditBalanceForm.OpenedShowsNoChange | src/components/EditBalanceModal.tsx:22-26 | a freshly opened dialog shows no difference, no preview and a disabled button |
| BudgetSettingsForm.BudgetText | src/components/BudgetSettingsModal.tsx:18 | a budget shows as its number, no budget as an empty field |
| BudgetSettingsForm.InitialBudgetsKeys | src/components/BudgetSettingsModal.tsx:15-21 | the fields have one key per category id |
| BudgetSettingsForm.InitialBudgetsEntry | src/components/BudgetSettingsModal.tsx:15-21 | each category's field holds its budget text, the last duplicate id winning |
| BudgetSettingsForm.SaveValue | src/components/BudgetSettingsModal.tsx:23-27 | an empty or missing field saves null; a number saves that number; other text saves NaN |
| BudgetSettingsForm.HookBudget | src/hooks/useSupabaseTransactions.ts:258 | null, NaN and 0 become no budget in the list; any other number is kept |
| BudgetSettingsForm.BudgetSettingsModal.constructor | src/components/BudgetSettingsModal.tsx:15-21 | the fields start with every category's budget text |
| BudgetSettingsForm.BudgetSettingsModal.Listed | src/components/BudgetSettingsModal.tsx:30-32 | the list leaves out the income-only names |
| BudgetSettingsForm.BudgetSettingsModal.Edit | src/components/BudgetSettingsModal.tsx:59 | typing changes that category's field only |
| BudgetSettingsForm.BudgetSettingsModal.Save | src/components/BudgetSettingsModal.tsx:23-27 | save sends the field's value, null exactly when the field shows empty |
| BudgetSettingsForm.SaveUnchanged | src/components/BudgetSettingsModal.tsx:15-27 | saving an untouched field sends back the stored budget |
| RecurringList.PaidCount | src/components/RecurringExpensesList.tsx:59 | the paid count is at most the list length, and 0 exactly when nothing is paid |
| RecurringList.UnpaidCountCountsUnpaid | src/components/RecurringExpensesList.tsx:59-60 | the unpaid count is the number of unpaid records, and the two counts add to the list length |
| RecurringList.HandleTogglePaid | src/components/RecurringExpensesList.tsx:62-68 | the switch calls mark-as-unpaid exactly for a paid record, always with the record's id |
| RecurringList.ToggleAlternates | src/components/RecurringExpensesList.tsx:62-68 | after paying the switch unpays, after unpaying it pays |
| RecurringList.MonthName | src/components/RecurringExpensesList.tsx:36-39 | months 0 to 11 give "Jan" to "Dec", any other value "undefined", and no name holds a space |
| RecurringList.DueDateParts | src/components/RecurringExpensesList.tsx:55-57 | the due date text splits into day, month name and year, and day and year read back |
| RecurringList.StatusLabel | src/components/RecurringExpensesList.tsx:151 | the badge says "Paid" exactly for a paid record |
| RecurringList.DeleteWarning | src/components/RecurringExpensesList.tsx:180-181 | the delete prompt warns about the linked transaction exactly for a paid record |
| RecurringList.RecurrenceLabelIsCapitalized | src/components/RecurringExpensesList.tsx:29-34 | the recurrence label is the capitalized value, and the raw value for one-time |
| Export.Quoted | src/components/ExportButton.tsx:36 | the description is wrapped in double quotes, unchanged inside |
| Export.CsvFields | src/components/ExportButton.tsx:32-39 | a row has one field per header |
| Export.CsvContent | src/components/ExportButton.tsx:25-44 | there is CSV content exactly when there are transactions |
| Export.CsvRows | src/components/ExportButton.tsx:32-43 | one row per transaction, in order |
| Export.KindField | src/components/ExportButton.tsx:34 | the type column reads "Income" or "Expense" |
| Export.RowFields | src/components/ExportButton.tsx:32-43 | without commas in the fields a row splits back into the six fields: type label, quoted description, signed amount |
| Export.CommaInDescription | src/components/ExportButton.tsx:36-43 | a description with a comma splits into seven pieces on ',' |
| Export.HeaderLine | src/components/ExportButton.tsx:31-42 | the header line splits back into the six headers |
| Export.CsvLines | src/components/ExportButton.tsx:31-44 | without line feeds in the fields the file has a header line and one line per transaction, in order |
| Export.PdfSummary | src/components/ExportButton.tsx:57-63 | the PDF summary exists exactly for a non-empty list; the net balance is income minus expenses, the signed sum of the amounts |
| Export.CsvAmountsSumToNet | src/components/ExportButton.tsx:37-103 | the CSV amount column adds up to the PDF's net balance |

## Left out

- Authentication, toasts, loading flags and console logging are left out. A missing user is the `signedIn` flag, and every operation then does nothing.
- Loading is left out: the hooks' fetches, the `categories` seeding effect (useSupabaseTransactions.ts:66-116) and the recurring-expense load (useRecurringExpenses.ts:26-69). Their row mappings (`FromRow`, `CategoryFromRow`, `SeedRow`) are modelled, and the writes are proved to agree with a reload.
- Row filtering by `user_id` is left out; each user's rows are taken as the whole table.
- Time zones are left out. `new Date(...)` and `toISOString` are taken to agree on the calendar date, and the current date is a parameter.
- `parseFloat`, number-to-text, `toLocaleDateString` and `formatCurrency` are parameters, not JavaScript's algorithms. `parseInt` of the due day is decimal text only, without leading spaces or trailing characters.
- Amounts are exact reals; floating-point rounding is not modelled.
- Strings held in the source as recurrence or kind values are datatypes, so a row with an unknown value cannot occur.
- LocalTransactions.LocalTransactionsHook: its transactions have no recurrence in the source; the model gives them one-time.
- Export: the download (Blob, link, file name with today's date) and the PDF's HTML template and print window are left out. Only the CSV text and the PDF totals are modelled.
- Export.CsvLines: double quotes inside a description are not escaped, and lines end in LF rather than CRLF, so the file is not RFC 4180 CSV. The model states the line structure, not a CSV reader's view.
- Patch: the update type of `updateRecurringExpense` (useRecurringExpenses.ts:219) also admits `paidForMonth` and `paidForYear`; no caller sends them, so the model's patch leaves them out.
- Dialog open/close callbacks (`onOpenChange`), the icons and the styling are left out.
- CreateRecurringForm.ToDraft and EditRecurringForm.PatchOf: an amount or due day that parses to NaN is sent on by the source; the model sends nothing then, because a NaN amount is not a number it can hold.
- EditBalanceForm.EditBalanceModal.Submit: the adjustment transaction is made by the caller (`onAdjust`), which is not part of this model.
- `Object.values` ordering is modelled for the keys that occur (database ids and "1" to "12"). Integer-like keys too large to be array indices are treated as other keys.
