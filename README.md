# Expense tracker: hooks, settings and forms

A Dafny model of the logic of a React Native expense tracker that is backed
by a hosted database. The model covers:

- **`useExpenses`**: the signed-in user's expenses, with the `loading`,
  `adding` and `error` flags. Fetch, add, update and delete each change the
  local list after the backend call.
- **`useExpenseCards`**: the user's expense cards, which are reusable
  templates with a favourite flag. Fetch, add (then refetch), toggle the
  favourite, edit and delete.
- **`useAnalytics`**: spending totals by category (largest first), totals by
  month (in `YYYY-MM` key order), the five largest categories, the grand
  total and the average expense per category.
- **`SettingsContext`**: currency, language, dark mode, the list of account
  names and a budget per category. Each has a default. Loading reads the
  stored values, and each update changes one setting.
- **The four forms**: the "Add Expense Card", "Edit Expense Card" and
  "Add New Expense" dialogs, and the plain expense form. Each has a
  keystroke filter on the amount, validation on submit, the payload it hands
  on and what it resets.

Each hook and form is a `class` whose fields are the component's state
variables. Its methods are the handlers, and each method's `ensures` gives
the whole new state. The list changes the hooks make (`map`, `filter`, the
spread of an edit, the object of budgets) are functions, and lemmas relate
them.

The analytics are functions:

- A JavaScript object built by `reduce` is an ordered list of entries.
- `Array.prototype.sort` is a stable insertion sort. It is proved sorted and
  a permutation.
- Each result is proved against a reference definition: a per-key sum over
  the expense list.

Modelling choices:

- **Numbers.** Amounts are exact `real`s. `parseFloat` is modelled: it skips
  leading white space, reads an optional sign, digits, a fraction and an
  exponent, and ignores the rest. It returns `None` for NaN.
- **Remote calls.** Every backend call and the current-user lookup is a
  parameter. The parameter is an `Outcome` (`Ok(value)` or `Failed(thrown)`)
  or a `Session` (`SignedIn(userId)`, `SignedOut` or `AuthFailed(message)`).
  `ErrorMessage` picks what the hooks store for a thrown value:
  `err instanceof Error ? err : new Error(fallback)`.
- **Form submits.** A form's `onSubmit` call is the value its `HandleSubmit`
  returns.

## Model

| member | source | states |
|---|---|---|
| Lists.Map | src/hooks/useExpenseCards.ts:44-53 | `map` gives one result per element, in order: the function applied to it |
| Lists.Filter | src/hooks/useExpenseCards.ts:135 | `filter` keeps every accepted element exactly as often as it occurs and drops every rejected one |
| Lists.FilterAppend | src/hooks/useExpenseCards.ts:135 | filtering keeps order: filtering a concatenation concatenates the filtered parts |
| Lists.FilterKeepsAll | src/hooks/useExpenses.ts:127 | a filter that accepts every element returns the list unchanged |
| Lists.FilterAfterMap | src/hooks/useExpenseCards.ts:108-114 | a map that keeps rejected elements rejected and accepted ones unchanged, followed by a filter, equals the filter alone |
| Text.TrimStartFacts | src/components/expenses/AddExpenseCardModal.tsx:52 | skipping leading white space (as `parseFloat` does) removes exactly a blank prefix and stops at a non-space character |
| Text.TrimEnd | src/components/expenses/AddExpenseCardModal.tsx:62 | the trailing white space is removed: the result is a prefix, the rest is blank, and the result ends with a non-space |
| Text.Trim | src/components/expenses/AddExpenseCardModal.tsx:62 | `trim()` gives the slice of the text with only white space outside it and none at its ends |
| Text.TrimEmptyIffBlank | src/components/expenses/AddExpenseCardModal.tsx:57 | `!name.trim()` holds exactly when the name is all white space |
| Text.TrimIdempotent | src/components/expenses/AddExpenseCardModal.tsx:62 | trimming twice is trimming once |
| Text.NonEmpty | src/components/expenses/AddExpenseCardModal.tsx:64 | `s \|\| undefined` is absent exactly for the empty string and is the string otherwise |
| Text.LessIrreflexive | src/hooks/useAnalytics.ts:76 | no key sorts before itself |
| Text.LessTransitive | src/hooks/useAnalytics.ts:76 | the key order is transitive |
| Text.LessTotal | src/hooks/useAnalytics.ts:76 | of two different keys, one sorts before the other |
| Numbers.DecimalText | src/hooks/useAnalytics.ts:63 | `String(n)` for `n` below 10^21 is a non-empty string of digits with no leading zero |
| Numbers.IntText | src/hooks/useAnalytics.ts:63 | `String(year)` starts with `-` exactly for a negative year, and what follows the sign is the digits of the year's absolute value |
| Numbers.DecimalTextValue | src/hooks/useAnalytics.ts:63 | the digits `String(n)` writes for `n` below 10^21 denote `n` |
| Numbers.DecimalTextInjective | src/hooks/useAnalytics.ts:63 | different numbers give different texts |
| Numbers.IntTextInjective | src/hooks/useAnalytics.ts:63 | different years give different texts |
| Numbers.ParseFloat | src/components/expenses/AddExpenseCardModal.tsx:52 | `parseFloat`: no ensures of its own; what it reads is stated by `ParseDigits`, `ParseDigitsPoint`, `ParseDecimalText` and `AmountInput.NumericParse` |
| Numbers.LeadingDigits | src/components/expenses/AddExpenseCardModal.tsx:52 | `parseFloat` reads the longest digit prefix |
| Numbers.DecimalValue | src/components/expenses/AddExpenseCardModal.tsx:52 | a read decimal is never negative, and is positive exactly when one of its parts is |
| Numbers.ParseDigits | src/components/expenses/AddExpenseCardModal.tsx:52 | `parseFloat` reads a text of digits as the number they denote, and an empty text as NaN |
| Numbers.ParseDigitsPoint | src/components/expenses/AddExpenseCardModal.tsx:52 | `parseFloat` reads digits, a point and digits as the decimal they denote, and a lone point as NaN |
| Numbers.ParseDecimalText | src/components/expenses/EditExpenseCardModal.tsx:65 | `parseFloat(String(n))` gives `n` back for a natural number below 10^21 |
| AmountInput.KeepNumeric | src/components/expenses/AddExpenseCardModal.tsx:35 | `replace(/[^0-9.]/g, '')` leaves only digits and points, and never lengthens the text |
| AmountInput.KeepNumericAppend | src/components/expenses/AddExpenseCardModal.tsx:35 | the filter works character by character and keeps order |
| AmountInput.KeepNumericIdentity | src/components/expenses/AddExpenseCardModal.tsx:35 | text made only of digits and points passes unchanged |
| AmountInput.KeepNumericIdempotent | src/components/expenses/AddExpenseCardModal.tsx:35 | filtering twice is filtering once |
| AmountInput.KeepNumericCount | src/components/expenses/AddExpenseCardModal.tsx:35 | no digit or point is dropped |
| AmountInput.Split | src/components/expenses/AddExpenseCardModal.tsx:36 | `split('.')` gives one piece more than there are points, and no piece holds a point |
| AmountInput.JoinSplit | src/components/expenses/AddExpenseCardModal.tsx:36 | joining the pieces of a split gives the text back |
| AmountInput.SanitizeAmount | src/components/expenses/AddExpenseCardModal.tsx:33-39 | a keystroke is kept exactly when it holds at most one point, and is then the filtered text |
| AmountInput.PositiveAmount | src/components/expenses/AddExpenseCardModal.tsx:52-56 | the submit test passes exactly when `parseFloat` gives a number above zero, and yields that number |
| AmountInput.NumericShape | src/components/expenses/AddExpenseCardModal.tsx:41 | a filtered amount is digits, or digits, a point and digits, and `parseFloat` reads all of it |
| AmountInput.NumericParse | src/components/expenses/AddExpenseCardModal.tsx:41 | a filtered amount reads as a number exactly when it holds a digit; that number is never negative, and is positive exactly when a digit is not zero |
| AmountInput.AmountErrorFor | src/components/expenses/AddExpenseCardModal.tsx:41-45 | the keystroke error: no ensures of its own; `AmountErrorOnlyForLonePoint` states when it shows |
| AmountInput.AmountErrorOnlyForLonePoint | src/components/expenses/AddExpenseCardModal.tsx:41-45 | after an accepted keystroke, the "valid number" error shows exactly when the field is a lone `.` |
| Tallies.Bump | src/hooks/useAnalytics.ts:33 | `acc[k] = (acc[k] \|\| 0) + w` adds `w` under `k` only, adds the key if it is new, and keeps keys distinct |
| Tallies.ValueAtMember | src/hooks/useAnalytics.ts:33 | with distinct keys, every entry holds the value read under its key |
| Tallies.ValueAtAbsent | src/hooks/useAnalytics.ts:33 | a key with no entry reads as 0 |
| Tallies.OrderIsStrict | src/hooks/useAnalytics.ts:42 | both comparators give a strict order: irreflexive and transitive |
| Tallies.Insert | src/hooks/useAnalytics.ts:42 | inserting adds exactly one entry and keeps keys and totals |
| Tallies.InsertSorted | src/hooks/useAnalytics.ts:42 | inserting into a sorted list keeps it sorted |
| Tallies.Sort | src/hooks/useAnalytics.ts:42 | sorting permutes the entries: same multiset, keys and sum, keys stay distinct |
| Tallies.SortSorted | src/hooks/useAnalytics.ts:42 | the sorted entries are in comparator order |
| Tallies.SortKeepsMembers | src/hooks/useAnalytics.ts:76 | the sort keeps exactly the entries it is given |
| Analytics.CategoryOf | src/hooks/useAnalytics.ts:32 | `expense.category \|\| 'Uncategorized'` is never empty, and is the expense's own category when it has one |
| Analytics.Tally | src/hooks/useAnalytics.ts:29-35 | the `reduce` into `{}`: no ensures of its own; `TallyMeaning` states its keys and sums |
| Analytics.TallyMeaning | src/hooks/useAnalytics.ts:29-35 | the `reduce` builds one entry per key some expense has, each holding the sum of those expenses' weights |
| Analytics.SortedTally | src/hooks/useAnalytics.ts:37-42 | the sorted entries of the dictionary have the same meaning and are in order |
| Analytics.CategoryData | src/hooks/useAnalytics.ts:23-47 | `categoryData` has one point per category (a missing category counts as "Uncategorized"), holding the category's total, largest first; empty for no expenses |
| Analytics.TotalSpending | src/hooks/useAnalytics.ts:112-126 | `totalSpending` is 0 for no expenses |
| Analytics.CategoryDataConservesTotal | src/hooks/useAnalytics.ts:112-126 | the category totals add up to the total spending |
| Analytics.TopCategories | src/hooks/useAnalytics.ts:84-109 | `topCategories` keeps the min(5, #categories) largest categories, largest first, with their totals; no category left out is larger than one kept |
| Analytics.TopPrefixFacts | src/hooks/useAnalytics.ts:103-104 | `slice(0, n)` of a list sorted largest first has distinct keys, and no key left out holds more than an entry kept |
| Analytics.LeftOutNotLarger | src/hooks/useAnalytics.ts:103-104 | in a list sorted largest first, an entry past the first `n` is no larger than any of the first `n` |
| Analytics.Find | src/hooks/useAnalytics.ts:144 | `find` gives an entry exactly when the key is present; that entry has the key, and no entry before it does |
| Analytics.AveragesOf | src/hooks/useAnalytics.ts:143-149 | one average per counted category, in count order: the category's point divided by its count, or 0 |
| Analytics.CountsAreCounts | src/hooks/useAnalytics.ts:135-141 | the count dictionary holds the number of expenses per category |
| Analytics.CountPositive | src/hooks/useAnalytics.ts:147 | every counted category has a count above zero, so the division is always taken |
| Analytics.AverageSpendingPerCategory | src/hooks/useAnalytics.ts:129-154 | one element per category, with no duplicates, whose average is the category's total divided by the number of its expenses |
| Analytics.PadTwo | src/hooks/useAnalytics.ts:63 | `padStart(2, '0')` keeps a text of two or more characters as it is, and puts `0`s in front of a shorter one until it has two |
| Analytics.MonthKey | src/hooks/useAnalytics.ts:63 | the `YYYY-MM` key: no ensures of its own; `MonthKeyShape` and `MonthKeyInjective` state its form and that it tells months apart |
| Analytics.DatedKey | src/hooks/useAnalytics.ts:57-63 | the month key of a dated expense: no ensures of its own; `UndatedExpenseSkipped` and `MonthlyData` state what it does to the monthly totals |
| Analytics.MonthKeyShape | src/hooks/useAnalytics.ts:63 | a month key is the year, a dash and the month number 1 to 12 in two digits |
| Analytics.MonthKeyInjective | src/hooks/useAnalytics.ts:63 | different months have different keys |
| Analytics.MonthlyData | src/hooks/useAnalytics.ts:50-81 | `monthlyData` has one point per month with a dated expense, holding the month's total, in strictly increasing key order; empty for no expenses |
| Analytics.StrictlyAscending | src/hooks/useAnalytics.ts:76 | distinct keys sorted ascending are strictly increasing |
| Analytics.UndatedExpenseSkipped | src/hooks/useAnalytics.ts:57-61 | an expense with no date or an unreadable date leaves the monthly data unchanged, whatever came before it (none included) |
| Analytics.EmptyExpenses | src/hooks/useAnalytics.ts:24-26 | no expenses give empty analytics and a zero total |
| Remote.ErrorMessage | src/hooks/useExpenses.ts:49 | `err instanceof Error ? err : new Error(fallback)`: no ensures of its own; the hook methods' rows state which message each failure stores |
| ExpenseCards.CardsFromRows | src/hooks/useExpenseCards.ts:44-53 | the fetched rows become cards one for one, in order, with the same id, name, amount, category and favourite flag |
| ExpenseCards.WithFavorite | src/hooks/useExpenseCards.ts:108-114 | the cards with the id get the new flag; nothing else about any card changes |
| ExpenseCards.WithFavoriteIdempotent | src/hooks/useExpenseCards.ts:108-114 | applying the same toggle twice is applying it once |
| ExpenseCards.WithoutCard | src/hooks/useExpenseCards.ts:135 | a delete removes every card with the id and keeps every other card as often as it was there |
| ExpenseCards.WithoutCardKeepsOrder | src/hooks/useExpenseCards.ts:135 | the remaining cards keep their order |
| ExpenseCards.WithoutAbsentCard | src/hooks/useExpenseCards.ts:135 | deleting an id no card has changes nothing |
| ExpenseCards.DeleteAfterToggle | src/hooks/useExpenseCards.ts:121-140 | deleting a card after toggling it leaves what deleting alone leaves |
| ExpenseCards.Updated | src/hooks/useExpenseCards.ts:159 | `{ ...card, ...updates }`: no ensures of its own; `WithUpdates`, `EmptyEditChangesNothing` and `WithUpdatesIdempotent` state what it does |
| ExpenseCards.WithUpdates | src/hooks/useExpenseCards.ts:156-162 | `{...card, ...updates}` gives the matching card each supplied field and keeps its id and flag; other cards are unchanged |
| ExpenseCards.EmptyEditChangesNothing | src/hooks/useExpenseCards.ts:159 | an edit that supplies nothing changes nothing |
| ExpenseCards.WithUpdatesIdempotent | src/hooks/useExpenseCards.ts:156-162 | applying the same edit twice is applying it once |
| ExpenseCards.ExpenseCardsState.constructor | src/hooks/useExpenseCards.ts:20-23 | no cards, not loading, not adding, no error |
| ExpenseCards.ExpenseCardsState.FetchExpenseCards | src/hooks/useExpenseCards.ts:25-62 | on success the list is the mapped rows and the error is cleared; with no user or a failed query the list is kept and the error stored; never loading afterwards |
| ExpenseCards.ExpenseCardsState.AddExpenseCard | src/hooks/useExpenseCards.ts:64-92 | inserts, for a signed-in user only, the card as not a favourite; on insert failure the error is stored; on success the list is refetched, and a failed refetch keeps the list and stores "User not authenticated" or the fetch error; never adding afterwards |
| ExpenseCards.ExpenseCardsState.ToggleFavorite | src/hooks/useExpenseCards.ts:94-119 | after a successful update the cards with the id get `!currentFavorite`; otherwise nothing changes |
| ExpenseCards.ExpenseCardsState.DeleteExpenseCard | src/hooks/useExpenseCards.ts:121-140 | after a successful delete the cards with the id are gone; otherwise nothing changes |
| ExpenseCards.ExpenseCardsState.EditExpenseCard | src/hooks/useExpenseCards.ts:142-167 | after a successful update the edit is applied locally; otherwise nothing changes |
| Expenses.Replaced | src/hooks/useExpenses.ts:111 | the entries with the id become the returned row; the others are unchanged |
| Expenses.WithoutExpense | src/hooks/useExpenses.ts:127 | the entries with the id are removed; every other entry stays as often as it was there |
| Expenses.WithoutExpenseKeepsOrder | src/hooks/useExpenses.ts:127 | the remaining entries keep their order |
| Expenses.WithoutAbsentExpense | src/hooks/useExpenses.ts:127 | deleting an id no entry has changes nothing |
| Expenses.DeleteAfterUpdate | src/hooks/useExpenses.ts:101-132 | deleting an entry after an update that keeps its id leaves what deleting alone leaves |
| Expenses.ExpensesState.constructor | src/hooks/useExpenses.ts:7-10 | no expenses, loading, not adding, no error |
| Expenses.ExpensesState.FetchExpenses | src/hooks/useExpenses.ts:12-54 | with no user or a failed query the list is emptied and the error stored; on success the list is the data (or empty) and the error is kept; never loading afterwards |
| Expenses.ExpensesState.AddExpense | src/hooks/useExpenses.ts:56-99 | an insert `{...newExpense, user_id}` is sent exactly when a user is signed in; the inserted row goes to the front and is returned; an auth or insert failure keeps the list, stores the error and rethrows it; never adding afterwards |
| Expenses.ExpensesState.UpdateExpense | src/hooks/useExpenses.ts:101-117 | the fields are sent for the row with the id; on success the entries with the id are replaced by the returned row; on failure the list is kept and the error stored and rethrown |
| Expenses.ExpensesState.DeleteExpense | src/hooks/useExpenses.ts:119-132 | on success the entries with the id are removed; on failure the list is kept and the error stored and rethrown |
| Settings.DarkModeText | src/contexts/SettingsContext.tsx:63-66 | the stored dark-mode text is never empty and reads back (`=== 'true'`) as the value written |
| Settings.WithoutAccountAt | src/contexts/SettingsContext.tsx:74-78 | deleting by position removes the account at an index in range and keeps the order of the rest; an index out of range removes nothing |
| Settings.WithBudget | src/contexts/SettingsContext.tsx:80-87 | the category gets the amount; every other category keeps its budget or lack of one |
| Settings.WithoutBudget | src/contexts/SettingsContext.tsx:89-94 | the category loses its budget; every other category keeps its budget or lack of one |
| Settings.WithoutAbsentBudget | src/contexts/SettingsContext.tsx:89-94 | deleting a budget that is not there changes nothing |
| Settings.DeleteAfterAdd | src/contexts/SettingsContext.tsx:80-94 | deleting the budget just added gives the budgets without that category |
| Settings.SettingsState.constructor | src/contexts/SettingsContext.tsx:23-27 | defaults: USD, English, light mode, no accounts, no budgets |
| Settings.Present | src/contexts/SettingsContext.tsx:43-47 | `if (saved)`: no ensures of its own; `DarkModeText` and `LoadSettings` state which stored texts override a setting |
| Settings.SettingsState.LoadSettings | src/contexts/SettingsContext.tsx:35-51 | each non-empty stored value overrides its setting in turn; a storage failure changes nothing; unparsable accounts stop the budgets from loading |
| Settings.SettingsState.SetCurrency | src/contexts/SettingsContext.tsx:53-56 | sets the currency and stores it |
| Settings.SettingsState.SetLanguage | src/contexts/SettingsContext.tsx:58-61 | sets the language and stores it |
| Settings.SettingsState.SetIsDarkMode | src/contexts/SettingsContext.tsx:63-66 | sets dark mode and stores its text |
| Settings.SettingsState.AddAccount | src/contexts/SettingsContext.tsx:68-72 | the account is appended |
| Settings.SettingsState.DeleteAccount | src/contexts/SettingsContext.tsx:74-78 | the account at the index is removed |
| Settings.SettingsState.AddBudget | src/contexts/SettingsContext.tsx:80-87 | the category's budget is set |
| Settings.SettingsState.DeleteBudget | src/contexts/SettingsContext.tsx:89-94 | the category's budget is removed |
| Settings.DarkModeRoundTrip | src/contexts/SettingsContext.tsx:45 | loading what `setIsDarkMode(value)` stored gives `value` back, whatever else is stored |
| AddExpenseCardModal.AddExpenseCardForm.constructor | src/components/expenses/AddExpenseCardModal.tsx:28-31 | empty fields, no error, a valid form |
| AddExpenseCardModal.AddExpenseCardForm.SetName | src/components/expenses/AddExpenseCardModal.tsx:86 | the name is the typed text |
| AddExpenseCardModal.AddExpenseCardForm.SetCategory | src/components/expenses/AddExpenseCardModal.tsx:104 | the category is the typed text |
| AddExpenseCardModal.AddExpenseCardForm.HandleAmountChange | src/components/expenses/AddExpenseCardModal.tsx:33-46 | a keystroke with two points is ignored; otherwise the amount is the filtered text with its error; the form stays valid |
| AddExpenseCardModal.AddExpenseCardForm.HandleSubmit | src/components/expenses/AddExpenseCardModal.tsx:48-72 | nothing while submitting; a non-positive or unreadable amount shows the error; a blank name stops; otherwise the trimmed card is submitted and the form emptied |
| AddExpenseCardModal.AddExpenseCardForm.Reset | src/components/expenses/AddExpenseCardModal.tsx:67-71 | every field is empty and the error cleared |
| AddExpenseCardModal.AddExpenseCardForm.SubmitDisabled | src/components/expenses/AddExpenseCardModal.tsx:123 | the button is disabled exactly while submitting, with a blank name or amount, or with an error shown; when enabled on a valid form the amount reads as a non-negative number |
| EditExpenseCardModal.EditExpenseCardForm.constructor | src/components/expenses/EditExpenseCardModal.tsx:31-34 | the fields start from the card |
| EditExpenseCardModal.EditExpenseCardForm.OnOpen | src/components/expenses/EditExpenseCardModal.tsx:37-44 | when visible the fields are reset from the card and the error cleared; otherwise nothing changes |
| EditExpenseCardModal.EditExpenseCardForm.SetName | src/components/expenses/EditExpenseCardModal.tsx:93 | the name is the typed text |
| EditExpenseCardModal.EditExpenseCardForm.SetCategory | src/components/expenses/EditExpenseCardModal.tsx:111 | the category is the typed text |
| EditExpenseCardModal.EditExpenseCardForm.HandleAmountChange | src/components/expenses/EditExpenseCardModal.tsx:46-59 | a keystroke with two points is ignored; otherwise the amount is the filtered text with its error, and the form is valid |
| EditExpenseCardModal.EditExpenseCardForm.HandleSubmit | src/components/expenses/EditExpenseCardModal.tsx:61-79 | nothing while submitting; a bad amount shows the error; a blank name stops; otherwise the card id and the trimmed fields are submitted (an empty category as absent); no reset |
| EditExpenseCardModal.EditExpenseCardForm.SubmitDisabled | src/components/expenses/EditExpenseCardModal.tsx:130 | the button is disabled exactly while submitting, with a blank name or amount, or with an error shown; when enabled on a valid form the amount reads as a number |
| EditExpenseCardModal.SubmittedEditApplies | src/components/expenses/EditExpenseCardModal.tsx:74-78 | the submitted edit, applied by the card hook, gives the card the new name, amount and category and keeps its id and flag |
| AddExpenseModal.InitialAmountText | src/components/expenses/AddExpenseModal.tsx:38 | `initialValues.amount?.toString() \|\| ''`: no ensures of its own; the constructor and `OnOpen` rows state where it is used |
| AddExpenseModal.AddExpenseForm.constructor | src/components/expenses/AddExpenseModal.tsx:38-43 | each field comes from the initial values or is empty; the date defaults to now |
| AddExpenseModal.AddExpenseForm.OnOpen | src/components/expenses/AddExpenseModal.tsx:46-54 | when visible with initial values every field is reset from them; otherwise nothing changes |
| AddExpenseModal.AddExpenseForm.SetDescription | src/components/expenses/AddExpenseModal.tsx:120 | the description is the typed text |
| AddExpenseModal.AddExpenseForm.SetCategory | src/components/expenses/AddExpenseModal.tsx:127 | the category is the typed text |
| AddExpenseModal.AddExpenseForm.ShowPicker | src/components/expenses/AddExpenseModal.tsx:99-101 | the picker is shown |
| AddExpenseModal.AddExpenseForm.HandleDateChange | src/components/expenses/AddExpenseModal.tsx:71-75 | the picked date, or the old one when none was picked; the picker stays open only on iOS |
| AddExpenseModal.AddExpenseForm.HandleAmountChange | src/components/expenses/AddExpenseModal.tsx:56-69 | a keystroke with two points is ignored; otherwise the amount is the filtered text with its error |
| AddExpenseModal.AddExpenseForm.HandleSubmit | src/components/expenses/AddExpenseModal.tsx:77-97 | nothing while submitting; a bad amount shows the error; otherwise the amount, trimmed description (may be empty), trimmed category (absent when empty), date and card id are submitted; no reset |
| AddExpenseModal.SentCategoryNotBlank | src/components/expenses/AddExpenseModal.tsx:93 | a category is sent exactly when it is not blank, and the sent one is not blank |
| ExpenseForm.FirstAccount | src/components/ExpenseForm.tsx:48 | `accounts[0] \|\| ''` is the first account, or empty when there is none |
| ExpenseForm.InitialAccount | src/components/ExpenseForm.tsx:30 | the initial account if given, else the first account; always empty, the initial one or a known account |
| ExpenseForm.CurrencySymbol | src/components/ExpenseForm.tsx:51 | the symbol of the first currency with the code, `$` when none matches or its symbol is empty; never empty |
| ExpenseForm.ExpenseFormState.constructor | src/components/ExpenseForm.tsx:26-30 | each field from the initial values or empty; the date defaults to today and the account to the initial one |
| ExpenseForm.ExpenseFormState.SetAmount | src/components/ExpenseForm.tsx:58 | the amount becomes the typed text |
| ExpenseForm.ExpenseFormState.SetDescription | src/components/ExpenseForm.tsx:66 | the description becomes the typed text |
| ExpenseForm.ExpenseFormState.SetCategory | src/components/ExpenseForm.tsx:72 | the category becomes the typed text |
| ExpenseForm.ExpenseFormState.SetDate | src/components/ExpenseForm.tsx:78 | the date becomes the typed text |
| ExpenseForm.ExpenseFormState.SelectAccount | src/components/ExpenseForm.tsx:89 | the pressed account is selected |
| ExpenseForm.ExpenseFormState.HandleSubmit | src/components/ExpenseForm.tsx:32-49 | with any field empty nothing happens; otherwise the fields are submitted with the amount as `parseFloat` reads it, and the form is reset |
| ExpenseForm.SubmitsUnreadableAmount | src/components/ExpenseForm.tsx:33-36 | this form submits an amount that does not read as a number (NaN) |

## Left out

- Backend calls, the current-user lookup and storage access are parameters. The model does not cover the query itself: the `user_id` filter, the ordering by creation date or date, and the optional date range of `fetchExpenses` (src/hooks/useExpenses.ts:27-39). A fetch's result is taken to be whatever the backend returned.
- `getUser` throwing (a network failure) is folded into the failure cases. In `useExpenseCards` an auth error counts as "no user", as the code reads only `user`.
- Concurrency is left out: the effects that fetch on mount and on auth changes, overlapping async handlers, and stale state captured by handlers. Each handler runs to completion on the state it is given.
- `Alert.alert`, `console` logging and rendering (styles, `Portal`, charts, theme) are output only and are left out.
- `Platform.OS` is the parameter `isIOS`; `new Date()` is the parameter `now` or `today`.
- Date parsing (`new Date(text)`, `getFullYear`, `getMonth` in local time) is the parameter `dateOf`. Time zones are not modelled.
- `Number.prototype.toString`, used for the initial amount texts, is the parameter `toText`. Only integer-to-text is modelled (`DecimalText`, `IntText`).
- DecimalText: JavaScript writes a number of 10^21 or more in exponent form (`1e+21`); the model always writes plain digits. The texts it is used for (a month number and a year) are far below that bound.
- Floating point: amounts are exact reals. Rounding, `Infinity`, `-0` and NaN amounts are not modelled. `parseFloat` of an `Infinity` literal is treated as no number.
- ExpenseCards.CardsFromRows: the `typeof card.amount === 'string'` branch (src/hooks/useExpenseCards.ts:48) is not modelled. Rows carry numeric amounts.
- Analytics.TotalSpending: the `typeof expense.amount !== 'number'` and `expense.amount || 0` guards are not modelled. Every amount is a number. `null` entries in the list are not modelled either.
- CategoryData: the category totals are added up in a plain `{}` (src/hooks/useAnalytics.ts:29-35), so a category named after an `Object.prototype` member is not a fresh key there. For `__proto__`, `acc[category] || 0` reads the prototype object, the sum becomes a string that the `__proto__` setter ignores, and the category is missing from the result. For `constructor`, `toString`, `valueOf`, `hasOwnProperty` and the like, the total becomes a string such as `"function Object() { [native code] }12.5"`, and the sort then compares NaN. The model treats every category as a fresh key, so its contracts (keys equal to the categories, totals equal to the per-category sums) hold only for categories that are not such names.
- TopCategories: the same holds for the second fold (src/hooks/useAnalytics.ts:90-96). Categories named after `Object.prototype` members are not modelled.
- AverageSpendingPerCategory: the same holds for the count fold (src/hooks/useAnalytics.ts:135-141) and the totals it reads. Categories named after `Object.prototype` members are not modelled.
- CategoryDataConservesTotal: the category totals add up to the total spending only when no category is named after an `Object.prototype` member, for the reason given under CategoryData.
- `localeCompare` is modelled as code-point order, which is what it gives for `YYYY-MM` keys.
- JavaScript objects list integer-like keys first. The model keeps insertion order for every key, which matters only for a category named like a number.
- The order of categories with equal totals is not stated by the contracts.
- `JSON.parse` and `JSON.stringify` for accounts and budgets are the parameters `parseAccounts` and `parseBudgets`. A value of the wrong shape (not an array or object) is not modelled. Budgets are a `map`, so key order is not modelled.
- The currency list comes from a module that is not part of this model. It is the parameter `currencies`.
- The date picker widget and the submit button's `disabled={submitting}` in the add-expense dialog are left out.
- Dragging a card to today (app/(tabs)/dashboard.tsx, src/components/TodayExpenseDropZone.tsx) is not part of this model.
