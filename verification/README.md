# MYexpenses ledger, modelled in Dafny

MYexpenses keeps a ledger of income and expense records in the browser. Each record belongs to one of two contexts, Home or School. This project models the application's core:

- **The application shell** (`App.tsx`, module `App`):
  - It keeps the record list and mirrors it into a storage slot after every change.
  - It loads the list back when the page mounts.
  - Adding puts a new record first.
  - Deleting and wiping happen only after the user confirms.
  - It builds the summary and the date-sorted table of the PDF report.
- **The dashboard** (`components/Dashboard.tsx`, module `Dashboard`):
  - It filters the records to the selected context.
  - It totals income and expense with a single `reduce`, and derives the balance.
  - It builds the per-category expense breakdown for the pie chart through a `Map` filled in a loop.
  - It decides when the insights button is disabled.
- **The entry form** (`components/TransactionForm.tsx`, module `TransactionForm`):
  - A class holds the form's fields.
  - Its `Submit` validates the fields, emits a record without an id, and then partly resets the form.
  - The category list offered depends on the context.
- **The transaction table** (`components/TransactionList.tsx`, module `TransactionList`):
  - It shows the context's records, newest date first, one row per record.
  - It shows an empty-state message when the context has none.

Shared definitions:
- `Types` holds the record type and its enumerations (`types.ts`).
- `Constants` holds the category lists and the chart palette (`constants.ts`).
- `Ledger` holds the order-preserving filter, the context and type views, the sums and the row labels.
- `Ordering` holds the date order and the sort that the table and the report share.

Modelling choices:
- Amounts are `real`, so sums are exact.
- Dates are `YYYY-MM-DD` strings, compared lexicographically. For that format this is the order of `new Date(d).getTime()`.
- `Array.prototype.sort` is stable. It is modelled as a stable insertion sort, and the sort is proved to be the unique stable newest-first arrangement.
- A JavaScript `Map` keeps its keys in insertion order. It is modelled as an association list.

Two consequences of the order in which the code runs its effects:
- After a confirmed wipe, `clearAllData` removes the storage key. The save effect that follows the state change then writes `[]` back (`App.tsx:30-32`). So the slot ends up holding the empty list rather than being absent. A reload still yields an empty list.
- On mount, the save effect of the first commit runs with the initial empty list. An unreadable slot is therefore overwritten with `[]`, not left as it was.

## Model

| member | source | states |
|---|---|---|
| Types.WithId | App.tsx:35 | the stored record is the candidate with the generated id attached and nothing else changed |
| Ledger.InContextMembers | components/Dashboard.tsx:19-21 | `filteredTx` holds exactly the records whose context is the selected one |
| Ledger.InContextKeepsOrder | components/Dashboard.tsx:20 | the context filter keeps records in stored order: a list all in the context is returned whole, a list with none gives `[]` |
| Ledger.InContextAppend | components/Dashboard.tsx:20 | filtering distributes over concatenation, so stored order is preserved |
| Ledger.ContextsPartition | types.ts:2 | the Home and School views together are a permutation of the whole list and share no record |
| Ledger.EmptyView | components/TransactionList.tsx:15 | the context view is empty exactly when no record has that context |
| Ledger.OfKindMembers | components/Dashboard.tsx:36 | the type filter keeps exactly the records of that type |
| Ledger.SumAppend | App.tsx:74-75 | the sum of amounts is additive over concatenation |
| Ledger.DescriptionLabel | App.tsx:94 | the item name is the description when it is present and non-empty, otherwise `-`, and never empty |
| Ledger.PaymentLabel | App.tsx:97 | the payment cell is `-` exactly when the record has no payment method |
| Ordering.DateLeTotal | components/TransactionList.tsx:13 | any two dates are comparable |
| Ordering.DateLeTransitive | components/TransactionList.tsx:13 | the date order is transitive |
| Ordering.DateLeAntisymmetric | components/TransactionList.tsx:13 | two dates each no later than the other are equal |
| Ordering.DateLeReflexive | components/TransactionList.tsx:13 | every date is no later than itself |
| Ordering.SortNewestFirst | components/TransactionList.tsx:13 | the sorted list is a permutation of its input with dates in non-increasing order |
| Ordering.InsertKeepsNewestFirst | components/TransactionList.tsx:13 | inserting a record into a newest-first list keeps it newest first |
| Ordering.SortIsStable | components/TransactionList.tsx:13 | for every date, the records of that date keep their input order (the comparator returns 0 for equal dates) |
| Ordering.StableSortIsUnique | components/TransactionList.tsx:13 | any newest-first list with the same records per date in the same order equals the sort's result |
| Dashboard.TallyIsSums | components/Dashboard.tsx:23-29 | the single-pass reduction yields the sum of income amounts and the sum of expense amounts |
| Dashboard.Summarize | components/Dashboard.tsx:19-31 | income and expense are the sums over the context's records of each type, balance is their difference, and all three are 0 when the context is empty |
| Dashboard.FirstSeen | components/Dashboard.tsx:34-41 | the breakdown's category names are distinct |
| Dashboard.FirstSeenMembers | components/Dashboard.tsx:34-41 | the breakdown names exactly the categories that occur |
| Dashboard.FirstSeenInOrder | components/Dashboard.tsx:34-41 | categories are listed in the order of their first occurrence |
| Dashboard.BreakdownAddsUp | components/Dashboard.tsx:35-40 | the category totals add up to the sum of all the amounts |
| Dashboard.CategoryTotalIsFilteredSum | components/Dashboard.tsx:36-39 | the running total of a category is the sum of the amounts of the records of that category |
| Dashboard.FirstIndex | components/Dashboard.tsx:38 | the first position holding a category, or the length when none does |
| Dashboard.Lookup | components/Dashboard.tsx:38 | `map.get` is absent exactly when the key is not in the map |
| Dashboard.LookupAt | components/Dashboard.tsx:38 | with distinct keys, `map.get` returns the value stored under the key |
| Dashboard.SetEntryNames | components/Dashboard.tsx:38 | `map.set` appends a new key at the end and leaves the key order alone for an existing one |
| Dashboard.CollectsStep | components/Dashboard.tsx:37-39 | one loop step keeps the map equal to the running category totals, keyed in first-seen order |
| Dashboard.Slices | components/Dashboard.tsx:41-45 | entry `j` becomes the slice with that name and value and palette colour `j mod 10` |
| Dashboard.SlicesAddUp | components/Dashboard.tsx:41-45 | the slice values add up to the sum of the collected records |
| Dashboard.ChartData | components/Dashboard.tsx:33-46 | one slice per expense category in first-seen order, each with that category's total and colour `CHART_COLORS[j mod 10]`; the slices add up to the total expense |
| Dashboard.BreakdownCovers | components/Dashboard.tsx:41 | slice names are distinct, and every expense category has a slice |
| Dashboard.IncomeIgnoredByBreakdown | components/Dashboard.tsx:36 | an income record at any position, including the head where a new record goes, changes neither the categories nor the values of the breakdown |
| Dashboard.InsightsDisabled | components/Dashboard.tsx:151 | the button is disabled exactly when a request is outstanding or no record has the context |
| TransactionList.ShownIsSortedView | components/TransactionList.tsx:13 | the table lists the context's records (a permutation of the filtered list), newest date first, with same-date records in stored order |
| TransactionList.ShownIsTheStableSort | components/TransactionList.tsx:13 | no other stable newest-first arrangement exists |
| TransactionList.View | components/TransactionList.tsx:15-27 | the empty state is shown exactly when the context has no records; otherwise the entry count equals the number of matching records and of rows |
| TransactionList.TableRows | components/TransactionList.tsx:41-59 | every record of the context has a row and every row comes from one; row dates run from newest down; each row has a visible item name and a `+`/`-` sign |
| TransactionList.Sign | components/TransactionList.tsx:59 | the amount is prefixed `+` exactly for income and `-` exactly for expense |
| TransactionList.PaymentNote | components/TransactionList.tsx:54 | the payment method line is shown exactly when the record has one |
| TransactionForm.CategoryChoicesAreExpenseCategories | components/TransactionForm.tsx:19 | each context offers its ten categories, none empty and none equal to `Income` |
| TransactionForm.CategoryChoicesShareOnlyOthers | constants.ts:5-29 | the Home and School lists have only `Others` in common |
| TransactionForm.PaymentChoicesAreIncomeSubmenus | components/TransactionForm.tsx:104-109 | the income payment choices are `INCOME_SUBMENUS` in order, and every payment method is spelled as one of them |
| TransactionForm.StaleCategoryCrossesContexts | components/TransactionForm.tsx:23-32 | an expense category of one context, other than `Others`, submitted after a switch is filed under the new context although that context does not offer it |
| TransactionForm.BuildCandidate | components/TransactionForm.tsx:25-33 | date, type, context, amount and description are copied; the category is `Income` for income; a payment method is present exactly for income |
| TransactionForm.Form.constructor | components/TransactionForm.tsx:12-17 | a new form is an expense with empty amount, category and item name, paid in cash, dated today |
| TransactionForm.Form.SetContext | App.tsx:227-230 | a tab switch changes only the form's context; every field keeps its value |
| TransactionForm.Form.Submit | components/TransactionForm.tsx:21-39 | nothing is emitted and nothing changes exactly when the amount, the date, or an expense's category is empty; otherwise the candidate, filed under the form's current context, is emitted, and it always has a category and a date; amount and item name are cleared, the category only after an expense; type, date, payment method and context stay |
| App.Shell.Mount | App.tsx:18-32 | a stored list is loaded; an absent or unreadable slot gives an empty list; the slot then holds the list |
| App.Shell.Reload | App.tsx:18-32 | reloading restores the list exactly as it was, on the Home tab |
| App.Shell.Persist | App.tsx:30-32 | the save effect writes the current list into the slot |
| App.Shell.Add | App.tsx:34-37 | the new list is the candidate with its id, followed by the previous list unchanged; the slot holds it |
| App.Shell.Delete | App.tsx:39-43 | a confirmed delete removes the records with the id; without confirmation nothing changes; the slot holds the list |
| App.Shell.Clear | App.tsx:45-50 | a confirmed wipe empties the list, and the slot then holds the empty list; without confirmation nothing changes |
| App.Shell.SelectTab | App.tsx:150 | switching tab changes neither the list nor the slot |
| App.RemoveIdMembers | App.tsx:41 | deleting keeps exactly the records with another id |
| App.RemoveIdAppend | App.tsx:41 | deleting works segment by segment, so the survivors keep their relative order |
| App.RemoveAbsentId | App.tsx:41 | deleting an id no record has leaves the list unchanged |
| App.RemoveUniqueId | App.tsx:41 | with unique ids, deleting the id at position `k` removes exactly that record |
| App.AddKeepsUnique | App.tsx:35-36 | a fresh id keeps the ids unique |
| App.AddThenDelete | App.tsx:34-43 | deleting the record just added under a fresh id restores the previous list |
| App.AddShowsFirst | App.tsx:36 | a new record heads its own context's view and leaves the other view unchanged |
| App.ReportSummary | App.tsx:73-76 | the report's income, expense and balance equal the dashboard's figures for the same context |
| App.Upper | App.tsx:95 | upper-casing keeps the length and maps each letter a-z to its capital |
| App.UpperChar | App.tsx:95 | a letter a-z maps to the capital at the same alphabet position; any other character is kept |
| App.TypeLabelSpelling | App.tsx:95 | the type column reads `INCOME` or `EXPENSE` |
| App.BuildRows | App.tsx:88-101 | one row per record of the context, built from the newest-first sort, with dates running from newest down |
| App.PushRows | App.tsx:91-101 | the `forEach` pushes one row per record, in order |
| App.ReportRowsShape | App.tsx:91 | the report table has as many rows as the context has records, ordered newest first |
| App.ReportMatchesList | App.tsx:91 | the report lists the same records in the same order as the on-screen table |
| App.ReportEmpty | App.tsx:73-101 | the report table is empty exactly when the context has no records |
| App.Shell.DownloadReport | App.tsx:52-101 | nothing is produced without the PDF library; otherwise the summary is the dashboard's and, when the table plugin is present, the rows are the report rows; the list is not touched |

## Left out

- Rendering, styling and layout are not modelled: the JSX, the sidebar toggle, the chart widget and the table markup.
- The PDF drawing calls are not modelled: `text`, `roundedRect`, `autoTable` and `save`. Only whether a table is included is kept, and the title and file name are plain strings. The generation date is a clock read and is left out.
- Browser storage and JSON are a `Slot` value: absent, unreadable, or holding a list.
  - `JSON.stringify` followed by `JSON.parse` is taken to return the same list.
  - Parsed text that is not an array of records is not modelled.
  - The `console.error` log on a parse failure is not modelled.
- React effect scheduling is written out only as far as the order of the load and save effects on mount and after each change. React's development-mode double run of effects is not modelled.
- `uuidv4` is a parameter `newId` of `Add`. Its freshness is a precondition of the lemmas about unique ids (`AddKeepsUnique`, `AddThenDelete`), not of `Add`.
- `window.confirm` is a boolean parameter.
- `services/geminiService.ts` is not part of this model. It is a network client for an external text-generation service.
- `handleGetAdvice` is not modelled, since it awaits that service. Only its `loadingAdvice` flag appears, as a parameter of `InsightsDisabled`.
- `parseFloat` is a parameter `parsed` of `Submit`. `NaN` and the text-to-number conversion are not modelled.
- The sign of the amount is not constrained. `handleSubmit` does not check it; only the input's `min="0"` browser attribute restricts it.
- Floating-point summation and `toLocaleString`/`toLocaleDateString` formatting are not modelled. Amounts are exact reals and rows carry the number itself.
- TransactionForm.Form: the select's display after a tab switch is not modelled. The form keeps a category picked under the other context, the select then shows the first option of the new list, and `handleSubmit` still files the kept category under the new context (`StaleCategoryCrossesContexts`). The model keeps that behaviour as written.
- The form's input handlers are not modelled: the type toggle and the `onChange` setters only store the value typed or picked.
- Dates are taken to be `YYYY-MM-DD` strings. Other strings, and `Invalid Date` comparisons that yield `NaN`, are not modelled.
- `Ordering.SortNewestFirst` is modelled on values, not as an in-place sort of an array. Both callers sort the fresh array returned by `filter`, so no other reference sees the order change.
