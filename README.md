# Scrap-yard manager: a Dafny model

This project models the data layer and the view logic of a small scrap-yard
manager, proved in Dafny. The yard buys and sells materials, keeps a
history of purchases and sales, and pays day labourers. It covers:

- the storage service: six collections — materials, active transactions,
  trashed transactions, categories, employees and day payments — each read
  whole, changed in memory and written back whole;
- the weekly dashboard: the Sunday-to-Saturday window, the buy, sell and
  profit totals, the seven-point daily chart, and the insight list cleanup;
- the screens' list and form rules: the purchase/sale basket, material
  validation and the category editor, the recycle-bin selection, the price
  list tabs and groups, the history search, the staff payment lists;
- the application shell: first-run seeding and the handlers that refresh the
  in-memory copies after each change.

Layout, one module per source file plus two shared ones:

| file | module | models |
|---|---|---|
| wrappers.dfy | Wrappers | `Option` |
| types.dfy | Types | types.ts |
| seqs.dfy | Seqs | `filter`, `map`, `reverse`, `find`, `findIndex`, id-based deletion, `Set` dedup |
| text.dfy | Text | `trim`, `toLowerCase`, `includes`, `split`, one-character `replace` |
| storage.dfy | Storage | storageService.ts |
| dashboard.dfy | Dashboard | Dashboard.tsx |
| transaction_form.dfy | TransactionForm | TransactionForm.tsx |
| materials_manager.dfy | MaterialsManager | MaterialsManager.tsx |
| recycle_bin.dfy | RecycleBin | RecycleBin.tsx |
| prices.dfy | Prices | PricesView.tsx |
| history.dfy | History | History.tsx |
| employees.dfy | Employees | EmployeesManager.tsx |
| app.dfy | App | App.tsx |

Modelling choices:

- A stored record is `Stored(id, data)`. `data` is the record without its
  id, which is what the save operations accept. A save with an optional id
  is a `Draft`.
- Each storage key is a field of the class `Storage.Repository`. The
  categories key is an `Option`: `None` means nothing has been saved yet.
- `generateId` is not modelled as a function. Each save that creates a
  record takes the id as a parameter and requires it to be unused in every
  collection.
- The central invariant is `Repository.Valid`. It says:
  - ids are unique in every collection;
  - `Partitioned(transactions, trash)` holds: a transaction id is in exactly
    one of the two lists.

  Every repository method preserves it. The `App` class additionally keeps
  `Synced`: its in-memory copies equal the repository.
- Instants are integer milliseconds in local time. A calendar day is
  `t / 86400000`, rounded down, and day 0 is Thursday 1 January 1970.
- `parseFloat` is a parameter of type `string -> Option<real>`, where
  `None` stands for NaN. A `confirm` dialog is a `bool` parameter.
- Amounts are `real`.

## Model

| member | source | states |
|---|---|---|
| Types.TypeFromLabel | types.ts:2-5 | exactly the two labels "Compra" and "Venda" name a transaction type; each label reads back as its own type |
| Types.AvailabilityFlags | PricesView.tsx:89-90 | a material is bought unless it is sell-only and sold unless it is buy-only; every material is bought or sold, and only `both` ones are both |
| Storage.Saved | storageService.ts:24-34 | save without an id appends one record under the new id, all earlier ones unchanged; with an id found, only the first match is replaced, same length and other positions; with an id not found, nothing changes |
| Storage.SavedUnique | storageService.ts:24-34 | a save keeps ids unique given a fresh id; the id set grows by the new id on create and is unchanged on update |
| Storage.SavedReadBack | storageService.ts:24-34 | after a save, looking up the saved id finds exactly the saved data |
| Storage.Moved | storageService.ts:52-79 | moving an id present in the source list removes every record with it and appends the first one found, unchanged, to the end of the destination; an absent id changes neither list |
| Storage.MovePreservesPartition | storageService.ts:52-79 | moving keeps each transaction id in exactly one of active and trash, keeps the set of all ids, and leaves the moved id only in the destination |
| Storage.MoveThenRestore | storageService.ts:52-79 | trash then restore gives back the original trash and the same transaction at the end of the active list, with the same multiset of records |
| Storage.StatusUpdated | storageService.ts:117-123 | only the status of the first record with the id changes, every other field and record is kept; with no match nothing changes |
| Storage.StatusUpdatedReadBack | storageService.ts:117-123 | after the update the record reads back with the new status and its other fields; ids stay unique; repeating the update changes nothing |
| Storage.Repository.Categories | storageService.ts:17 | the six default categories until a list is saved, the saved list afterwards |
| Storage.Repository.constructor | storageService.ts:4-9 | empty storage: every collection empty, no saved category list |
| Storage.Repository.GetMaterials | storageService.ts:20-23 | returns the stored materials |
| Storage.Repository.SaveMaterial | storageService.ts:24-34 | new materials are `Saved` applied to the old ones and are returned; the invariant holds; no other collection changes |
| Storage.Repository.DeleteMaterial | storageService.ts:35-39 | keeps exactly the materials with another id, in order, and returns them; invariant kept, nothing else changes |
| Storage.Repository.GetTransactions | storageService.ts:41-44 | returns the active transactions |
| Storage.Repository.SaveTransaction | storageService.ts:45-51 | appends one transaction under the fresh id and returns the list; invariant kept, nothing else changes |
| Storage.Repository.MoveToTrash | storageService.ts:52-63 | active and trash become `Moved(active, trash, id)`, the invariant holds, and the pre-removal active list is returned |
| Storage.Repository.GetTrash | storageService.ts:65-68 | returns the trash |
| Storage.Repository.RestoreFromTrash | storageService.ts:69-79 | trash and active become `Moved(trash, active, id)`; the invariant holds |
| Storage.Repository.PermanentDeleteTrash | storageService.ts:80-84 | keeps exactly the trashed records whose id is not listed, in order, and returns them; invariant kept |
| Storage.Repository.GetEmployees | storageService.ts:86-89 | returns the employees |
| Storage.Repository.SaveEmployee | storageService.ts:90-100 | employees become `Saved` of the old ones and are returned; invariant kept, nothing else changes |
| Storage.Repository.DeleteEmployee | storageService.ts:101-105 | keeps exactly the other employees and leaves every payment record untouched |
| Storage.Repository.GetPayments | storageService.ts:107-110 | returns the payments |
| Storage.Repository.SavePayment | storageService.ts:111-116 | appends one payment under the fresh id, earlier ones unchanged |
| Storage.Repository.UpdatePaymentStatus | storageService.ts:117-123 | payments become `StatusUpdated(old, id, Paid)` and are returned; nothing else changes |
| Storage.Repository.GetCategories | storageService.ts:125-128 | returns the saved list, or the default list when none is saved |
| Storage.Repository.SaveCategories | storageService.ts:129-132 | stores and returns exactly its argument, so later reads return it |
| Dashboard.DayShift | Dashboard.tsx:45-46 | moving an instant by k whole days moves its calendar day by k |
| Dashboard.WeekRange | Dashboard.tsx:17-27 | the start is a Sunday at 00:00:00.000, at or before the selected instant and less than 7 days before it; the end is the start plus 6 days at 23:59:59.999 |
| Dashboard.WeekRangeUnique | Dashboard.tsx:17-27 | the window is the only Sunday-midnight week that holds the selected instant |
| Dashboard.PreviousWeek | Dashboard.tsx:86-87 | the same time of day on the same weekday, seven calendar days earlier |
| Dashboard.NextWeek | Dashboard.tsx:106-107 | the same time of day on the same weekday, seven calendar days later |
| Dashboard.NavigationShiftsWeek | Dashboard.tsx:86-87 | previous and next week move the window by exactly seven days, and undo each other |
| Dashboard.TransactionsInPeriod | Dashboard.tsx:29-34 | keeps exactly the transactions dated within the window, both bounds inclusive |
| Dashboard.PeriodKeepsOrder | Dashboard.tsx:29-34 | the period filter keeps the transactions' order |
| Dashboard.WeekBoundaries | Dashboard.tsx:29-34 | the first and last millisecond are inside the window, the ones just outside are not |
| Dashboard.InWeekByDay | Dashboard.tsx:29-34 | being in the window is the same as being dated on one of its seven days |
| Dashboard.TypeTotalConcat | Dashboard.tsx:36-40 | a type's total over two lists is the sum of the two totals |
| Dashboard.BuyPlusSell | Dashboard.tsx:36-40 | the buy total plus the sell total is the total of all transactions |
| Dashboard.StatsOf | Dashboard.tsx:36-40 | profit is sells minus buys; buys plus sells is the sum of all totals; an empty period gives all zeros |
| Dashboard.StatsConcat | Dashboard.tsx:36-40 | buy, sell and profit add up over the parts of a period |
| Dashboard.Series | Dashboard.tsx:42-62 | n points, point i being day first+i with that day's buy and sell sums |
| Dashboard.ChartData | Dashboard.tsx:42-62 | the loop yields exactly seven points, point i for the week's first day plus i |
| Dashboard.InDaysSplit | Dashboard.tsx:49-57 | a block of days' type total splits into the earlier days' total and the last day's |
| Dashboard.SeriesTotals | Dashboard.tsx:49-57 | the daily buy and sell sums of n days add up to the totals over those days |
| Dashboard.ChartMatchesStats | Dashboard.tsx:36-62 | each in-period transaction is counted on exactly one point, so the chart's daily sums equal the week's buy and sell totals |
| Dashboard.StripMarker | Dashboard.tsx:191 | the result is a suffix of the line |
| Dashboard.StripMarkerRemovesMarker | Dashboard.tsx:191 | a line made of a marker (`N.`, `-` or `*`), at least one white-space character and a rest loses exactly the marker and the white space |
| Dashboard.StripMarkerKeepsUnmarked | Dashboard.tsx:191 | a line with no marker followed by white space is kept as it is |
| Dashboard.InsightLines | Dashboard.tsx:188-191 | at most one shown line per line of the text |
| Dashboard.InsightLinesFromText | Dashboard.tsx:188-191 | every shown line is a non-blank line of the text with its marker stripped |
| Dashboard.InsightLinesComplete | Dashboard.tsx:188-191 | every non-blank line of the text is shown |
| TransactionForm.AvailableMaterials | TransactionForm.tsx:21-23 | a purchase offers exactly the materials that are not sell-only, a sale exactly those that are not buy-only |
| TransactionForm.Form.constructor | TransactionForm.tsx:12-17 | a freshly mounted screen for the given kind: no name, no selection, no weight, an empty basket |
| TransactionForm.UnitPrice | TransactionForm.tsx:25-26 | the buy price on a purchase, the sell price on a sale, 0 with nothing selected |
| TransactionForm.CurrentItemTotal | TransactionForm.tsx:27-30 | weight times unit price, or 0 when the weight does not parse |
| TransactionForm.ItemToAdd | TransactionForm.tsx:32-44 | refused exactly when no offered material has the selected id, the weight does not parse, or it is not positive; otherwise the item snapshots the material's name, the weight and the kind's price, and its total is weight times price |
| TransactionForm.Form.AddItem | TransactionForm.tsx:32-44 | an accepted add appends that item and clears weight and selection; a refused one changes nothing; every basket line stays consistent |
| TransactionForm.Form.RemoveItem | TransactionForm.tsx:120 | removes exactly the line at that position, keeps the others in order, and takes exactly its total off the basket |
| TransactionForm.Form.SetKind | App.tsx:128-131 | switching between the purchase and the sale screen changes only the kind: basket, name, weight and selection carry over, each line keeping the price it was added at |
| TransactionForm.Form.Submit | TransactionForm.tsx:46-56 | hands over `SubmitTransaction` of the current kind, name and basket, so the record carries the current kind with the basket lines as they are |
| TransactionForm.BasketTotalRemoveAt | TransactionForm.tsx:120 | removing a line lowers the basket total by that line's total |
| TransactionForm.SubmitTransaction | TransactionForm.tsx:46-56 | refused exactly when the basket is empty or the trimmed name is blank; otherwise the basket as items, the trimmed name, the basket total and the submission time |
| TransactionForm.SubmittedTotalIsLineSum | TransactionForm.tsx:54 | one more line raises the submitted total by that line's total |
| MaterialsManager.SearchMaterials | MaterialsManager.tsx:28-30 | keeps exactly the materials whose name contains the search, ignoring case |
| MaterialsManager.Manager.constructor | MaterialsManager.tsx:14-26 | the form starts empty, on the first category, available both ways; the category field is empty |
| MaterialsManager.SearchEmptyKeepsAll | MaterialsManager.tsx:28-30 | an empty search shows every material in order |
| MaterialsManager.SearchKeepsOrder | MaterialsManager.tsx:28-30 | the search keeps the list's order |
| MaterialsManager.BuildMaterial | MaterialsManager.tsx:32-52 | refused exactly for an empty name or a required price that does not parse; a sell-only material gets buy price 0 and a buy-only one sell price 0; the id is sent only when non-empty; an empty category falls back to the first one |
| MaterialsManager.EditThenSubmit | MaterialsManager.tsx:32-70 | editing a consistent material and submitting it unchanged gives back an update of the same record |
| MaterialsManager.Manager.Submit | MaterialsManager.tsx:32-57 | returns what is handed to the save handler; an accepted submit resets the form |
| MaterialsManager.Manager.StartEdit | MaterialsManager.tsx:59-70 | the form holds the material's fields |
| MaterialsManager.EditForm | MaterialsManager.tsx:59-67 | the form holds the material's id, name, category and availability, and its prices as text |
| MaterialsManager.Manager.SetCategories | MaterialsManager.tsx:14 | a new `categories` prop replaces the list; the form and the new-category field are kept, so later adds and the fallback use the new list |
| MaterialsManager.AddCategory | MaterialsManager.tsx:72-78 | appends the trimmed name at the end, unless it is blank or already present, in which case nothing is saved |
| MaterialsManager.AddCategoryNoDuplicates | MaterialsManager.tsx:72-78 | adding keeps the category list duplicate-free |
| MaterialsManager.Manager.AddCategoryFromField | MaterialsManager.tsx:72-78 | hands over `AddCategory` of the field and clears the field only when accepted |
| MaterialsManager.RemoveCategory | MaterialsManager.tsx:80-84 | on confirmation every occurrence of the category goes and the others stay; nothing without confirmation |
| MaterialsManager.RemoveCategoryKeepsOrder | MaterialsManager.tsx:80-84 | removal keeps the other categories in their order; a duplicate-free list stays duplicate-free |
| MaterialsManager.AddThenRemoveCategory | MaterialsManager.tsx:72-84 | removing a category just added gives back the original list |
| MaterialsManager.Margin | MaterialsManager.tsx:312-362 | a margin exists exactly for materials both bought and sold, and it is sell price minus buy price |
| RecycleBin.Toggled | RecycleBin.tsx:15-17 | flips the membership of the id, leaves every other id's membership alone, and appends an absent id at the end |
| RecycleBin.Bin.constructor | RecycleBin.tsx:12-13 | nothing is selected at first |
| RecycleBin.ToggledNoDuplicates | RecycleBin.tsx:15-17 | toggling keeps the selection duplicate-free |
| RecycleBin.ToggleTwice | RecycleBin.tsx:15-17 | toggling an unselected id twice gives back the selection |
| RecycleBin.AllToggled | RecycleBin.tsx:19-21 | empty when the selection has as many entries as the trash, otherwise every trashed id in trash order |
| RecycleBin.SelectAllThenClear | RecycleBin.tsx:19-21 | select-all twice from a partial selection ends with nothing selected |
| RecycleBin.Bin.ToggleSelect | RecycleBin.tsx:15-17 | the selection becomes `Toggled` of the old one |
| RecycleBin.Bin.ToggleSelectAll | RecycleBin.tsx:19-21 | the selection becomes `AllToggled` of the old one against the current trash; the comparison is by count only, so a selection holding stale ids can clear or refill |
| RecycleBin.Bin.SetTrash | RecycleBin.tsx:12-13 | a new `trash` prop replaces the list while the selection is kept, so it may hold ids no longer in the trash |
| RecycleBin.Bin.PermanentDelete | RecycleBin.tsx:23-29 | nothing with an empty selection or a declined dialog; otherwise exactly the selected ids are sent and the selection is emptied |
| Prices.Tabs | PricesView.tsx:14-17 | "TODOS" first, then every material category exactly once, in the order of its first occurrence among the materials |
| Prices.Filters.constructor | PricesView.tsx:10-12 | no search and the "TODOS" tab at first |
| Prices.FilterMaterials | PricesView.tsx:19-26 | a material passes exactly when its name or category contains the search, ignoring case, and the tab is "TODOS" or its category |
| Prices.FilterKeepsOrder | PricesView.tsx:19-26 | the filter keeps the input order |
| Prices.ClearedFiltersShowAll | PricesView.tsx:126 | with the filters cleared every material is shown, in order |
| Prices.Filters.Clear | PricesView.tsx:126 | resets search and tab, after which every material is shown |
| Prices.GroupStep | PricesView.tsx:28-34 | one reduction step keeps each key mapped to its category's materials in order |
| Prices.GroupsPartition | PricesView.tsx:28-34 | a shown material lies in the group of its own category and in no other |
| Prices.GroupByCategory | PricesView.tsx:28-34 | fails, as the source's `TypeError` does, exactly when a shown material's category is a name the object literal inherits (`constructor`, `toString`, `__proto__`, ...); otherwise the keys are exactly the categories present and each group holds the category's materials in list order |
| Prices.GroupAll | PricesView.tsx:29-33 | the reduction itself: the keys are exactly the categories present, and each group holds the category's materials in list order |
| Prices.GroupSizesTotal | PricesView.tsx:28-34 | groups over a duplicate-free list of all categories hold every material once |
| Prices.GroupSizesSumToFiltered | PricesView.tsx:14-34 | the group sizes over the distinct categories sum to the number of shown materials |
| History.AnyItemMatchesIff | History.tsx:18 | `some` holds exactly when some line's material name contains the query |
| History.Filtered | History.tsx:16-21 | keeps exactly the transactions matching the search and the type filter; a type filter admits only that type |
| History.FilteredKeepsOrder | History.tsx:16-21 | the result is an order-preserving subsequence of the history |
| History.ItemHitFinds | History.tsx:17-18 | a search hitting any material line finds the transaction |
| History.NoFiltersShowAll | History.tsx:16-21 | with no search and all types, the whole history is listed |
| History.TypeFiltersPartition | History.tsx:19 | the all-types result is the union of the purchase and sale results |
| History.Displayed | History.tsx:52 | the filtered list in reverse order, newest first |
| History.DisplayedIsPermutation | History.tsx:52 | the display holds the same transactions as the filter, and reversing it gives the filter back |
| Employees.PendingFor | EmployeesManager.tsx:101 | exactly the payments of that employee still pending, in record order |
| Employees.PaidHistory | EmployeesManager.tsx:147 | exactly the paid records |
| Employees.PaidHistoryOrder | EmployeesManager.tsx:147 | the paid records in reverse record order |
| Employees.DailyRecord | EmployeesManager.tsx:113 | the employee's id, a snapshot of the name, the day rate as amount, the time, pending |
| Employees.RecordedDayIsPending | EmployeesManager.tsx:101-113 | a recorded day payment appears among the employee's pending payments |
| Employees.PayingMovesRecord | EmployeesManager.tsx:124 | paying takes the record off the employee's pending list and puts it in the paid history as the receipt shows it |
| Employees.SaveRequest | EmployeesManager.tsx:24-33 | always active, the typed name and rate, the edited employee's id or none |
| Employees.SaveEditReplaces | EmployeesManager.tsx:24-33 | saving an edit makes the employee read back with the form's values |
| Employees.SaveNewAppends | EmployeesManager.tsx:24-33 | saving a new employee appends it under a fresh id |
| App.ScreenFor | App.tsx:100-139 | each view name renders its own screen |
| App.UnknownNameShowsDashboard | App.tsx:136-137 | a name matching no view renders the dashboard |
| App.ViewNamesDistinct | types.ts:50 | different views have different names |
| App.SeedTransactionConsistent | App.tsx:41-47 | the sample purchase has one valid line at the seeded copper price, and its total 425 is its lines' sum |
| App.SeededMaterials | App.tsx:31-38 | the four seed materials under the generated ids, in order |
| App.SeedRepository | App.tsx:31-47 | the four materials are saved in order, then the sample purchase; invariant kept, other collections untouched |
| App.App.constructor | App.tsx:16-22 | the first view is the dashboard and every copy is empty |
| App.App.Back | App.tsx:125 | the view becomes the dashboard |
| App.App.Bootstrap | App.tsx:24-57 | seeds only when materials and active transactions are both empty; afterwards all six copies equal the repository |
| App.App.NewTransaction | App.tsx:59-62 | one transaction is appended; copies stay in sync |
| App.App.MoveToTrash | App.tsx:64-68 | the repository moves the id to the trash, and both lists are re-read |
| App.App.RestoreTrash | App.tsx:70-74 | the repository restores the id, and both lists are re-read |
| App.App.PermanentDelete | App.tsx:76-79 | only the trash changes, in the repository and in the copies |
| App.App.SaveEmployee | App.tsx:81-84 | the employees are saved; copies stay in sync |
| App.App.DeleteEmployee | App.tsx:86-90 | on confirmation only the employees change; payments are never touched |
| App.App.PayDaily | App.tsx:92-94 | only payments change: one record appended |
| App.App.UpdatePayment | App.tsx:96-98 | only payments change: the record is marked paid |
| App.App.SaveMaterial | App.tsx:111 | the materials are saved; copies stay in sync |
| App.App.DeleteMaterial | App.tsx:112 | the material is deleted; copies stay in sync |
| App.App.UpdateCategories | App.tsx:113 | the categories become exactly the new list, in the repository and the copy |

## Left out

- localStorage and JSON: each key is a field. Parse failures and the storage quota are not modelled.
- Id generation: `crypto.randomUUID` and the `Math.random` fallback are replaced by ids the caller supplies, each required to be unused. The fallback does not actually guarantee freshness.
- Floating point: amounts are exact reals. Rounding, `toFixed` and currency formatting are not modelled.
- Employees.SaveRequest: the day rate is the already-read number. A rate that reads as NaN, which the source would store, is not modelled.
- `parseFloat` is an abstract parameter; only the comma-to-dot replacement before it is modelled.
- Dates: transactions and payments store an ISO string; here they store an instant in local-time milliseconds. `toISOString`, its parsing, time zones and daylight saving changes are not modelled. Under daylight saving a JavaScript day can be 23 or 25 hours long, while here every day has 86 400 000 ms.
- The date picker (Dashboard.tsx:97-101) and the "today" button (Dashboard.tsx:112) are not modelled. Both read or parse calendar text or the clock.
- Dashboard.ChartData: a point carries its day ordinal instead of the `dd/mm` label.
- `formatDateBR` (types.ts:53-66) is locale formatting and is not modelled.
- Text.Lower: lower-casing covers ASCII and Latin-1 letters only, not all of Unicode.
- The insights request itself (geminiService.ts) is not part of this model. It is a network call to an external service; only the cleanup of its text is modelled. The loading flags and error text (Dashboard.tsx:64-75) are left out with it.
- Sidebar.tsx is not part of this model: it renders the static menu and only sets the view.
- Prices.GroupByCategory: the groups are a map with no order. The display order of an object's keys, in which integer-like category names come first, is not modelled.
- MaterialsManager.BuildMaterial: with an empty category list the source's fallback `categories[0]` is `undefined`; here it is the empty string.
- MaterialsManager.EditForm: `availability || 'both'` for records that lack the field is not modelled, because every record here has one. Prices are passed through a `show` parameter in place of `toString`.
- React rendering, CSS, `confirm` dialogs (here a `bool`), `window.print`, `scrollTo`, the form-visibility flags and the two-second reset after a submitted transaction (TransactionForm.tsx:58-63) are not modelled.
- Field setters bound directly to inputs, such as the person name, the search boxes and the tab buttons, are not modelled as separate operations.
- The employee edit start (EmployeesManager.tsx:36-39), the tab switch, the receipt modal and the history row expansion only set screen state. They are not modelled; `SaveRequest` takes the edited employee and the typed values directly.
