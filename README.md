# Campaign ledger of the marketing dashboard

This project models the campaign ledger of the dashboard's `App` component in
`src/App.js`. The ledger is the stored list of campaign records plus the sort
selection (active column and direction). The model covers everything that reads
or changes them:

- submitting the add-campaign form, with its required-field check and its
  number coercion;
- deleting rows by id;
- choosing a column header;
- the sorted table view built by a comparator sort of a copy of the list;
- the summary totals built by a `reduce`;
- the per-row return percentage.

Layout:

- `campaign.dfy` (module `Campaigns`): the campaign record, its derived profit
  and the row's return percentage.
- `sorting.dfy` (module `Sorting`): the sort selection and its toggle rule, the
  sort keys and JavaScript's `<` on them, the comparator, and the stable sorted
  view with its proofs.
- `totals.dfy` (module `Totals`): the `reduce` that builds the summary totals,
  and the plain per-field sums it is proved against.
- `ledger.dfy` (module `Ledger`): the form, id-based deletion and its lemmas,
  the starting data, and the class `CampaignLedger`. The class holds the three
  pieces of component state (`campaigns`, `sortField`, `sortDirection`). Its
  methods are the three handlers that update that state.

Modelling choices:

- Money is an exact `real` and clicks are an `int`.
- Nothing makes the numbers non-negative. The form's `min="0"` is only an HTML
  hint, and the submit handler does not check it.
- `parseInt` and `parseFloat` are not modelled. `HandleSubmit` takes their
  results as a `Parsed` value, where `None` stands for NaN, and `x || 0` turns
  NaN into 0.
- `Date.now()` is replaced by an `id` parameter. Ids are never assumed unique:
  deleting an id removes every record that carries it (`SharedIdDeletesBoth`).
- JavaScript's `<` on strings is modelled as lexicographic order on
  characters, with a proper prefix first.
- The profit column's sort key is computed as `earnings - cost` (`KeyOf`).
- Only the start date, clicks, cost, earnings and profit headers call
  `handleSort`. The name column is sorted only as the initial selection
  (`Clickable`, `NameOnlyInitially`).
- Start dates are ISO `YYYY-MM-DD` strings and are compared as strings, as the
  code does.
- The view is a stable insertion sort. `ViewIsTheStableSort` proves that any
  sorted and stable arrangement equals it. So whatever stable algorithm
  `Array.prototype.sort` uses (ECMA-262 has required stability since its 2019
  edition), the table shows the same order.

## Model

| member | source | states |
|---|---|---|
| Campaigns.ReturnPercent | src/App.js:406-408 | When cost is positive, the percentage times cost is profit times 100. Otherwise it is 0. It is positive exactly when cost is positive and earnings exceed cost, and negative exactly when cost is positive and earnings are below cost. With positive cost and non-negative earnings it is at least -100. |
| Sorting.Toggle | src/App.js:91-98 | After a header click the chosen column is active. The direction is ascending exactly when the column was not active or was descending. The selection always changes. |
| Sorting.ToggleTwice | src/App.js:91-98 | Clicking the same header twice restores an active column's selection, and leaves a newly chosen column descending. |
| Sorting.ToggleReaches | src/App.js:352-394 | From the initial selection (name, ascending), every selection of a clickable column (start date, clicks, cost, earnings, profit) is reached by one or two clicks on that column's header. The name header has no click handler, so name is reached only as the initial selection. |
| Sorting.NameOnlyInitially | src/App.js:352-394 | Starting from the initial selection or one not on name, any sequence of clicks on the clickable headers leaves either the initial selection or a selection not on name. At least one click means the selection is not on name. So (name, descending) is never reached. |
| Sorting.KeyTrichotomy | src/App.js:102-111 | Two keys of one column are ordered one way, the other way, or are equal, and never both ways. |
| Sorting.Compare | src/App.js:101-115 | The comparator returns -1 exactly when the first record goes first in the chosen direction, 1 exactly when the second does, and 0 exactly when their keys are equal. |
| Sorting.SortedView | src/App.js:100-116 | The view is a permutation of the stored list. No later row strictly precedes an earlier one, so adjacent rows compare at most 0. Rows whose keys tie keep their stored order. The stored list is a parameter and is not reordered. |
| Sorting.ViewIsTheStableSort | src/App.js:100-116 | Any sorted arrangement that keeps each key's records in stored order equals the view. |
| Sorting.SortedStableUnique | src/App.js:100-116 | Two sorted lists with the same per-key subsequences are equal. |
| Sorting.DistinctKeysDescendingIsReversed | src/App.js:110-114 | When no two records tie in the column, the descending view is the ascending view reversed. |
| Ledger.DescendingIsNotReversedAscending | src/App.js:110-114 | With two tied records, both directions keep them in stored order, so the descending view is not the reverse of the ascending one. |
| Ledger.ProfitOrderDescending | src/App.js:105-114 | Records with profits 10, -5 and 100 appear as 100, 10, -5 when sorted by profit descending. |
| Ledger.ProfitOrderAscending | src/App.js:105-111 | The same records appear as -5, 10, 100 when sorted by profit ascending. |
| Ledger.SeedView | src/App.js:4-45 | The starting table, sorted by name ascending, lists Black Friday Special, New Year Campaign, then Summer Sale 2024. |
| Totals.TotalMetrics | src/App.js:118-131 | Each total is the sum of its field over all records, so an empty list gives zeros. Total profit equals total earnings minus total cost. |
| Totals.ReduceIsSum | src/App.js:119-130 | Folding from any starting accumulator adds exactly the per-field sums to it. |
| Totals.ProfitSumIsDifference | src/App.js:121-126 | The sum of per-record profit equals summed earnings minus summed cost. |
| Totals.SumsAppend | src/App.js:119-130 | Each field sum over a concatenation is the sum of the two parts' sums. |
| Totals.TotalsAppend | src/App.js:118-131 | Appending a record grows each total by exactly that record's field, and total profit by its profit. |
| Totals.SumsPermutation | src/App.js:119-130 | Any reordering of the list has the same four field sums. |
| Totals.TotalsPermutation | src/App.js:118-131 | Any reordering of the list has the same totals. |
| Ledger.SummaryIgnoresSort | src/App.js:100-131 | The summary totals of the sorted view equal those of the stored list, for every column and direction. |
| Ledger.SeedTotals | src/App.js:4-32 | The starting summary is 45 clicks, cost 105, earnings 350 and profit 245. |
| Ledger.EmptyNumbersBecomeZero | src/App.js:66-68 | An empty clicks, cost or earnings field is stored as 0. |
| Ledger.UnparsedNumbersExample | src/App.js:61-69 | A form with clicks "abc", cost "" and earnings "10" yields clicks 0, cost 0, earnings 10 and profit 10. |
| Ledger.WithoutIdContents | src/App.js:83-85 | After a delete, each record without the id occurs exactly as often as before, and no record carrying the id remains. |
| Ledger.WithoutIdConcat | src/App.js:83-85 | Deleting from a concatenation deletes from each part separately, so the surviving records keep their relative order. |
| Ledger.WithoutAbsentId | src/App.js:83-85 | Deleting an id that no record carries leaves the list unchanged. |
| Ledger.WithoutIdIdempotent | src/App.js:83-85 | Deleting the same id twice is the same as deleting it once. |
| Ledger.DeleteUndoesAdd | src/App.js:71-85 | Deleting a just-appended record restores the previous list, provided its id was not already in use. |
| Ledger.SharedIdDeletesBoth | src/App.js:83-85 | When two records share an id, deleting that id removes both. |
| Ledger.AddAddDelete | src/App.js:71-85 | Adding A, then B with a different id, then deleting A leaves exactly `[B]`. The totals are then B's own figures. |
| Ledger.AddAddDeleteThroughHandlers | src/App.js:55-85 | On the starting ledger, submitting two complete forms through `HandleSubmit`, with different ids the seed does not use, then deleting the first id through `DeleteCampaign`, leaves the seed followed by exactly the second campaign. |
| Ledger.CampaignLedger.constructor | src/App.js:4-45 | The ledger starts with the three seed campaigns and the selection (name, ascending). |
| Ledger.CampaignLedger.HandleSubmit | src/App.js:55-81 | The submit is rejected exactly when name, start date or end date is empty. A rejection reports the alert's message and leaves the list unchanged. Otherwise exactly one record is appended at the end and the earlier records are unchanged. The new record has the given id. Name and dates are copied verbatim. Clicks, cost and earnings are the parsed values, or 0 where parsing failed. Each summary total grows by the new record's share. |
| Ledger.CampaignLedger.DeleteCampaign | src/App.js:83-85 | The new list is the old one with every record carrying the id removed. |
| Ledger.CampaignLedger.HandleSort | src/App.js:91-98 | The new selection is `Toggle` of the old one, and the stored list is unchanged. |

## Left out

- Rendering (the JSX, the summary cards, the table markup, `SortIcon`) is presentation only and is not modelled.
- `formatDate` is not modelled. It depends on JavaScript's `Date` and on locale formatting.
- The `localStorage.setItem` effect is browser I/O and is not modelled. Its key is spelled `campaings` and is never read back.
- The form's UI state is not modelled: `handleInputChange`, `showForm`, and the form reset after a successful submit.
- `Date.now()` is not modelled; the id is a parameter of `HandleSubmit`.
- `parseInt` and `parseFloat` are not modelled; their results are a parameter. `EmptyNumbersBecomeZero` assumes only that the empty text parses to NaN.
- Floating point is not modelled: no rounding, no NaN and no Infinity. One infinite cost or earnings makes profit an infinity, which `<` and `>` still order consistently. Profit is NaN only when cost and earnings are the same infinity. The comparator then returns 0 against every row and is no longer a consistent order. An infinite cost also makes the row's percentage NaN.
- The `toFixed(0)` display rounding of the percentage is not modelled.
- Strings are compared by Dafny character code. JavaScript compares UTF-16 code units, so the two orders differ only for characters outside the Basic Multilingual Plane.
- `SortField` holds only the six columns the code sorts by: the initial `name`, and the five clickable headers.
- The alert dialog becomes the `Rejected` outcome.
