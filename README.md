# Debt tracker: a verified model of its data layer

The debt tracker is a single-page dashboard for personal liabilities. It covers credit cards, loans, mortgages and other debts. Each account keeps a dated history of observed balances.

This Dafny project models the part of the dashboard that decides what it shows. That part is the unit the model covers:

- **Account model and seed data** (`src/types.ts`):
  - the four account kinds;
  - balance entries and accounts;
  - the two seed accounts, a Chase Sapphire card and an auto loan.
- **Account-list updates**, the `App` component's event handlers (`src/App.tsx`):
  - recording a balance, which appends the entry and re-sorts the history by date;
  - adding an account, which goes last under a new id with a one-entry history;
  - deleting the accounts with an id, once the user confirms;
  - resetting all data;
  - saving the API key;
  - writing the account list back to browser storage;
  - the guards the two forms put in front of the handlers.
- **Derived views** (`src/App.tsx`):
  - the credit-card list, ordered by interest rate from highest to lowest (the "avalanche" payoff order);
  - the list of other liabilities;
  - the tiles for total liabilities, credit-card debt and debt reduced.
- **Chart series** (`src/components/Charts.tsx`):
  - credit-card debt summed per date;
  - one value per card per date;
  - the liabilities series, either for one selected account or summed over all accounts.

Modelling choices:

- **Dates** are `nat`s written as YYYYMMDD. On the ISO `YYYY-MM-DD` strings the source stores, numeric order is chronological order, and two dates are equal exactly when their strings are.
- **Balances** are `real`. Interest rates are `int`; the seed rates are written in basis points (24.99% is 2499).
- **Sorting.** JavaScript's `Array.prototype.sort` is stable. It is modelled as `Sorting.SortBy`, a stable insertion sort. `Sorting.SortByUnique` shows that any sorted, stable rearrangement equals it, so the model does not depend on which stable algorithm is used.
- **The date maps.** The chart code builds a JavaScript `Map` keyed by date. It is modelled as a sequence of keys in insertion order plus a Dafny `map`. `Charts.ValueAt` reads it as `get(d) || 0`.
- **The two summing loops** (`Charts.SumByDate`) are imperative methods with loop invariants. They are proved against `Charts.SummedByDate`, a declarative description of the summed series.
- **Filled in.** Three parts of the source are filled in with definitions of their own:
  - a sequence filter, `Seqs.Filter`;
  - a left-to-right sum, `Seqs.SumBy`, the source's `reduce` from 0;
  - the stable sort.

## Model

| member | source | states |
|---|---|---|
| SeedScenario.SeedWellFormed | src/types.ts:20-43 | the seed ids are distinct, and every seed history is non-empty and strictly ascending by date |
| SeedScenario.SeedSplit | src/App.tsx:326-334 | for the seed data, the credit-card list is exactly the Chase card and the other liabilities are exactly the auto loan |
| SeedScenario.SeedTotals | src/App.tsx:336-356 | for the seed data, the three tiles read 28700 owed, 4500 of it on cards, and 1300 paid down |
| SeedScenario.SeedCombinedSeries | src/components/Charts.tsx:75-85 | any series that sums the seed accounts per date is exactly the three points 30000, 29400 and 28700 |
| SeedScenario.SeedCardDebtSeries | src/components/Charts.tsx:26-40 | any series that sums the seed cards per date is exactly the three points 5000, 4800 and 4500 |
| Seqs.Filter | src/App.tsx:328 | the result is no longer than the input, and every element kept satisfies the predicate |
| Seqs.FilterMembers | src/App.tsx:313 | an element is in the filtered list if and only if it is in the list and satisfies the predicate |
| Sorting.SortBy | src/App.tsx:295 | sorting keeps the length and the multiset of elements |
| Sorting.SortBySorted | src/App.tsx:295 | the sorted list is in ascending key order |
| Sorting.SortByStable | src/App.tsx:295 | for every key, elements with that key keep their original relative order |
| Sorting.SortByUnique | src/App.tsx:295 | any rearrangement that is both sorted and stable equals the stable sort, both for the comparator sorts here and for those in src/components/Charts.tsx:39, 49, 72 and 85 |
| Sorting.SortByDistinctKeys | src/components/Charts.tsx:49 | when no two keys are equal, the sorted list is strictly increasing |
| Sorting.SortBySortedIdentity | src/App.tsx:295 | sorting a list that is already sorted returns it unchanged |
| Sorting.SortAppendLatest | src/App.tsx:295 | an element appended with a key at least every other key stays last after the sort, ties included |
| Sorting.SortAppendEarlier | src/App.tsx:295 | an element appended with a key below the last key does not become last; the old last element stays last |
| Views.CreditCards | src/App.tsx:326-330 | the result holds the same accounts as the credit-card filter; it contains only credit cards; rates never increase along it; and cards with equal rates keep list order |
| Views.TopRankHighestRate | src/App.tsx:329 | if any credit card exists, the list is non-empty and its first card carries the highest rate of all cards |
| Views.Partition | src/App.tsx:326-334 | credit cards and other liabilities together hold every account exactly once, and no other liability is a credit card |
| Views.LiabilitiesSplit | src/App.tsx:336-344 | total liabilities equals credit-card debt plus the sum of the current balances of the other liabilities |
| Views.DebtReducedSplit | src/App.tsx:346-356 | debt reduced equals the sum of first balances minus total liabilities |
| Views.TotalDebtReduced | src/App.tsx:346-356 | the loop returns the debt-reduced total, which is the sum of first balances minus total liabilities |
| Ledger.RecordBalance | src/App.tsx:291-298 | length, order, ids, names, kinds and rates are unchanged; other accounts are untouched; the matching account's history gains exactly the new entry and is sorted by date and stable |
| Ledger.RecordBalanceUnknownId | src/App.tsx:292-293 | recording for an id no account has changes nothing |
| Ledger.RecordBalanceIsStableSort | src/App.tsx:295 | the new history is the stable date sort of the old history plus the entry |
| Ledger.RecordBalanceLatest | src/App.tsx:295 | an entry dated on or after every existing entry, a same-day entry included, becomes the current balance |
| Ledger.RecordBalanceEarlier | src/App.tsx:295 | a back-dated entry leaves the current balance unchanged |
| Ledger.RecordBalanceChronological | src/App.tsx:291-298 | recording a balance keeps every history in date order |
| Ledger.ReductionUnchanged | src/App.tsx:346-356 | re-recording an account's current balance at a later date leaves its reduction unchanged |
| Ledger.DebtReducedUnchanged | src/App.tsx:346-356 | recording a balance equal to the current balance, on or after the latest date, leaves debt reduced unchanged |
| Ledger.DebtReducedAfterRecord | src/App.tsx:346-356 | recording a new latest balance raises debt reduced by the old current balance minus the new one |
| Ledger.AddAccountTotal | src/App.tsx:300-309 | adding an account raises total liabilities by exactly its initial balance |
| Ledger.AddAccountDistinct | src/App.tsx:302 | adding an account under a fresh id keeps ids distinct |
| Ledger.AddAccountChronological | src/App.tsx:306 | adding an account keeps every history in date order |
| Ledger.WithoutAccount | src/App.tsx:313 | deleting is the filter of the accounts not carrying the id: it never lengthens the list and no account left carries the id |
| Ledger.WithoutAccountMembers | src/App.tsx:313 | no account left carries the id, every account left was there before, and every account with another id stays |
| Ledger.WithoutAccountUnknownId | src/App.tsx:313 | deleting an id no account has changes nothing |
| Ledger.WithoutAccountAt | src/App.tsx:313 | deleting the id of an account no other account shares removes exactly that account and keeps the order of the rest |
| Ledger.DeleteTotal | src/App.tsx:311-315 | deleting such an account lowers total liabilities by exactly its current balance |
| Ledger.DeleteCardDebt | src/App.tsx:311-315 | deleting such an account lowers credit-card debt by its current balance when it is a credit card, and leaves it unchanged otherwise |
| Ledger.DeleteOnlyCard | src/App.tsx:311-315 | deleting the only credit card leaves the avalanche list empty and credit-card debt at 0 |
| Ledger.WithoutAccountInvariants | src/App.tsx:313 | deleting keeps ids distinct and histories in date order |
| Dashboard.Dashboard.constructor | src/App.tsx:262-266 | on load, the accounts are the saved list if there is one, else the seed data; the key is the saved key, else "" |
| Dashboard.Dashboard.AddBalance | src/App.tsx:291-298 | the accounts become the result of recording the balance; storage follows; the key is untouched |
| Dashboard.Dashboard.AddAccount | src/App.tsx:300-309 | the new account is appended last; storage follows; distinct ids are kept when the id is fresh; date order is kept |
| Dashboard.Dashboard.DeleteAccount | src/App.tsx:311-315 | once confirmed, every account with the id is removed; without confirmation nothing changes |
| Dashboard.Dashboard.ResetData | src/App.tsx:203-208 | once confirmed, the list is emptied and storage follows; the key stays |
| Dashboard.Dashboard.SaveApiKey | src/App.tsx:280-283 | the key is set in memory and in storage; accounts are untouched |
| Dashboard.Dashboard.SubmitBalance | src/App.tsx:54-61 | the form submits if and only if an account, an amount and a date are all given, and only then records the balance |
| Dashboard.Dashboard.SubmitAccount | src/App.tsx:127-142 | the form submits if and only if name, rate and balance are all given, and only then adds the account dated today |
| Dashboard.Reload | src/App.tsx:262-278 | after any handler, a reload restores the same accounts and the same key from storage |
| Charts.SumByDate | src/components/Charts.tsx:75-85 | the two loops over histories plus the sort yield a series strictly increasing by date, with exactly the dates that occur in some history, each carrying the sum of all balances on that date, and together summing to every balance recorded |
| Charts.SummedByDateUnique | src/components/Charts.tsx:83-85 | two series that meet that description for the same accounts are equal |
| Charts.CreditCardSeries | src/components/Charts.tsx:26-40 | the credit-card chart is the per-date sum over the credit cards only |
| Charts.AmountOnSplit | src/components/Charts.tsx:26-40 | on every date, the combined amount is the credit-card amount plus the amount of the other liabilities |
| Charts.CardDatesInCombined | src/components/Charts.tsx:26-40 | every date of the credit-card series is also a date of the combined series |
| Charts.DatesOfFilter | src/components/Charts.tsx:27 | the dates of a filtered account list are among the dates of the full list |
| Charts.FirstOn | src/components/Charts.tsx:55 | the result is None if and only if no entry has exactly that date; otherwise it is the first such entry |
| Charts.CardValuesMembers | src/components/Charts.tsx:53-58 | a per-card point has a value under a name if and only if some card of that name has an entry on exactly that date |
| Charts.CardValuesAt | src/components/Charts.tsx:53-58 | for a card whose name no other card shares, the point has its name if and only if the card has an entry on that date, and the value is that card's first entry on the date |
| Charts.PointOn | src/components/Charts.tsx:51-61 | the loop over the cards fills in the point for the date with exactly the per-card values |
| Charts.CollectDates | src/components/Charts.tsx:46-47 | the set of dates lists each date once, and exactly the dates on which some card has an entry |
| Charts.PointsOn | src/components/Charts.tsx:51 | one point per date, in the order of the dates |
| Charts.CardSeries | src/components/Charts.tsx:43-62 | points are strictly increasing by date; they cover exactly the dates of the credit-card histories; each carries the per-card values of its date |
| Charts.FindAccount | src/components/Charts.tsx:68-69 | the result is None if and only if no account has the id; otherwise it is the first account with it |
| Charts.HistorySeries | src/components/Charts.tsx:70-72 | one point per history entry, the same points, sorted by date |
| Charts.HistorySeriesInOrder | src/components/Charts.tsx:70-72 | a history already in date order is charted point for point in that order |
| Charts.LiabilitySeries | src/components/Charts.tsx:65-87 | with "all", the series is the per-date sum over all accounts; for an unknown id, it is empty; otherwise it is the selected account's own history, sorted by date |

## Left out

- Rendering: the JSX, colours, tooltips, icons and the recharts components are not modelled. Neither is the open/closed state of the modals, nor the stat formatting.
- Browser storage and JSON: storage slots are fields holding already-parsed values. A stored list that `JSON.parse` would reject, which throws in the source, is not modelled.
- Confirmation dialogs: `window.confirm` and `confirm` are not modelled as dialogs. Their answer is the `confirmed` parameter.
- Dashboard.Dashboard.AddAccount: the source draws the new id with `Math.random`. Here it is a parameter, and distinct ids are promised only when the id is fresh. Collisions of random ids are not modelled.
- Dashboard.Dashboard.SubmitAccount: the rate field holds the parsed percentage times 100 as an integer (basis points), so a rate finer than 0.01 is not representable. The rate input's step is 0.01 (src/App.tsx:165), but typed-in finer values are not modelled.
- Number parsing: `parseFloat`, NaN and floating-point rounding are not modelled. For the forms, a field is either blank or holds the number it parses to (for the rate, that number times 100). Balances are exact reals.
- Dates: `new Date(...)` parsing of malformed date strings is not modelled. Neither is the time-zone handling of `toISOString` for "today".
- The update-balance modal: the default selection of the first account, and its refresh when accounts change (src/App.tsx:41-50), are left out of the model. The form's guard is modelled on whatever id is selected.
- AI advice: `fetchAIAdvice` and src/services/geminiService.ts are not part of this model. They call an external service asynchronously.
- Charts.LiabilitySeries: an account whose id is literally "all" cannot be selected on its own, because the source treats "all" as the combined view. The model has the same behaviour.
- Charts.CardSeries: each point keeps the date apart from the per-card values. The source writes card names as keys on the same object as `date`, so a card named "date" would overwrite it. That overwrite is not modelled.
- Charts.CardValuesAt: states the value a card contributes only for a card whose name no other card shares. With shared names, the source lets the last card overwrite earlier ones, and the model's `Charts.CardValues` does the same. Charts.CardValuesMembers still covers membership for shared names.

## Notes

- The comment at src/components/Charts.tsx:54 says "closest entry on or before this date". The code matches only entries dated exactly on the date (line 55). The model follows the code. A card with no entry on a date has no value at that point.
- Deleting and recording a balance act on every account with the given id, not just the first. Ids are distinct for the seed data (`SeedScenario.SeedWellFormed`), and deletion keeps them distinct (`Ledger.WithoutAccountInvariants`).
