# Procurement risk dashboard: verified model of its logic

The repository is a React dashboard for spotting risky public-procurement contracts. It runs over mock data. Nearly all of it is rendering. This project models the three places that hold logic:

- **The mock-data generator** (`scripts/generate-mock-data.js`), in `generator.dfy`. It covers:
  - `generateMockContracts`: the `for` loop that builds numbered contract records, with its four risk-escalation rules;
  - the batch statistics computed over the loop's output.
- **The data service** (`lib/data-service.ts`), in `data_service.dfy`. It covers:
  - the record shapes;
  - the risk-band filter of `getContracts`;
  - the module-level algorithm list that `updateAlgorithmSettings` changes in place, modelled as a class over an array;
  - the export path;
  - the copy returned by `getUpdatedAlgorithmMetrics`.
- **The decision helpers of the page component** (`app/page.tsx`), in `page.dfy`. These are:
  - the risk badge, and the status icon and label;
  - the algorithm toggle, and the settings switch with its rollback;
  - the category-risk classification;
  - the performance-chart filter;
  - the tab dispatcher.

  The page replaces whole lists through `setAlgorithms`, so each helper is a function from the old list to the new one.

`sequences.dfy` holds `Array.prototype.filter` and the order-preserving subsequence relation. `wrappers.dfy` holds the `Option` type, which stands for `undefined`, absent fields and `NaN`.

### How randomness is modelled

`Math.random()` becomes injected draws in [0, 1), one `RecordDraws` value per record. It has one field per call site of the loop body, in source order. The imperative loop (`GenerateMockContracts`, with `GenerateRecord` and `ScoreRecord` for its body) is proved to return exactly `Generated(count, draws)`. What the source promises is then proved about `Generated`:

- ids and sequence numbers;
- bounds on the amount, participants, score and date;
- the single-participant equivalence;
- the rule floors surviving the one-decimal rounding;
- indicator order, with no duplicates;
- status never being cancelled;
- the 90/70 partition and the average amount.

### Design choices and observations

- **`count <= 0`.** The code never checks `count`: such a count runs the loop zero times and returns an empty list.
- **Average of an empty batch.** It divides 0 by 0 and gives `NaN`, which is modelled as `None`.
- **The two threshold sets.** The generator's statistics use 90/70. The service filter and the page badge use 80/40. They stay separate, and `ThresholdSetsDiffer` exhibits a score the two sides classify differently.
- **Toggle and store on duplicate names.** The page's toggle and switch change every entry with the given name. The store changes only the first. With distinct names, as in the shipped list, the two agree (`ToggleAgreesWithStore`, `SwitchAgreesWithStore`).
- **The switch rollback.** It only runs when `updateAlgorithmSettings` rejects, and the service as written always resolves `true`, so the rollback is never reached in this codebase.

## Model

| member | source | states |
|---|---|---|
| DataService.GetSystemStats | lib/data-service.ts:118-122 | resolves the fixed counters, whose high, medium and low counts add up to the total |
| DataService.InBand | lib/data-service.ts:136-140 | the 80/40 bands: high is a score >= 80, medium is a score in [40, 80), low is a score < 40 |
| DataService.GetContracts | lib/data-service.ts:124-145 | a contract is in the result iff it is in the list and its score is in the requested band (any score when no risk level is given) |
| DataService.GetMockContracts | lib/data-service.ts:134-142 | over the three shipped contracts: a contract is returned iff it is one of them and in the requested band; with no filters all three come back |
| DataService.GetContractsWithoutLevelIsCopy | lib/data-service.ts:134-142 | with no filters or no `riskLevel`, the result is the whole list in its original order |
| DataService.GetContractsIsBandSubsequence | lib/data-service.ts:135-141 | with a risk level, the result is an order-preserving subsequence of the list, and every element lies in the band |
| DataService.GetContractsIgnoresCategoryAndDates | lib/data-service.ts:124-141 | two filter objects with the same risk level give the same result, whatever their category and dates |
| DataService.BandsAreExclusive | lib/data-service.ts:137-139 | every score is in exactly one of high >= 80, 40 <= medium < 80, low < 40 |
| DataService.BandResultsPartitionContracts | lib/data-service.ts:135-141 | the three band results together are exactly as long as the contract list |
| DataService.MockContractsByBand | lib/data-service.ts:35-72 | on the shipped data, high gives the first two contracts, medium gives none and low gives the third |
| DataService.IndexOfName | lib/data-service.ts:157 | `findIndex`: -1 iff no entry has the name; otherwise that entry has the name and no earlier one does |
| DataService.Merge | lib/data-service.ts:159 | the spread merge keeps the entry's own `enabled` and `name` when the settings omit them |
| DataService.UpdatedAlgorithms | lib/data-service.ts:157-160 | the update never changes the length of the list |
| DataService.MergeEnabledOnly | lib/data-service.ts:159 | merging `{ enabled: b }` sets `enabled` to b and leaves name, detected, accuracy and description alone |
| DataService.UpdateReplacesOnlyFirstMatch | lib/data-service.ts:157-160 | when entry k is the first with the name, slot k becomes its merge with the settings and every other slot is unchanged |
| DataService.UpdateUnknownNameIsNoOp | lib/data-service.ts:157-158 | an unknown name leaves the list unchanged |
| DataService.UpdateEnabledIsIdempotent | lib/data-service.ts:157-160 | sending the same `{ enabled: b }` twice has the effect of sending it once |
| DataService.AlgorithmStore.constructor | lib/data-service.ts:85-114 | the store starts as the four shipped algorithms, all enabled |
| DataService.AlgorithmStore.FindIndex | lib/data-service.ts:157 | the loop finds the index `IndexOfName` specifies |
| DataService.AlgorithmStore.UpdateAlgorithmSettings | lib/data-service.ts:152-163 | the array afterwards is `UpdatedAlgorithms` of the array before, and the call reports success whether or not a match was found |
| DataService.AlgorithmStore.GetAlgorithmMetrics | lib/data-service.ts:147-150 | hands out the store's own array, not a copy |
| DataService.AlgorithmStore.GetUpdatedAlgorithmMetrics | lib/data-service.ts:171-173 | returns an element-wise equal copy of the array |
| DataService.ExportData | lib/data-service.ts:165-169 | the path is `/downloads/report.` followed by the format name |
| DataService.ExportPathRoundTrip | lib/data-service.ts:168 | reading the format back from `ExportData(f)` gives f, and only that path reads back as f |
| Generator.Round | scripts/generate-mock-data.js:76 | `Math.round` lands within half a unit of its argument |
| Generator.ScaledIndex | scripts/generate-mock-data.js:42 | `Math.floor(u * n)` of a draw is an index in [0, n) |
| Generator.Pick | scripts/generate-mock-data.js:74-77 | picking from a list by a draw gives an element of the list |
| Generator.DecimalString | scripts/generate-mock-data.js:73 | `String(n)` is a non-empty string of digits with no leading zero |
| Generator.PadStart | scripts/generate-mock-data.js:73 | `padStart` prepends fill characters up to the width and never cuts a longer string |
| Generator.DecimalRoundTrip | scripts/generate-mock-data.js:73 | reading `String(n)` back as a number gives n |
| Generator.ContractId | scripts/generate-mock-data.js:73 | the id starts with `TNR_`, followed by at least six characters, all of them digits |
| Generator.ContractIdRoundTrip | scripts/generate-mock-data.js:73 | the id of record k has prefix `TNR_`, then k zero-padded to at least six digits (so it is at least ten characters long), and reads back as k |
| Generator.ContractIdInjective | scripts/generate-mock-data.js:73 | different sequence numbers give different ids |
| Generator.Fire | scripts/generate-mock-data.js:49-52 | a fired rule never lowers the score, reaches at least floor + u * span, and appends its tag |
| Generator.GatedRule | scripts/generate-mock-data.js:61-70 | a gated rule never lowers the score, and either changes nothing or appends its tag |
| Generator.SingleParticipantRule | scripts/generate-mock-data.js:55-58 | the single-participant rule never lowers the score |
| Generator.ScoreContract | scripts/generate-mock-data.js:45-70 | the final score is at least the baseline draw times 100 |
| Generator.MakeRecord | scripts/generate-mock-data.js:72-85 | record k carries the id `ContractId(k)` |
| Generator.FireKeepsInvariant | scripts/generate-mock-data.js:49-70 | firing the next rule in order keeps the score below 100, keeps every fired rule's floor and keeps the tags a subsequence of rule order |
| Generator.SkipKeepsInvariant | scripts/generate-mock-data.js:49-70 | skipping the next rule keeps the same invariant |
| Generator.GatedRuleKeepsInvariant | scripts/generate-mock-data.js:61-70 | a gated rule keeps the invariant whether its gate opens or not |
| Generator.SingleParticipantKeepsInvariant | scripts/generate-mock-data.js:55-58 | after the single-participant rule, one participant holds iff its tag is present |
| Generator.ScoreContractInvariant | scripts/generate-mock-data.js:45-70 | after the four rules: score in [0, 100), every fired rule's floor holds, tags follow rule order, and one participant iff the single-participant tag |
| Generator.RoundToTenth | scripts/generate-mock-data.js:82 | `Math.round(x * 10) / 10` lies within 0.05 of x (above x - 0.05, at most x + 0.05) |
| Generator.RoundToTenthBounds | scripts/generate-mock-data.js:82 | rounding a score in [0, 100) to one decimal stays in [0, 100] and leaves at most one decimal digit |
| Generator.RoundToTenthKeepsFloor | scripts/generate-mock-data.js:82 | rounding never takes a score below a whole-number floor it had reached |
| Generator.RoundingKeepsFloors | scripts/generate-mock-data.js:82 | each fired rule's floor (85, 70, 80, 75) survives the rounding |
| Generator.MakeRecordWellFormed | scripts/generate-mock-data.js:41-85 | every record: participants in [1, 8]; amount in [50000, 2050000]; score a multiple of 0.1 in [0, 100]; one participant iff the single-participant tag, and each tag's floor holds; tags a duplicate-free subsequence of rule order with at most four entries; status completed or in progress, never cancelled; customer, supplier and category from their lists; the date in 2024 with month 1-12 and day 1-28 |
| Generator.Generated | scripts/generate-mock-data.js:40-88 | the loop's result has max(count, 0) records |
| Generator.GeneratedStep | scripts/generate-mock-data.js:72-86 | one iteration pushes record i after the first i - 1 |
| Generator.GeneratedElement | scripts/generate-mock-data.js:40-88 | the j-th record of the batch is the one built in iteration j + 1 |
| Generator.GeneratedContracts | scripts/generate-mock-data.js:40-88 | every record of a batch is well formed, and record j has the id of sequence number j + 1, which it reads back |
| Generator.GeneratedIdsDistinct | scripts/generate-mock-data.js:73 | no two records of a batch share an id |
| Generator.ScoreRecord | scripts/generate-mock-data.js:45-70 | the imperative rule chain computes exactly the score and tags `ScoreContract` specifies |
| Generator.GenerateRecord | scripts/generate-mock-data.js:41-85 | the loop body builds exactly `MakeRecord(i, d)` |
| Generator.GenerateMockContracts | scripts/generate-mock-data.js:5-89 | the loop returns exactly `Generated(count, draws)`, so the properties proved of `Generated` hold for it |
| Generator.IsHighRisk | scripts/generate-mock-data.js:95 | the generator's high class: score >= 90 |
| Generator.IsMediumRisk | scripts/generate-mock-data.js:96 | the generator's medium class: score in [70, 90) |
| Generator.IsLowRisk | scripts/generate-mock-data.js:97 | the generator's low class: score < 70 |
| Generator.SumAmounts | scripts/generate-mock-data.js:98 | the `reduce` sum: never negative when no amount is, and a single contract's sum is its amount |
| Generator.AverageAmount | scripts/generate-mock-data.js:98 | the average is undefined (`NaN`) exactly for the empty batch |
| Generator.Statistics | scripts/generate-mock-data.js:108-118 | total is the batch length, and each class count is at most the total |
| Generator.StatisticsPartition | scripts/generate-mock-data.js:95-97 | the 90/70 classes are disjoint and cover every score, so their counts add up to the total |
| Generator.SumAmountsBounds | scripts/generate-mock-data.js:98 | with every amount in [lo, hi], the sum lies between n * lo and n * hi |
| Generator.MeanWithinBounds | scripts/generate-mock-data.js:98 | a sum between n * lo and n * hi has its mean in [lo, hi] |
| Generator.AverageWithinBounds | scripts/generate-mock-data.js:98 | the rounded mean of amounts in [lo, hi] is in [lo, hi] |
| Generator.GeneratedStatistics | scripts/generate-mock-data.js:92-98 | for a generated batch of count > 0: total is count, the classes add up to count, and the average exists and lies in [50000, 2050000] |
| Generator.ThresholdSetsDiffer | scripts/generate-mock-data.js:95-96 | a score of 85 is high under the page's 80/40 bands but medium under the generator's 90/70 classes |
| Page.GetRiskBadge | app/page.tsx:246-250 | the badge chosen for a score is a band that contains the score |
| Page.RiskBadgeIsFilterBand | app/page.tsx:246-250 | a score gets a badge iff it lies in that band of the `getContracts` filter |
| Page.FilteredContractsShowTheirBadge | app/page.tsx:246-250 | filtering contracts by a risk level keeps exactly the contracts whose badge shows that level |
| Page.GetStatusIcon | app/page.tsx:252-261 | the check icon iff completed, the clock iff in progress; anything else gets the alert icon |
| Page.StatusLabel | app/page.tsx:359 | the label is "Завершен" iff the status is completed, and "В процессе" for every other status |
| Page.StatusLabelFollowsIcon | app/page.tsx:252-261 | the label is "Завершен" iff the icon is the check; a cancelled contract shows the alert icon with "В процессе" |
| Page.ToggleAlgorithm | app/page.tsx:149-151 | keeps length and every field except `enabled`, and flips `enabled` exactly on the entries with the name |
| Page.ToggleTwiceRestores | app/page.tsx:149-151 | toggling the same name twice restores the list |
| Page.ServerEnabledValue | app/page.tsx:156-158 | the value sent is the negation of the first entry with that name's `enabled` before the toggle; with no such entry, `!undefined` sends `true` |
| Page.ToggleAgreesWithStore | app/page.tsx:148-162 | with distinct names, the store after the update the toggle sends equals the page's toggled list |
| Page.SetEnabled | app/page.tsx:801-803 | keeps length and every field except `enabled`; entries with the name get `checked`, all others are unchanged |
| Page.SetEnabledIdempotent | app/page.tsx:801-803 | setting the same switch position twice equals setting it once |
| Page.SwitchAgreesWithStore | app/page.tsx:799-810 | with distinct names, the store after `{ enabled: checked }` equals the page's list |
| Page.SwitchHandler | app/page.tsx:799-814 | on rejection the list is exactly the prior list; on success it is the set-to-checked list |
| Page.ToggleHandler | app/page.tsx:148-162 | the list after the toggle handler is the toggled list whatever the outcome: a rejection is only logged, with no rollback |
| Page.HandlersKeepShape | app/page.tsx:799-814 | after either handler, whatever the outcome, length and names are kept and entries with other names are untouched |
| Page.CategoryBadgeColour | app/page.tsx:580-584 | red iff the risk is above 20, green iff it is at most 10, yellow in between |
| Page.CategoryRiskText | app/page.tsx:591-597 | "Требует внимания" iff the risk is above 20, "Низкий риск" iff it is at most 10, "Умеренный риск" in between |
| Page.CategoryColourMatchesText | app/page.tsx:578-597 | badge colour and text use the same strict bands (red iff "Требует внимания", and so on); 20 is moderate and 10 is low |
| Page.CategoryColourMonotone | app/page.tsx:580-584 | a higher risk never gets a milder colour |
| Page.EnabledForChart | app/page.tsx:221 | an algorithm is in the chart iff it is in the list and enabled |
| Page.ChartShowsEnabledInOrder | app/page.tsx:221 | the chart is an order-preserving subsequence holding as many entries as there are enabled algorithms, all of them enabled |
| Page.SwitchControlsChart | app/page.tsx:221 | after the switch, the switched entry is in the chart iff it was switched on |
| Page.RenderContent | app/page.tsx:980-995 | any view other than the dashboard is chosen only by its own tab id |
| Page.RenderContentRoundTrip | app/page.tsx:980-995 | each view's tab id selects it, and an id that is none of the five shows the dashboard |

## Left out

- Generator.GenerateMockContracts: `count` is an explicit integer argument. The default `count = 1000` (line 5) is not modelled, and neither are non-integer or `NaN` counts, for which the `i <= count` loop runs a different number of times.
- Simulated latency and promises (`setTimeout`, `async`/`await`, `Promise.all`, `loadData`): every operation is synchronous.
- `console.log`, `console.error`, `alert` and `toLocaleString` output.
- JSX, CSS classes, charts, icons and the sidebar. A badge, icon or view is a datatype value.
- Percentage and billion formatting in the stats cards and the risk chart: this is display-only float arithmetic.
- Hard-coded chart and analytics data in the page, apart from the category-risk thresholds.
- Writing the generated data to disk: `fs` is loaded but nothing is written, and `mockData` (lines 108-118) is modelled only as its statistics.
- IEEE floating point. Scores and amounts are exact reals, and `Math.round` is round-half-up, which matches for the non-negative values used here.
- Generator.MakeRecord: `new Date(2024, month, day).toISOString().split("T")[0]` is modelled as a calendar date (2024, month + 1, day). The time-zone shift the ISO string can introduce is not modelled.
- Generator.Generated: the draws are grouped per record, one field per `Math.random()` call site. A rule whose gate stays shut leaves its span field unread, where the source would hand that value to the next call. Every run of the source matches some choice of draws, so what is proved for all draws holds for every run. What the model does not capture is how one stream of values is shared out among call sites.
- DataService.Contract dates: the mock contracts' date strings are calendar dates here.
- DataService.AlgorithmSettings: `settings: any` is modelled as the five known optional fields. Extra keys, and keys explicitly set to `undefined`, are not modelled.
- DataService.AlgorithmStore.GetAlgorithmMetrics: the page stores the returned array, so it aliases the store's array until the first `setAlgorithms`. The page model works on list values and does not follow that aliasing.
- The contracts table's search box and risk select keep state but are never applied to the rows, so there is nothing to model.
