# Ledger engine of a shared-expense tracker, in Dafny

This project models the settlement engine of a group expense-splitting app,
`src/lib/logic.ts`, and proves properties of it. The engine has three
operations over the shapes in `src/lib/types.ts` and the `Balance` record:

- `calculateBalances` folds a group's expense history into one net balance
  per participant. Every roster member starts at 0. Each `paidBy` value is
  added to its payer and each `splitDetails` value is subtracted from its
  participant. Ids that only an expense names are created on first use.
- `getSuggestedPayer` names the participant with the lowest balance. It
  names nobody when the list is empty or when that balance is within a cent
  of zero.
- `calculateSettlements` proposes transfers that pay debts off.
  - It clones the balances.
  - It keeps the debtors (below -0.01) sorted from most negative and the
    creditors (above 0.01) sorted from most positive.
  - It walks both lists with two cursors. Each step moves
    `min(|debt|, credit)` and records a transfer, rounded to cents, when that
    amount exceeds half a cent.
  - A cursor moves on once its party is within a cent of zero.

Modules, one per concern:

| file | module | models |
|---|---|---|
| `types.dfy` | `Types` | `User`, `Expense`, `Transaction`; an object `{ [id]: number }` as its list of entries |
| `numbers.dfy` | `Numbers` | `Math.abs`, `Math.min`, `Number(x.toFixed(2))` on exact reals |
| `balances.dfy` | `BalanceCalculator` | `Balance`; `calculateBalances` as methods with loops over a `map` accumulator and its key order, proved equal to the specification `BalancesOf` |
| `sorting.dfy` | `StableSort` | `Array.prototype.sort` with the engine's comparators, a stable sort |
| `payer.dfy` | `PayerSuggester` | `getSuggestedPayer`, a function |
| `settlements.dfy` | `SettlementPlanner` | `calculateSettlements` as a method that runs the `while` loop over two fresh arrays, proved equal to the recursive specification `Match` |
| `scenarios.dfy` | `Scenarios` | the worked examples of `verify-logic.ts` and `test-logic.ts`, and a group the planner leaves unsettled |

The engine does not guarantee that paying the planned transfers brings every
balance to within a cent of zero. Such a guarantee is what one would
expect of a settlement plan. `Scenarios.DeadZoneLeavesDebt` shows a group
that breaks it. The balances are A -0.018, B 0.009 and C 0.009. They add up
to zero and A owes almost two cents. Yet B and C are each owed less than a
cent, so neither counts as a creditor, and no transfer is planned. The model
proves what does hold instead:
- the total planned, give or take half a cent per party for rounding, is at
  most the debt and at most the credit, and it reaches all of the debt or all
  of the credit but for up to a cent per party on that side
  (`SettlementPlanner.SettlementsVolume`);
- each transfer goes from a debtor to a creditor and moves at least a cent
  (`SettlementPlanner.Settlements`).

## Model

| member | source | states |
|---|---|---|
| Numbers.Abs | src/lib/logic.ts:40 | `Math.abs` is never negative and is the number itself or its negation. |
| Numbers.Min | src/lib/logic.ts:67 | `Math.min` of two numbers is one of them and no larger than either. |
| Numbers.RoundHalfUp2 | src/lib/logic.ts:74 | Rounding a non-negative amount to cents gives a whole number of cents within half a cent of it. The result is never negative, and it is at least a cent when the amount exceeds half a cent. |
| Numbers.Round2 | src/lib/logic.ts:74 | `Number(x.toFixed(2))` is within half a cent of `x`. It is a whole number of cents. It is at least a cent whenever `x` exceeds half a cent. |
| Numbers.WholeCents | src/lib/logic.ts:74 | Rounding is idempotent: an amount that is already whole cents rounds to itself. |
| BalanceCalculator.Post | src/lib/logic.ts:19 | Posting an amount to an id reads a missing key as 0, creates it and leaves every other key as it was. |
| BalanceCalculator.InsertAll | src/lib/logic.ts:18-24 | Assigning to a run of keys leaves exactly the old keys and the new ids. A key list without repeats stays without repeats. |
| BalanceCalculator.Accumulate | src/lib/logic.ts:18-24 | One `Object.entries(...).forEach` pass adds, or subtracts, every value of the object to its key. A missing key starts from 0. New keys are appended in first-use order. |
| BalanceCalculator.ApplyExpense | src/lib/logic.ts:16-25 | One expense adds each id's `paidBy` amount and subtracts its `splitDetails` amount. Its keys are created payers first. |
| BalanceCalculator.SeedRoster | src/lib/logic.ts:12-14 | Every roster id gets an accumulator holding 0, keyed in roster order; repeated ids share one key. |
| BalanceCalculator.Ledger | src/lib/logic.ts:9-25 | After both loops, each key holds what that id paid minus what it owes over the whole history. The keys are the roster, then new ids in the order the expenses first name them. |
| BalanceCalculator.CalculateBalances | src/lib/logic.ts:8-31 | The returned list equals the specification `BalancesOf`: one entry per key, in key-creation order. |
| BalanceCalculator.AmountForKey | src/lib/logic.ts:18-19 | In an object whose keys are distinct, the amount read for a key is that key's value. |
| BalanceCalculator.AccountsMembers | src/lib/logic.ts:19-23 | An id gets an accumulator exactly when it is on the roster or some expense names it, including ids created on demand. |
| BalanceCalculator.OneEntryPerId | src/lib/logic.ts:9-14 | No two output entries share an id, so duplicate roster ids collapse to one entry. |
| BalanceCalculator.EntryForEveryKnownId | src/lib/logic.ts:16-30 | The output has an entry for an id if and only if the id is on the roster or some expense names it. That entry holds the id's total `paidBy` minus its total `splitDetails`. |
| BalanceCalculator.RosterOrder | src/lib/logic.ts:27-30 | With a duplicate-free roster and expenses that name only roster members, the output is the roster in roster order, each with its net amount. |
| BalanceCalculator.IdleUserIsZero | src/lib/logic.ts:12-14 | A roster member that no expense names has exactly one entry, and it holds 0. |
| BalanceCalculator.AbsentFromHistoryIsZero | src/lib/logic.ts:16-25 | An id that no expense names has paid nothing and owes nothing. |
| BalanceCalculator.Conservation | src/lib/logic.ts:16-25 | The output amounts add up to the sum over expenses of payments minus shares, whatever the roster. |
| BalanceCalculator.BalancedHistorySumsToZero | src/lib/logic.ts:16-25 | When every expense's payments equal its shares, the output amounts add up to 0. |
| StableSort.InsertSorted | src/lib/logic.ts:37 | An insertion step keeps every element and adds exactly the inserted one. |
| StableSort.SortBy | src/lib/logic.ts:37 | The sorted copy is a permutation of the input (same multiset) and is ordered by the comparator. Tie order is stated by `StableSort.SortIsStable`. |
| StableSort.InsertSortedTies | src/lib/logic.ts:37 | Inserting into a sorted list places the new element behind every element already there with the same amount. |
| StableSort.SortIsStable | src/lib/logic.ts:37 | Stability: for every amount, the entries holding it appear in the sorted copy exactly as, and in the order, they appear in the input. |
| StableSort.SortedIsFixed | src/lib/logic.ts:54-55 | Stability: a list already ordered by the comparator, ties included, is returned unchanged. |
| StableSort.SortedMember | src/lib/logic.ts:37 | Every element of the sorted copy comes from the input. |
| StableSort.SortKeepsSum | src/lib/logic.ts:54-55 | Sorting does not change the total of the amounts. |
| PayerSuggester.GetSuggestedPayer | src/lib/logic.ts:33-43 | An empty list, or one whose balances are all within a cent of zero, gives null. A suggested id belongs to the earliest entry that no entry undercuts, and that entry is at least a cent from zero. |
| PayerSuggester.FirstMinIndex | src/lib/logic.ts:36-37 | An independent reference: the position of an amount no other amount undercuts, and the earliest such. |
| PayerSuggester.SortedHeadIsFirstMin | src/lib/logic.ts:37 | The ascending stable sort puts the earliest lowest balance first. |
| PayerSuggester.SuggestedPayerIsFirstMinimum | src/lib/logic.ts:33-43 | An empty list gives null. Otherwise the result is null if and only if the earliest lowest balance is within a cent of zero, and else that balance's id. |
| SettlementPlanner.Partition | src/lib/logic.ts:54-55 | The filter keeps exactly the balances below -0.01 (debtors), or above 0.01 (creditors), and never lengthens the list. Order and multiplicity are stated by `SettlementPlanner.PartitionAppend`. |
| SettlementPlanner.PartitionSnoc | src/lib/logic.ts:54-55 | Appending a balance to the input appends it, or nothing, to the end of either side. |
| SettlementPlanner.PartitionAppend | src/lib/logic.ts:54-55 | The filter keeps input order and multiplicity: either side of a concatenation is the concatenation of the two sides. |
| SettlementPlanner.StepAmount | src/lib/logic.ts:67 | One step settles no more than the debtor owes or the creditor is owed, and all of one of the two. |
| SettlementPlanner.Proposed | src/lib/logic.ts:69-76 | A step records at most one transfer, exactly when the settled amount exceeds half a cent. That transfer runs from the debtor to the creditor, is within half a cent of the settled amount, and is at least a cent. |
| SettlementPlanner.Advance | src/lib/logic.ts:78-83 | One step leaves only parties still beyond a cent and strictly fewer pending parties, which is the loop's variant. It introduces no new party. |
| SettlementPlanner.Match | src/lib/logic.ts:62-84 | The loop proposes no transactions, or fewer than there are pending debtors and creditors together. |
| SettlementPlanner.MatchParties | src/lib/logic.ts:62-76 | Every proposed transfer goes from a pending debtor to a pending creditor and moves at least a cent. |
| SettlementPlanner.AdvanceSums | src/lib/logic.ts:67-83 | One step takes the settled amount off the outstanding debt and credit. A party it drops takes at most a cent with it. |
| SettlementPlanner.MatchVolume | src/lib/logic.ts:62-84 | Total proposed, give or take half a cent per party: (1) at most the debt; (2) at most the credit; (3) all of the debt or all of the credit, but for a cent per party on that side. |
| SettlementPlanner.SettlementsVolume | src/lib/logic.ts:45-87 | The same bounds for `calculateSettlements`, measured over the balances beyond a cent. |
| SettlementPlanner.SortedPartitionsArePending | src/lib/logic.ts:54-55 | Every sorted debtor owes, and every sorted creditor is owed, at least a cent. |
| SettlementPlanner.SettlementsOfOrdered | src/lib/logic.ts:54-55 | When the filtered lists are already in comparator order, the plan matches them as they stand. |
| SettlementPlanner.Settlements | src/lib/logic.ts:45-87 | Every planned transfer runs from someone whose balance is below -0.01 to someone whose balance is above 0.01, and moves at least a cent. |
| SettlementPlanner.PlanParties | src/lib/logic.ts:54-76 | The same, for the loop's matching of the sorted sides. |
| SettlementPlanner.PartitionKeepsTies | src/lib/logic.ts:54-55 | For an amount beyond a cent, the side it belongs to holds every balance with that amount, in input order. |
| SettlementPlanner.TiedPartiesKeepInputOrder | src/lib/logic.ts:54-55 | Debtors that owe the same amount are matched in input order, and so are creditors owed the same amount. |
| SettlementPlanner.SettlementsCount | src/lib/logic.ts:62-84 | With n balances beyond a cent, the plan is empty or has at most n - 1 transfers. It has at least one as soon as someone owes and someone is owed. |
| SettlementPlanner.CalculateSettlements | src/lib/logic.ts:45-87 | The method's transactions equal the specification `Settlements`: the sorted filtered lists, cloned into fresh arrays and matched by the loop. |
| SettlementPlanner.Working | src/lib/logic.ts:52 | The clone is a freshly allocated array holding exactly the given balances. |
| SettlementPlanner.SettleInPlace | src/lib/logic.ts:57-86 | The loop over the working arrays returns exactly `Match` of their initial contents. Working debtors never rise above 0 and working creditors never fall below 0. |
| SettlementPlanner.StepKeepsSigns | src/lib/logic.ts:67-79 | One step moves the current debtor and creditor toward zero and never past it. |
| SettlementPlanner.StepOnWorkingLists | src/lib/logic.ts:62-84 | One iteration on the arrays keeps two invariants: recorded transfers plus the plan for the parties behind the cursors equal the whole plan, and only pending parties remain there. |
| SettlementPlanner.StepIsAdvance | src/lib/logic.ts:78-83 | Updating the two current entries and moving the cursors leaves behind them exactly what `Advance` leaves. |
| Scenarios.SimpleSplitBalancesAreNet | verify-logic.ts:26-33 | A pays 100 split between A and B: balances A 50, B -50, C 0, D 0. |
| Scenarios.SimpleSplitSettlements | verify-logic.ts:26-33 | The plan for it is the single transfer B to A, 50. |
| Scenarios.MultiplePayersBalancesAreNet | verify-logic.ts:35-42 | A pays 60 and B pays 40, split evenly: balances A 10, B -10, C 0, D 0. |
| Scenarios.MultiplePayersSettlements | verify-logic.ts:35-42 | The plan for it is the single transfer B to A, 10. |
| Scenarios.OneCreditorTwoDebtorsBalances | verify-logic.ts:44-52 | A pays 90 split three ways: balances A 60, B -30, C -30, D 0. |
| Scenarios.OneCreditorTwoDebtorsSettlements | verify-logic.ts:44-52 | The plan is B to A 30, then C to A 30. |
| Scenarios.TwoCreditorsBalancesAreNet | verify-logic.ts:54-62 | A and B pay 30 each for C: balances A 30, B 30, C -60, D 0. |
| Scenarios.TwoCreditorsSettlements | verify-logic.ts:54-62 | The plan is C to A 30, then C to B 30; the tied creditors keep roster order. |
| Scenarios.ChainBalancesAreNet | verify-logic.ts:64-85 | A pays 100 for B, then B pays 50 for C: balances A 100, B -50, C -50, D 0. |
| Scenarios.ChainSettlements | verify-logic.ts:64-85 | The plan is B to A 50, then C to A 50. |
| Scenarios.SharedMealsBalancesAreNet | test-logic.ts:11-44 | B pays 50 for A and B, and C pays 50 for A and C: balances A -50, B 25, C 25. |
| Scenarios.SharedMealsSettlements | test-logic.ts:47-57 | The plan is A to B 25, then A to C 25: two transfers. |
| Scenarios.DeadZoneLeavesDebt | src/lib/logic.ts:54-55 | Balances that sum to zero, with one participant owing more than a cent, can still receive an empty plan. |

## Left out

- Floating point: amounts are exact reals, so IEEE-754 drift during accumulation, NaN and Infinity are not modelled.
- Numbers.Round2: models `toFixed(2)` as exact half-up rounding of the real value. It does not model the binary representation, under which, for example, `(1.005).toFixed(2)` gives `"1.00"`.
- Object key order: `Object.entries` lists integer-like keys first, in numeric order. The model keeps insertion order for every key, which matches the engine only for ids that are not integer-like.
- Ids that name `Object.prototype` members (`__proto__`, `constructor`, `toString`, ...) are assumed absent. On the plain `{}` accumulator (`src/lib/logic.ts:9`), `balances[id] || 0` (`src/lib/logic.ts:19`, `:23`) reads the inherited member when the id is not on the roster, so such an id yields a string when it first appears as a payer (`:19`) and NaN when it first appears in `splitDetails` (`:23`), and a later subtraction turns the string into NaN; a roster id of that name gets an own 0 at `src/lib/logic.ts:13` and stays numeric, and `__proto__` never gets an entry. The model gives every id a numeric entry.
- Objects: an object's entries are a list of pairs. A list that repeats a key sums its values, which no JavaScript object can produce. `BalanceCalculator.AmountForKey` ties the two together for distinct keys.
- SettlementPlanner.CalculateSettlements: takes the balances as a value. So "the caller's list is left unchanged" holds by construction rather than being proved about shared objects. The clone at `src/lib/logic.ts:52` is modelled by the two fresh working arrays.
- SettlementPlanner.SettleInPlace: states the returned transactions and the sign of every working amount. It does not state the final amount of each working entry, which the source discards when it returns.
- `Expense.amount`, `description`, `category` and `date` are carried but not read, as in the engine. Nothing checks that `amount` equals the payments or the shares.
- `src/lib/store.ts`, `check-db.ts` and the React components and pages are not part of this model. They are network calls, subscriptions and UI wiring, with no algorithm to state.
- The comment at `test-logic.ts:47` says that `calculateSettlements` modifies its argument. The code clones first (`src/lib/logic.ts:52`), and the model follows the code.
