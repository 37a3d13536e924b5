/**
 * BalanceCalculator: `calculateBalances` (src/lib/logic.ts:8-31) folds an
 * expense history into one net balance per participant.
 *
 * The source keeps a `Record<string, number>` accumulator. It is modelled as a
 * `map` from id to amount together with the order in which its keys were
 * created, which is the order `Object.entries` reports them in.
 */
module BalanceCalculator {
  import opened Types

  /** A participant's net position: positive when they are owed money, negative when they owe. */
  datatype Balance = Balance(userId: string, amount: real)

  predicate Distinct(ids: seq<string>)
  {
    forall i, j :: 0 <= i < j < |ids| ==> ids[i] != ids[j]
  }

  /** The roster's ids, in roster order. */
  function RosterIds(users: seq<User>): seq<string>
  {
    seq(|users|, k requires 0 <= k < |users| => users[k].id)
  }

  /** The ids an expense touches: its payers, then its split participants. */
  function ExpenseIds(e: Expense): seq<string>
  {
    Keys(e.paidBy) + Keys(e.splitDetails)
  }

  /** Some expense of the history names `id` as a payer or as a split participant. */
  ghost predicate Mentioned(expenses: seq<Expense>, id: string)
  {
    exists k :: 0 <= k < |expenses| && id in ExpenseIds(expenses[k])
  }

  // ---------------------------------------------------------------------------
  // Specification: what each id's accumulator ends up holding
  // ---------------------------------------------------------------------------

  /** The sum of the values an object records under `id`. */
  function AmountFor(entries: Entries, id: string): real
  {
    if |entries| == 0 then 0.0
    else
      var last := entries[|entries| - 1];
      AmountFor(entries[..|entries| - 1], id) + (if last.0 == id then last.1 else 0.0)
  }

  /** The sum of all values of an object. */
  function Total(entries: Entries): real
  {
    if |entries| == 0 then 0.0 else Total(entries[..|entries| - 1]) + entries[|entries| - 1].1
  }

  /** Everything `id` paid over the history (its `paidBy` values). */
  function Paid(expenses: seq<Expense>, id: string): real
  {
    if |expenses| == 0 then 0.0
    else Paid(expenses[..|expenses| - 1], id) + AmountFor(expenses[|expenses| - 1].paidBy, id)
  }

  /** Everything `id` owes over the history (its `splitDetails` values). */
  function Owed(expenses: seq<Expense>, id: string): real
  {
    if |expenses| == 0 then 0.0
    else Owed(expenses[..|expenses| - 1], id) + AmountFor(expenses[|expenses| - 1].splitDetails, id)
  }

  /** What every expense adds to the group in all: its payments minus its shares. */
  function Flow(expenses: seq<Expense>): real
  {
    if |expenses| == 0 then 0.0
    else
      var e := expenses[|expenses| - 1];
      Flow(expenses[..|expenses| - 1]) + Total(e.paidBy) - Total(e.splitDetails)
  }

  // ---------------------------------------------------------------------------
  // Specification: the order in which the accumulator's keys are created
  // ---------------------------------------------------------------------------

  /** Assigning to a key appends it to the key order only when it is new. */
  function Insert(order: seq<string>, id: string): seq<string>
  {
    if id in order then order else order + [id]
  }

  /** Assigns to each of `ids` in turn. */
  function InsertAll(order: seq<string>, ids: seq<string>): (r: seq<string>)
    ensures forall x :: x in r <==> x in order || x in ids
    ensures Distinct(order) ==> Distinct(r)
  {
    if |ids| == 0 then order
    else Insert(InsertAll(order, ids[..|ids| - 1]), ids[|ids| - 1])
  }

  /** The accumulator's keys: the roster, then every new id in the order the expenses first name it. */
  function Accounts(users: seq<User>, expenses: seq<Expense>): seq<string>
  {
    if |expenses| == 0 then InsertAll([], RosterIds(users))
    else InsertAll(Accounts(users, expenses[..|expenses| - 1]), ExpenseIds(expenses[|expenses| - 1]))
  }

  /** One balance per id, holding what it paid minus what it owes. */
  function Tabulate(ids: seq<string>, expenses: seq<Expense>): seq<Balance>
  {
    seq(|ids|, k requires 0 <= k < |ids| => Balance(ids[k], Paid(expenses, ids[k]) - Owed(expenses, ids[k])))
  }

  /** The result `calculateBalances` is meant to return. */
  function BalancesOf(users: seq<User>, expenses: seq<Expense>): seq<Balance>
  {
    Tabulate(Accounts(users, expenses), expenses)
  }

  function SumAmounts(balances: seq<Balance>): real
  {
    if |balances| == 0 then 0.0
    else SumAmounts(balances[..|balances| - 1]) + balances[|balances| - 1].amount
  }

  /** The sum read from the front: the first amount plus the sum of the rest. */
  lemma {:induction false} SumAmountsCons(head: Balance, tail: seq<Balance>)
    ensures SumAmounts([head] + tail) == head.amount + SumAmounts(tail)
  {
    if |tail| > 0 {
      var init := tail[..|tail| - 1];
      assert ([head] + tail)[..|tail|] == [head] + init;
      SumAmountsCons(head, init);
    }
  }

  // ---------------------------------------------------------------------------
  // The operation
  // ---------------------------------------------------------------------------

  /** `balances[id] = (balances[id] || 0) + delta`: a missing key reads as 0 and is created. */
  function Post(balances: map<string, real>, id: string, delta: real): (r: map<string, real>)
    ensures forall x :: x in r <==> x in balances || x == id
    ensures r[id] == (if id in balances then balances[id] else 0.0) + delta
    ensures forall x :: x in balances && x != id ==> r[x] == balances[x]
  {
    balances[id := (if id in balances then balances[id] else 0.0) + delta]
  }

  /**
   * One `Object.entries(...).forEach` pass of `calculateBalances`: adds
   * (`credit`) or subtracts each value of `entries` to its key's accumulator,
   * reading a missing key as 0 (`balances[id] || 0`) and creating it.
   */
  method Accumulate(balances: map<string, real>, order: seq<string>, entries: Entries, credit: bool)
    returns (balances': map<string, real>, order': seq<string>)
    requires forall id :: id in balances <==> id in order
    ensures order' == InsertAll(order, Keys(entries))
    ensures forall id :: id in balances' <==> id in order'
    ensures forall id :: id in balances' ==>
      balances'[id] == (if id in balances then balances[id] else 0.0)
                       + (if credit then AmountFor(entries, id) else -AmountFor(entries, id))
  {
    balances', order' := balances, order;
    for j := 0 to |entries|
      invariant order' == InsertAll(order, Keys(entries)[..j])
      invariant forall id :: id in balances' <==> id in order'
      invariant forall id :: id in balances' ==>
        balances'[id] == (if id in balances then balances[id] else 0.0)
                         + (if credit then AmountFor(entries[..j], id) else -AmountFor(entries[..j], id))
    {
      assert Keys(entries)[..j + 1][..j] == Keys(entries)[..j];
      AccumulateStep(balances, order, entries, j, credit, balances');
      var (id, value) := entries[j];
      if id !in balances' {
        order' := order' + [id];
      }
      balances' := Post(balances', id, if credit then value else -value);
    }
    assert Keys(entries)[..|entries|] == Keys(entries);
    assert entries[..|entries|] == entries;
  }

  /** The body of the `expenses.forEach` loop: credits each payer, then debits each split participant. */
  method ApplyExpense(balances: map<string, real>, order: seq<string>, e: Expense)
    returns (balances': map<string, real>, order': seq<string>)
    requires forall id :: id in balances <==> id in order
    ensures order' == InsertAll(order, ExpenseIds(e))
    ensures forall id :: id in balances' <==> id in order'
    ensures forall id :: id in balances' ==>
      balances'[id] == (if id in balances then balances[id] else 0.0)
                       + AmountFor(e.paidBy, id) - AmountFor(e.splitDetails, id)
  {
    var credited, order1 := Accumulate(balances, order, e.paidBy, true);
    balances', order' := Accumulate(credited, order1, e.splitDetails, false);
    InsertAllAppend(order, Keys(e.paidBy), Keys(e.splitDetails));
    forall id | id in balances'
      ensures balances'[id] == (if id in balances then balances[id] else 0.0)
                               + AmountFor(e.paidBy, id) - AmountFor(e.splitDetails, id)
    {
      if id !in credited {
        AmountForAbsent(e.paidBy, id);
      }
    }
  }

  /** The `users.forEach` loop: every roster id gets an accumulator holding 0. */
  method SeedRoster(users: seq<User>) returns (balances: map<string, real>, order: seq<string>)
    ensures order == InsertAll([], RosterIds(users))
    ensures forall id :: id in balances <==> id in order
    ensures forall id :: id in balances ==> balances[id] == 0.0
  {
    balances, order := map[], [];
    for k := 0 to |users|
      invariant order == InsertAll([], RosterIds(users)[..k])
      invariant forall id :: id in balances <==> id in order
      invariant forall id :: id in balances ==> balances[id] == 0.0
    {
      assert RosterIds(users)[..k + 1][..k] == RosterIds(users)[..k];
      var id := users[k].id;
      if id !in balances {
        order := order + [id];
      }
      balances := balances[id := 0.0];
    }
    assert RosterIds(users)[..|users|] == RosterIds(users);
  }

  /**
   * `calculateBalances`: seeds every roster id at 0, adds each `paidBy` value,
   * subtracts each `splitDetails` value (creating missing keys at 0), and lists
   * the accumulator's entries in key-creation order.
   */
  method CalculateBalances(users: seq<User>, expenses: seq<Expense>) returns (result: seq<Balance>)
    ensures result == BalancesOf(users, expenses)
  {
    var balances, order := Ledger(users, expenses);
    result := seq(|order|, k requires 0 <= k < |order| => Balance(order[k], balances[order[k]]));
  }

  /** The two `forEach` loops of `calculateBalances`: the accumulator once every expense is applied. */
  method Ledger(users: seq<User>, expenses: seq<Expense>) returns (balances: map<string, real>, order: seq<string>)
    ensures order == Accounts(users, expenses)
    ensures forall id :: id in balances <==> id in order
    ensures forall id :: id in balances ==> balances[id] == Paid(expenses, id) - Owed(expenses, id)
  {
    balances, order := SeedRoster(users);
    for i := 0 to |expenses|
      invariant order == Accounts(users, expenses[..i])
      invariant forall id :: id in balances <==> id in order
      invariant forall id :: id in balances ==> balances[id] == Paid(expenses[..i], id) - Owed(expenses[..i], id)
    {
      var updated, order' := ApplyExpense(balances, order, expenses[i]);
      LedgerStep(users, expenses, i, balances, updated, order');
      balances, order := updated, order';
    }
    assert expenses[..|expenses|] == expenses;
  }

  // ---------------------------------------------------------------------------
  // Lemmas
  // ---------------------------------------------------------------------------

  /** One iteration of `Accumulate`'s loop extends what the accumulators hold by the entry at `j`. */
  lemma AccumulateStep(initial: map<string, real>, order: seq<string>, entries: Entries, j: nat, credit: bool,
                       acc: map<string, real>)
    requires j < |entries|
    requires forall id :: id in initial <==> id in order
    requires forall id :: id in acc <==> id in InsertAll(order, Keys(entries)[..j])
    requires forall id :: id in acc ==>
      acc[id] == (if id in initial then initial[id] else 0.0)
                 + (if credit then AmountFor(entries[..j], id) else -AmountFor(entries[..j], id))
    ensures var acc' := Post(acc, entries[j].0, if credit then entries[j].1 else -entries[j].1);
      forall id :: id in acc' ==>
        acc'[id] == (if id in initial then initial[id] else 0.0)
                    + (if credit then AmountFor(entries[..j + 1], id) else -AmountFor(entries[..j + 1], id))
  {
    assert entries[..j + 1][..j] == entries[..j];
    assert Keys(entries[..j]) == Keys(entries)[..j];
    var id := entries[j].0;
    if id !in acc {
      AmountForAbsent(entries[..j], id);
    }
  }

  /** Applying one more expense to accumulators holding a history's net amounts yields the longer history's. */
  lemma LedgerStep(users: seq<User>, expenses: seq<Expense>, i: nat,
                   balances: map<string, real>, updated: map<string, real>, order': seq<string>)
    requires i < |expenses|
    requires forall id :: id in balances <==> id in Accounts(users, expenses[..i])
    requires forall id :: id in balances ==> balances[id] == Paid(expenses[..i], id) - Owed(expenses[..i], id)
    requires order' == InsertAll(Accounts(users, expenses[..i]), ExpenseIds(expenses[i]))
    requires forall id :: id in updated ==>
      updated[id] == (if id in balances then balances[id] else 0.0)
                     + AmountFor(expenses[i].paidBy, id) - AmountFor(expenses[i].splitDetails, id)
    ensures order' == Accounts(users, expenses[..i + 1])
    ensures forall id :: id in updated ==> updated[id] == Paid(expenses[..i + 1], id) - Owed(expenses[..i + 1], id)
  {
    assert expenses[..i + 1][..i] == expenses[..i];
    forall id | id in updated
      ensures updated[id] == Paid(expenses[..i + 1], id) - Owed(expenses[..i + 1], id)
    {
      if id !in balances {
        AbsentIsZero(users, expenses[..i], id);
      }
    }
  }

  lemma {:induction false} InsertAllAppend(order: seq<string>, a: seq<string>, b: seq<string>)
    ensures InsertAll(order, a + b) == InsertAll(InsertAll(order, a), b)
  {
    if |b| > 0 {
      assert (a + b)[..|a + b| - 1] == a + b[..|b| - 1];
      InsertAllAppend(order, a, b[..|b| - 1]);
    } else {
      assert a + b == a;
    }
  }

  /** An object that never names `id` records nothing under it. */
  lemma {:induction false} AmountForAbsent(entries: Entries, id: string)
    requires id !in Keys(entries)
    ensures AmountFor(entries, id) == 0.0
  {
    if |entries| > 0 {
      var init := entries[..|entries| - 1];
      assert forall k :: 0 <= k < |init| ==> Keys(init)[k] == Keys(entries)[k];
      AmountForAbsent(init, id);
      assert Keys(entries)[|entries| - 1] == entries[|entries| - 1].0;
    }
  }

  /** In an object, whose keys are distinct, the amount recorded for a key is its value. */
  lemma {:induction false} AmountForKey(entries: Entries, k: nat)
    requires Distinct(Keys(entries)) && k < |entries|
    ensures AmountFor(entries, entries[k].0) == entries[k].1
  {
    var init, id := entries[..|entries| - 1], entries[k].0;
    assert forall m :: 0 <= m < |init| ==> Keys(init)[m] == Keys(entries)[m];
    if k < |init| {
      AmountForKey(init, k);
      assert Keys(entries)[k] != Keys(entries)[|entries| - 1];
    } else {
      assert id !in Keys(init) by {
        forall m | 0 <= m < |init| ensures Keys(init)[m] != id {
          assert Keys(entries)[m] != Keys(entries)[k];
        }
      }
      AmountForAbsent(init, id);
    }
  }

  /** An id missing from the accumulator has neither paid nor owed anything so far. */
  lemma {:induction false} AbsentIsZero(users: seq<User>, expenses: seq<Expense>, id: string)
    requires id !in Accounts(users, expenses)
    ensures Paid(expenses, id) == 0.0 && Owed(expenses, id) == 0.0
  {
    if |expenses| > 0 {
      var init, e := expenses[..|expenses| - 1], expenses[|expenses| - 1];
      AbsentIsZero(users, init, id);
      AmountForAbsent(e.paidBy, id);
      AmountForAbsent(e.splitDetails, id);
    }
  }

  /** The accumulator's keys are exactly the roster ids and the ids the expenses name. */
  lemma {:induction false} AccountsMembers(users: seq<User>, expenses: seq<Expense>, id: string)
    ensures id in Accounts(users, expenses) <==> id in RosterIds(users) || Mentioned(expenses, id)
  {
    if |expenses| > 0 {
      var init := expenses[..|expenses| - 1];
      AccountsMembers(users, init, id);
      assert forall k :: 0 <= k < |init| ==> init[k] == expenses[k];
      assert Mentioned(expenses, id) <==> Mentioned(init, id) || id in ExpenseIds(expenses[|expenses| - 1]);
    }
  }

  lemma {:induction false} AccountsDistinct(users: seq<User>, expenses: seq<Expense>)
    ensures Distinct(Accounts(users, expenses))
  {
    if |expenses| > 0 {
      AccountsDistinct(users, expenses[..|expenses| - 1]);
    }
  }

  /** No two entries of the result belong to the same id, so a repeated roster id yields one entry. */
  lemma OneEntryPerId(users: seq<User>, expenses: seq<Expense>)
    ensures var r := BalancesOf(users, expenses);
      forall i, j :: 0 <= i < j < |r| ==> r[i].userId != r[j].userId
  {
    AccountsDistinct(users, expenses);
  }

  /**
   * There is an entry for `id` exactly when `id` is on the roster or some
   * expense names it, and that entry holds what `id` paid minus what it owes.
   */
  lemma EntryForEveryKnownId(users: seq<User>, expenses: seq<Expense>, id: string)
    ensures var r := BalancesOf(users, expenses);
      (exists k :: 0 <= k < |r| && r[k].userId == id) <==> id in RosterIds(users) || Mentioned(expenses, id)
    ensures var r := BalancesOf(users, expenses);
      forall k :: 0 <= k < |r| && r[k].userId == id ==> r[k].amount == Paid(expenses, id) - Owed(expenses, id)
  {
    AccountsMembers(users, expenses, id);
    var ids := Accounts(users, expenses);
    if id in ids {
      var k :| 0 <= k < |ids| && ids[k] == id;
      assert BalancesOf(users, expenses)[k].userId == id;
    }
  }

  /**
   * When the roster has no repeated id and every expense names only roster
   * members, the result lists the roster in its own order.
   */
  lemma RosterOrder(users: seq<User>, expenses: seq<Expense>)
    requires Distinct(RosterIds(users))
    requires forall k, x :: 0 <= k < |expenses| && x in ExpenseIds(expenses[k]) ==> x in RosterIds(users)
    ensures var r := BalancesOf(users, expenses);
      && |r| == |users|
      && forall k :: 0 <= k < |users| ==>
           r[k] == Balance(users[k].id, Paid(expenses, users[k].id) - Owed(expenses, users[k].id))
  {
    AccountsOfRoster(users, expenses);
  }

  lemma {:induction false} AccountsOfRoster(users: seq<User>, expenses: seq<Expense>)
    requires Distinct(RosterIds(users))
    requires forall k, x :: 0 <= k < |expenses| && x in ExpenseIds(expenses[k]) ==> x in RosterIds(users)
    ensures Accounts(users, expenses) == RosterIds(users)
  {
    if |expenses| == 0 {
      InsertAllFresh(RosterIds(users));
    } else {
      var init := expenses[..|expenses| - 1];
      assert forall k :: 0 <= k < |init| ==> init[k] == expenses[k];
      AccountsOfRoster(users, init);
      InsertAllKnown(RosterIds(users), ExpenseIds(expenses[|expenses| - 1]));
    }
  }

  /** Assigning only to existing keys creates none. */
  lemma {:induction false} InsertAllKnown(order: seq<string>, ids: seq<string>)
    requires forall x :: x in ids ==> x in order
    ensures InsertAll(order, ids) == order
  {
    if |ids| > 0 {
      InsertAllKnown(order, ids[..|ids| - 1]);
      assert ids[|ids| - 1] in ids;
    }
  }

  /** Assigning to distinct new keys creates them in that order. */
  lemma {:induction false} InsertAllFresh(ids: seq<string>)
    requires Distinct(ids)
    ensures InsertAll([], ids) == ids
  {
    if |ids| > 0 {
      var init := ids[..|ids| - 1];
      InsertAllFresh(init);
      assert ids == init + [ids[|ids| - 1]];
    }
  }

  /** A roster member that no expense names has exactly one entry, and it is 0. */
  lemma IdleUserIsZero(users: seq<User>, expenses: seq<Expense>, u: User)
    requires u in users
    requires !Mentioned(expenses, u.id)
    ensures var r := BalancesOf(users, expenses);
      exists k :: 0 <= k < |r| && r[k] == Balance(u.id, 0.0)
                  && forall j :: 0 <= j < |r| && r[j].userId == u.id ==> j == k
  {
    var ids := Accounts(users, expenses);
    var i :| 0 <= i < |users| && users[i] == u;
    assert RosterIds(users)[i] == u.id;
    AccountsMembers(users, expenses, u.id);
    AccountsDistinct(users, expenses);
    AbsentFromHistoryIsZero(expenses, u.id);
    var k :| 0 <= k < |ids| && ids[k] == u.id;
    assert BalancesOf(users, expenses)[k] == Balance(u.id, 0.0);
  }

  /** An id no expense names has paid and owes nothing. */
  lemma {:induction false} AbsentFromHistoryIsZero(expenses: seq<Expense>, id: string)
    requires !Mentioned(expenses, id)
    ensures Paid(expenses, id) == 0.0 && Owed(expenses, id) == 0.0
  {
    if |expenses| > 0 {
      var init, e := expenses[..|expenses| - 1], expenses[|expenses| - 1];
      assert forall k :: 0 <= k < |init| ==> init[k] == expenses[k];
      AbsentFromHistoryIsZero(init, id);
      assert id !in ExpenseIds(expenses[|expenses| - 1]);
      AmountForAbsent(e.paidBy, id);
      AmountForAbsent(e.splitDetails, id);
    }
  }

  // ---------------------------------------------------------------------------
  // Conservation
  // ---------------------------------------------------------------------------

  /** What all of `ids` together receive from one object. */
  function Collect(ids: seq<string>, entries: Entries): real
  {
    if |ids| == 0 then 0.0
    else Collect(ids[..|ids| - 1], entries) + AmountFor(entries, ids[|ids| - 1])
  }

  lemma {:induction false} CollectOne(ids: seq<string>, entries: Entries, x: (string, real))
    requires Distinct(ids)
    ensures Collect(ids, entries + [x]) == Collect(ids, entries) + (if x.0 in ids then x.1 else 0.0)
  {
    if |ids| > 0 {
      var init := ids[..|ids| - 1];
      assert (entries + [x])[..|entries + [x]| - 1] == entries;
      CollectOne(init, entries, x);
      assert x.0 in ids <==> x.0 in init || x.0 == ids[|ids| - 1];
    }
  }

  /** Distinct ids that cover every key of an object collect exactly its total. */
  lemma {:induction false} CollectAll(ids: seq<string>, entries: Entries)
    requires Distinct(ids)
    requires forall x :: x in Keys(entries) ==> x in ids
    ensures Collect(ids, entries) == Total(entries)
  {
    if |entries| == 0 {
      CollectNothing(ids);
    } else {
      var init, last := entries[..|entries| - 1], entries[|entries| - 1];
      assert forall k :: 0 <= k < |init| ==> Keys(init)[k] == Keys(entries)[k];
      CollectAll(ids, init);
      assert init + [last] == entries;
      CollectOne(ids, init, last);
      assert Keys(entries)[|entries| - 1] == last.0;
    }
  }

  lemma {:induction false} CollectNothing(ids: seq<string>)
    ensures Collect(ids, []) == 0.0
  {
    if |ids| > 0 {
      CollectNothing(ids[..|ids| - 1]);
    }
  }

  /** Adding an expense to the history adds to the ids' summed balances what they collect from it. */
  lemma {:induction false} TabulateStep(ids: seq<string>, expenses: seq<Expense>)
    requires |expenses| > 0
    ensures var init, e := expenses[..|expenses| - 1], expenses[|expenses| - 1];
      SumAmounts(Tabulate(ids, expenses))
        == SumAmounts(Tabulate(ids, init)) + Collect(ids, e.paidBy) - Collect(ids, e.splitDetails)
  {
    if |ids| > 0 {
      var init := ids[..|ids| - 1];
      assert Tabulate(ids, expenses)[..|ids| - 1] == Tabulate(init, expenses);
      assert Tabulate(ids, expenses[..|expenses| - 1])[..|ids| - 1] == Tabulate(init, expenses[..|expenses| - 1]);
      TabulateStep(init, expenses);
    }
  }

  lemma {:induction false} TabulateConserves(ids: seq<string>, expenses: seq<Expense>)
    requires Distinct(ids)
    requires forall k, x :: 0 <= k < |expenses| && x in ExpenseIds(expenses[k]) ==> x in ids
    ensures SumAmounts(Tabulate(ids, expenses)) == Flow(expenses)
  {
    if |expenses| == 0 {
      TabulateEmpty(ids);
    } else {
      var init, e := expenses[..|expenses| - 1], expenses[|expenses| - 1];
      assert forall k :: 0 <= k < |init| ==> init[k] == expenses[k];
      TabulateConserves(ids, init);
      TabulateStep(ids, expenses);
      CollectAll(ids, e.paidBy);
      CollectAll(ids, e.splitDetails);
    }
  }

  lemma {:induction false} TabulateEmpty(ids: seq<string>)
    ensures SumAmounts(Tabulate(ids, [])) == 0.0
  {
    if |ids| > 0 {
      assert Tabulate(ids, [])[..|ids| - 1] == Tabulate(ids[..|ids| - 1], []);
      TabulateEmpty(ids[..|ids| - 1]);
    }
  }

  /**
   * Conservation: the balances add up to what the expenses' payments exceed
   * their shares by, whatever the roster.
   */
  lemma Conservation(users: seq<User>, expenses: seq<Expense>)
    ensures SumAmounts(BalancesOf(users, expenses)) == Flow(expenses)
  {
    var ids := Accounts(users, expenses);
    AccountsDistinct(users, expenses);
    forall k, x | 0 <= k < |expenses| && x in ExpenseIds(expenses[k])
      ensures x in ids
    {
      AccountsMembers(users, expenses, x);
    }
    TabulateConserves(ids, expenses);
  }

  /** When every expense's payments equal its shares, the balances add up to zero. */
  lemma {:induction false} BalancedHistorySumsToZero(users: seq<User>, expenses: seq<Expense>)
    requires forall k :: 0 <= k < |expenses| ==> Total(expenses[k].paidBy) == Total(expenses[k].splitDetails)
    ensures SumAmounts(BalancesOf(users, expenses)) == 0.0
  {
    Conservation(users, expenses);
    BalancedFlow(expenses);
  }

  lemma {:induction false} BalancedFlow(expenses: seq<Expense>)
    requires forall k :: 0 <= k < |expenses| ==> Total(expenses[k].paidBy) == Total(expenses[k].splitDetails)
    ensures Flow(expenses) == 0.0
  {
    if |expenses| > 0 {
      BalancedFlow(expenses[..|expenses| - 1]);
    }
  }
}
