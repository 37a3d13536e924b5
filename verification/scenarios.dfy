/**
 * Scenarios: the worked examples of the repository's two check scripts
 * (verify-logic.ts and test-logic.ts), stated as facts about the model, and a
 * group that the planner leaves unsettled.
 *
 * Each example is proved through small lemmas about lists of one to four
 * entries, so that no proof has to evaluate a whole example at once.
 */
module Scenarios {
  import opened Types
  import opened Numbers
  import opened BalanceCalculator
  import opened StableSort
  import opened SettlementPlanner

  // ---------------------------------------------------------------------------
  // Reading off small objects, histories and balance lists
  // ---------------------------------------------------------------------------

  /** What `calculateBalances` holds for `id` after `expenses`. */
  function Net(expenses: seq<Expense>, id: string): Balance
  {
    Balance(id, Paid(expenses, id) - Owed(expenses, id))
  }

  /** The value an entry contributes to `id`. */
  function Share(entry: (string, real), id: string): real
  {
    if entry.0 == id then entry.1 else 0.0
  }

  lemma OneEntry(x: (string, real), id: string)
    ensures AmountFor([x], id) == Share(x, id)
  {
    assert [x][..0] == [];
  }

  lemma TwoEntries(x: (string, real), y: (string, real), id: string)
    ensures AmountFor([x, y], id) == Share(x, id) + Share(y, id)
  {
    assert [x, y][..1] == [x];
    OneEntry(x, id);
  }

  lemma ThreeEntries(x: (string, real), y: (string, real), z: (string, real), id: string)
    ensures AmountFor([x, y, z], id) == Share(x, id) + Share(y, id) + Share(z, id)
  {
    assert [x, y, z][..2] == [x, y];
    TwoEntries(x, y, id);
  }

  /** With a single expense, a balance is what that expense pays the id minus its share. */
  lemma SingleExpense(e: Expense, id: string)
    ensures Net([e], id) == Balance(id, AmountFor(e.paidBy, id) - AmountFor(e.splitDetails, id))
  {
    assert [e][..0] == [];
    assert Paid([e], id) == AmountFor(e.paidBy, id);
    assert Owed([e], id) == AmountFor(e.splitDetails, id);
  }

  /** With two expenses, a balance adds up what each of them pays the id minus its share. */
  lemma TwoExpenses(e1: Expense, e2: Expense, id: string)
    ensures Net([e1, e2], id)
         == Balance(id, (AmountFor(e1.paidBy, id) - AmountFor(e1.splitDetails, id))
                        + (AmountFor(e2.paidBy, id) - AmountFor(e2.splitDetails, id)))
  {
    assert [e1, e2][..1] == [e1];
    SingleExpense(e1, id);
  }

  /** A history that names no one outside a four-person roster without repeats lists that roster, in order. */
  lemma RosterOfFour(users: seq<User>, expenses: seq<Expense>)
    requires |users| == 4 && Distinct(RosterIds(users))
    requires forall k, x :: 0 <= k < |expenses| && x in ExpenseIds(expenses[k]) ==> x in RosterIds(users)
    ensures BalancesOf(users, expenses)
         == [Net(expenses, users[0].id), Net(expenses, users[1].id), Net(expenses, users[2].id), Net(expenses, users[3].id)]
  {
    RosterOrder(users, expenses);
  }

  /** The same for a roster of three. */
  lemma RosterOfThree(users: seq<User>, expenses: seq<Expense>)
    requires |users| == 3 && Distinct(RosterIds(users))
    requires forall k, x :: 0 <= k < |expenses| && x in ExpenseIds(expenses[k]) ==> x in RosterIds(users)
    ensures BalancesOf(users, expenses) == [Net(expenses, users[0].id), Net(expenses, users[1].id), Net(expenses, users[2].id)]
  {
    RosterOrder(users, expenses);
  }

  /** Either side of a three-party list, one balance at a time. */
  lemma PartitionOfThree(b0: Balance, b1: Balance, b2: Balance, debtors: bool)
    ensures Partition([b0, b1, b2], debtors) == Pick(b0, debtors) + Pick(b1, debtors) + Pick(b2, debtors)
  {
    PartitionSnoc([], b0, debtors);
    assert [] + [b0] == [b0];
    PartitionSnoc([b0], b1, debtors);
    assert [b0] + [b1] == [b0, b1];
    PartitionSnoc([b0, b1], b2, debtors);
    assert [b0, b1] + [b2] == [b0, b1, b2];
  }

  lemma PartitionOfFour(b0: Balance, b1: Balance, b2: Balance, b3: Balance, debtors: bool)
    ensures Partition([b0, b1, b2, b3], debtors)
         == Pick(b0, debtors) + Pick(b1, debtors) + Pick(b2, debtors) + Pick(b3, debtors)
  {
    PartitionOfThree(b0, b1, b2, debtors);
    PartitionSnoc([b0, b1, b2], b3, debtors);
    assert [b0, b1, b2] + [b3] == [b0, b1, b2, b3];
  }

  /**
   * A four-person list whose debtors and creditors, each in list order, are
   * already sorted: the plan is the matching of exactly those.
   */
  lemma FourParties(b0: Balance, b1: Balance, b2: Balance, b3: Balance, ds: seq<Balance>, cs: seq<Balance>)
    requires Pick(b0, true) + Pick(b1, true) + Pick(b2, true) + Pick(b3, true) == ds && SortedBy(ds, false)
    requires Pick(b0, false) + Pick(b1, false) + Pick(b2, false) + Pick(b3, false) == cs && SortedBy(cs, true)
    ensures Debtors(ds) && Creditors(cs)
    ensures Settlements([b0, b1, b2, b3]) == Match(ds, cs)
  {
    PartitionOfFour(b0, b1, b2, b3, true);
    PartitionOfFour(b0, b1, b2, b3, false);
    SettlementsOfOrdered([b0, b1, b2, b3], ds, cs);
  }

  /** The same for three people. */
  lemma ThreeParties(b0: Balance, b1: Balance, b2: Balance, ds: seq<Balance>, cs: seq<Balance>)
    requires Pick(b0, true) + Pick(b1, true) + Pick(b2, true) == ds && SortedBy(ds, false)
    requires Pick(b0, false) + Pick(b1, false) + Pick(b2, false) == cs && SortedBy(cs, true)
    ensures Debtors(ds) && Creditors(cs)
    ensures Settlements([b0, b1, b2]) == Match(ds, cs)
  {
    PartitionOfThree(b0, b1, b2, true);
    PartitionOfThree(b0, b1, b2, false);
    SettlementsOfOrdered([b0, b1, b2], ds, cs);
  }

  /** `n` cents round to themselves. */
  lemma Cents(n: int)
    ensures Round2(n as real / 100.0) == n as real / 100.0
  {
    assert (n as real / 100.0) * 100.0 == n as real;
    WholeCents(n as real / 100.0);
  }

  /** A debtor who owes exactly what a creditor is owed, in whole cents: one transfer of that amount. */
  lemma OnePairMatch(debtor: Balance, creditor: Balance, cents: int)
    requires cents > 1
    requires debtor.amount == -(cents as real / 100.0) && creditor.amount == cents as real / 100.0
    ensures Debtors([debtor]) && Creditors([creditor])
    ensures Match([debtor], [creditor]) == [Transaction(debtor.userId, creditor.userId, cents as real / 100.0)]
  {
    Cents(cents);
    var ds, cs := [debtor], [creditor];
    assert StepAmount(ds[0], cs[0]) == cents as real / 100.0;
    assert ds[1..] == [] && cs[1..] == [];
    assert Advance(ds, cs).0 == [];
    assert Advance(ds, cs).1 == [];
  }

  /** One debtor who owes exactly what two creditors are owed: the first creditor is paid, then the second. */
  lemma OneToTwoMatch(debtor: Balance, first: Balance, second: Balance, m: int, n: int)
    requires m > 1 && n > 1
    requires first.amount == m as real / 100.0 && second.amount == n as real / 100.0
    requires debtor.amount == -(first.amount + second.amount)
    ensures Debtors([debtor]) && Creditors([first, second])
    ensures Match([debtor], [first, second])
         == [Transaction(debtor.userId, first.userId, first.amount), Transaction(debtor.userId, second.userId, second.amount)]
  {
    Cents(m);
    var ds, cs := [debtor], [first, second];
    assert StepAmount(debtor, first) == first.amount;
    var rest := debtor.(amount := -second.amount);
    assert ds[1..] == [] && cs[1..] == [second];
    assert Advance(ds, cs).0 == [rest];
    assert Advance(ds, cs).1 == [second];
    OnePairMatch(rest, second, n);
  }

  /** Two debtors who together owe exactly what one creditor is owed: the first debtor pays, then the second. */
  lemma TwoToOneMatch(first: Balance, second: Balance, creditor: Balance, m: int, n: int)
    requires m > 1 && n > 1
    requires first.amount == -(m as real / 100.0) && second.amount == -(n as real / 100.0)
    requires creditor.amount == -(first.amount + second.amount)
    ensures Debtors([first, second]) && Creditors([creditor])
    ensures Match([first, second], [creditor])
         == [Transaction(first.userId, creditor.userId, -first.amount), Transaction(second.userId, creditor.userId, -second.amount)]
  {
    Cents(m);
    var ds, cs := [first, second], [creditor];
    assert StepAmount(first, creditor) == -first.amount;
    var rest := creditor.(amount := -second.amount);
    assert ds[1..] == [second] && cs[1..] == [];
    assert Advance(ds, cs).0 == [second];
    assert Advance(ds, cs).1 == [rest];
    OnePairMatch(second, rest, n);
  }

  // ---------------------------------------------------------------------------
  // verify-logic.ts: four people, one or two expenses each time
  // ---------------------------------------------------------------------------

  const Roster: seq<User> := [User("A", "Alice"), User("B", "Bob"), User("C", "Charlie"), User("D", "David")]

  lemma RosterIsDistinct()
    ensures RosterIds(Roster) == ["A", "B", "C", "D"]
    ensures Distinct(RosterIds(Roster))
  {
    assert RosterIds(Roster) == ["A", "B", "C", "D"];
  }

  function Spend(id: string, amount: real, paidBy: Entries, splitDetails: Entries): Expense
  {
    Expense(id, "test", amount, paidBy, "test", "2023", splitDetails)
  }

  /** Scenario 1: A pays 100, split between A and B. */
  const SimpleSplit: Expense := Spend("1", 100.0, [("A", 100.0)], [("A", 50.0), ("B", 50.0)])

  const SimpleSplitBalances: seq<Balance> := [Balance("A", 50.0), Balance("B", -50.0), Balance("C", 0.0), Balance("D", 0.0)]

  /** A is owed 50 and B owes 50. */
  lemma SimpleSplitBalancesAreNet()
    ensures BalancesOf(Roster, [SimpleSplit]) == SimpleSplitBalances
  {
    var e := SimpleSplit;
    RosterIsDistinct();
    assert ExpenseIds(e) == ["A", "A", "B"];
    RosterOfFour(Roster, [e]);
    forall id | id in ["A", "B", "C", "D"]
      ensures Net([e], id) == Balance(id, Share(("A", 100.0), id) - (Share(("A", 50.0), id) + Share(("B", 50.0), id)))
    {
      SingleExpense(e, id);
      OneEntry(("A", 100.0), id);
      TwoEntries(("A", 50.0), ("B", 50.0), id);
    }
  }

  /** One transaction: B pays A 50. */
  lemma SimpleSplitSettlements()
    ensures Settlements(SimpleSplitBalances) == [Transaction("B", "A", 50.0)]
  {
    var a, b, c, d := Balance("A", 50.0), Balance("B", -50.0), Balance("C", 0.0), Balance("D", 0.0);
    assert SimpleSplitBalances == [a, b, c, d];
    FourParties(a, b, c, d, [b], [a]);
    OnePairMatch(b, a, 5000);
  }

  /** Scenario 2: A pays 60 and B pays 40, split evenly between A and B. */
  const MultiplePayers: Expense := Spend("2", 100.0, [("A", 60.0), ("B", 40.0)], [("A", 50.0), ("B", 50.0)])

  const MultiplePayersBalances: seq<Balance> := [Balance("A", 10.0), Balance("B", -10.0), Balance("C", 0.0), Balance("D", 0.0)]

  /** A is owed 10 and B owes 10. */
  lemma MultiplePayersBalancesAreNet()
    ensures BalancesOf(Roster, [MultiplePayers]) == MultiplePayersBalances
  {
    var e := MultiplePayers;
    RosterIsDistinct();
    assert ExpenseIds(e) == ["A", "B", "A", "B"];
    RosterOfFour(Roster, [e]);
    forall id | id in ["A", "B", "C", "D"]
      ensures Net([e], id)
           == Balance(id, (Share(("A", 60.0), id) + Share(("B", 40.0), id)) - (Share(("A", 50.0), id) + Share(("B", 50.0), id)))
    {
      SingleExpense(e, id);
      TwoEntries(("A", 60.0), ("B", 40.0), id);
      TwoEntries(("A", 50.0), ("B", 50.0), id);
    }
  }

  /** One transaction: B pays A 10. */
  lemma MultiplePayersSettlements()
    ensures Settlements(MultiplePayersBalances) == [Transaction("B", "A", 10.0)]
  {
    var a, b, c, d := Balance("A", 10.0), Balance("B", -10.0), Balance("C", 0.0), Balance("D", 0.0);
    assert MultiplePayersBalances == [a, b, c, d];
    FourParties(a, b, c, d, [b], [a]);
    OnePairMatch(b, a, 1000);
  }

  /** Scenario 3: A pays 90, split evenly between A, B and C. */
  const ThreeWaySplit: Expense := Spend("3", 90.0, [("A", 90.0)], [("A", 30.0), ("B", 30.0), ("C", 30.0)])

  const ThreeWayBalances: seq<Balance> := [Balance("A", 60.0), Balance("B", -30.0), Balance("C", -30.0), Balance("D", 0.0)]

  /** One creditor, two debtors: A is owed 60, B and C owe 30 each, D is untouched. */
  lemma OneCreditorTwoDebtorsBalances()
    ensures BalancesOf(Roster, [ThreeWaySplit]) == ThreeWayBalances
  {
    var e := ThreeWaySplit;
    RosterIsDistinct();
    assert ExpenseIds(e) == ["A", "A", "B", "C"];
    RosterOfFour(Roster, [e]);
    forall id | id in ["A", "B", "C", "D"]
      ensures Net([e], id)
           == Balance(id, Share(("A", 90.0), id) - (Share(("A", 30.0), id) + Share(("B", 30.0), id) + Share(("C", 30.0), id)))
    {
      SingleExpense(e, id);
      OneEntry(("A", 90.0), id);
      ThreeEntries(("A", 30.0), ("B", 30.0), ("C", 30.0), id);
    }
  }

  /** Then B pays A 30 and C pays A 30. */
  lemma OneCreditorTwoDebtorsSettlements()
    ensures Settlements(ThreeWayBalances) == [Transaction("B", "A", 30.0), Transaction("C", "A", 30.0)]
  {
    var a, b, c, d := Balance("A", 60.0), Balance("B", -30.0), Balance("C", -30.0), Balance("D", 0.0);
    assert ThreeWayBalances == [a, b, c, d];
    FourParties(a, b, c, d, [b, c], [a]);
    TwoToOneMatch(b, c, a, 3000, 3000);
  }

  /** Scenario 4: A and B pay 30 each for C. */
  const TwoCreditors: Expense := Spend("4", 60.0, [("A", 30.0), ("B", 30.0)], [("C", 60.0)])

  const TwoCreditorsBalances: seq<Balance> := [Balance("A", 30.0), Balance("B", 30.0), Balance("C", -60.0), Balance("D", 0.0)]

  /** A and B are owed 30 each and C owes 60. */
  lemma TwoCreditorsBalancesAreNet()
    ensures BalancesOf(Roster, [TwoCreditors]) == TwoCreditorsBalances
  {
    var e := TwoCreditors;
    RosterIsDistinct();
    assert ExpenseIds(e) == ["A", "B", "C"];
    RosterOfFour(Roster, [e]);
    forall id | id in ["A", "B", "C", "D"]
      ensures Net([e], id) == Balance(id, (Share(("A", 30.0), id) + Share(("B", 30.0), id)) - Share(("C", 60.0), id))
    {
      SingleExpense(e, id);
      TwoEntries(("A", 30.0), ("B", 30.0), id);
      OneEntry(("C", 60.0), id);
    }
  }

  /** Two transactions: C pays A 30, then C pays B 30; the tie between A and B keeps roster order. */
  lemma TwoCreditorsSettlements()
    ensures Settlements(TwoCreditorsBalances) == [Transaction("C", "A", 30.0), Transaction("C", "B", 30.0)]
  {
    var a, b, c, d := Balance("A", 30.0), Balance("B", 30.0), Balance("C", -60.0), Balance("D", 0.0);
    assert TwoCreditorsBalances == [a, b, c, d];
    FourParties(a, b, c, d, [c], [a, b]);
    OneToTwoMatch(c, a, b, 3000, 3000);
  }

  /** Scenario 5: A pays 100 for B, then B pays 50 for C. */
  const Chain: seq<Expense> := [
    Spend("5a", 100.0, [("A", 100.0)], [("B", 100.0)]),
    Spend("5b", 50.0, [("B", 50.0)], [("C", 50.0)])
  ]

  const ChainBalances: seq<Balance> := [Balance("A", 100.0), Balance("B", -50.0), Balance("C", -50.0), Balance("D", 0.0)]

  /** A is owed 100, B and C owe 50 each. */
  lemma ChainBalancesAreNet()
    ensures BalancesOf(Roster, Chain) == ChainBalances
  {
    var e1, e2 := Chain[0], Chain[1];
    RosterIsDistinct();
    assert ExpenseIds(e1) == ["A", "B"] && ExpenseIds(e2) == ["B", "C"];
    RosterOfFour(Roster, Chain);
    assert Chain == [e1, e2];
    forall id | id in ["A", "B", "C", "D"]
      ensures Net(Chain, id)
           == Balance(id, (Share(("A", 100.0), id) - Share(("B", 100.0), id)) + (Share(("B", 50.0), id) - Share(("C", 50.0), id)))
    {
      TwoExpenses(e1, e2, id);
      OneEntry(("A", 100.0), id);
      OneEntry(("B", 100.0), id);
      OneEntry(("B", 50.0), id);
      OneEntry(("C", 50.0), id);
    }
  }

  /** Two transactions: B pays A 50, then C pays A 50; the tie between B and C keeps roster order. */
  lemma ChainSettlements()
    ensures Settlements(ChainBalances) == [Transaction("B", "A", 50.0), Transaction("C", "A", 50.0)]
  {
    var a, b, c, d := Balance("A", 100.0), Balance("B", -50.0), Balance("C", -50.0), Balance("D", 0.0);
    assert ChainBalances == [a, b, c, d];
    FourParties(a, b, c, d, [b, c], [a]);
    TwoToOneMatch(b, c, a, 5000, 5000);
  }

  // ---------------------------------------------------------------------------
  // test-logic.ts: A owes B and C 25 each
  // ---------------------------------------------------------------------------

  const Trio: seq<User> := [User("A", "Alice"), User("B", "Bob"), User("C", "Charlie")]

  /** B pays 50 for A and B; C pays 50 for A and C. */
  const SharedMeals: seq<Expense> := [
    Expense("1", "Exp 1", 50.0, [("B", 50.0)], "food", "2023-01-01", [("A", 25.0), ("B", 25.0)]),
    Expense("2", "Exp 2", 50.0, [("C", 50.0)], "food", "2023-01-01", [("A", 25.0), ("C", 25.0)])
  ]

  lemma TrioIsDistinct()
    ensures RosterIds(Trio) == ["A", "B", "C"]
    ensures Distinct(RosterIds(Trio))
  {
    assert RosterIds(Trio) == ["A", "B", "C"];
  }

  const SharedMealsBalances: seq<Balance> := [Balance("A", -50.0), Balance("B", 25.0), Balance("C", 25.0)]

  /** A owes 50, B and C are owed 25 each. */
  lemma SharedMealsBalancesAreNet()
    ensures BalancesOf(Trio, SharedMeals) == SharedMealsBalances
  {
    var e1, e2 := SharedMeals[0], SharedMeals[1];
    TrioIsDistinct();
    assert ExpenseIds(e1) == ["B", "A", "B"] && ExpenseIds(e2) == ["C", "A", "C"];
    RosterOfThree(Trio, SharedMeals);
    assert SharedMeals == [e1, e2];
    forall id | id in ["A", "B", "C"]
      ensures Net(SharedMeals, id)
           == Balance(id, (Share(("B", 50.0), id) - (Share(("A", 25.0), id) + Share(("B", 25.0), id)))
                          + (Share(("C", 50.0), id) - (Share(("A", 25.0), id) + Share(("C", 25.0), id))))
    {
      TwoExpenses(e1, e2, id);
      OneEntry(("B", 50.0), id);
      TwoEntries(("A", 25.0), ("B", 25.0), id);
      OneEntry(("C", 50.0), id);
      TwoEntries(("A", 25.0), ("C", 25.0), id);
    }
  }

  /** Two transactions: A pays B 25, then A pays C 25. */
  lemma SharedMealsSettlements()
    ensures Settlements(SharedMealsBalances) == [Transaction("A", "B", 25.0), Transaction("A", "C", 25.0)]
  {
    var a, b, c := Balance("A", -50.0), Balance("B", 25.0), Balance("C", 25.0);
    assert SharedMealsBalances == [a, b, c];
    ThreeParties(a, b, c, [a], [b, c]);
    OneToTwoMatch(a, b, c, 2500, 2500);
  }

  // ---------------------------------------------------------------------------
  // A group the planner leaves unsettled
  // ---------------------------------------------------------------------------

  const DeadZone: seq<Balance> := [Balance("A", -0.018), Balance("B", 0.009), Balance("C", 0.009)]

  /**
   * The balances add up to zero and A owes almost two cents, yet no
   * transaction is planned: B and C are each owed less than a cent, so
   * neither counts as a creditor. Applying the plan does not bring every
   * balance within a cent of zero.
   */
  lemma DeadZoneLeavesDebt()
    ensures SumAmounts(DeadZone) == 0.0
    ensures DeadZone[0].amount < -SettledEpsilon
    ensures Settlements(DeadZone) == []
  {
    var a, b, c := Balance("A", -0.018), Balance("B", 0.009), Balance("C", 0.009);
    DeadZoneSum();
    assert DeadZone == [a, b, c];
    ThreeParties(a, b, c, [a], []);
  }

  lemma DeadZoneSum()
    ensures SumAmounts(DeadZone) == 0.0
  {
    var b := DeadZone;
    assert b[..2][..1] == b[..1] && b[..1][..0] == [];
    assert SumAmounts(b[..1]) == -0.018;
    assert SumAmounts(b[..2]) == -0.009;
  }
}
