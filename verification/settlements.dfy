/**
 * SettlementPlanner: `calculateSettlements` (src/lib/logic.ts:45-87), a greedy
 * matcher that walks the debtors (most negative first) and the creditors
 * (most positive first) with two cursors and proposes one transfer per step.
 */
module SettlementPlanner {
  import opened Types
  import opened Numbers
  import opened BalanceCalculator
  import opened StableSort

  /** Transfers of this size or less are not proposed. */
  const MinTransfer: real := 0.005

  /** `b` alone when it belongs on the given side (owes, or is owed, more than a cent), nothing otherwise. */
  function Pick(b: Balance, debtors: bool): seq<Balance>
  {
    if (if debtors then b.amount < -SettledEpsilon else b.amount > SettledEpsilon) then [b] else []
  }

  /** `filter(b => b.amount < -0.01)` for the debtors, `filter(b => b.amount > 0.01)` for the creditors. */
  function Partition(balances: seq<Balance>, debtors: bool): (r: seq<Balance>)
    ensures forall b :: b in r <==> b in balances && (if debtors then b.amount < -SettledEpsilon else b.amount > SettledEpsilon)
    ensures |r| <= |balances|
  {
    if |balances| == 0 then []
    else
      var init, b := balances[..|balances| - 1], balances[|balances| - 1];
      assert balances == init + [b];
      Partition(init, debtors) + Pick(b, debtors)
  }

  /** Appending one balance to a list adds at most that balance, at the end, to either side. */
  lemma PartitionSnoc(init: seq<Balance>, b: Balance, debtors: bool)
    ensures Partition(init + [b], debtors) == Partition(init, debtors) + Pick(b, debtors)
  {
    assert (init + [b])[..|init|] == init;
  }

  /**
   * Filtering keeps the input order and each entry's multiplicity: the side
   * of a concatenation is the concatenation of the sides.
   */
  lemma {:induction false} PartitionAppend(a: seq<Balance>, b: seq<Balance>, debtors: bool)
    ensures Partition(a + b, debtors) == Partition(a, debtors) + Partition(b, debtors)
  {
    if |b| == 0 {
      assert a + b == a;
      assert Partition(a, debtors) + [] == Partition(a, debtors);
    } else {
      var init, y := b[..|b| - 1], b[|b| - 1];
      assert b == init + [y];
      assert a + b == (a + init) + [y];
      PartitionSnoc(a + init, y, debtors);
      PartitionAppend(a, init, debtors);
      PartitionSnoc(init, y, debtors);
      Reassociate(Partition(a, debtors), Partition(init, debtors), Pick(y, debtors));
    }
  }

  /** Every pending debtor still owes at least a cent. */
  predicate Debtors(ds: seq<Balance>)
  {
    forall k :: 0 <= k < |ds| ==> ds[k].amount <= -SettledEpsilon
  }

  /** Every pending creditor is still owed at least a cent. */
  predicate Creditors(cs: seq<Balance>)
  {
    forall k :: 0 <= k < |cs| ==> cs[k].amount >= SettledEpsilon
  }

  function IdsOf(bs: seq<Balance>): set<string>
  {
    set k | 0 <= k < |bs| :: bs[k].userId
  }

  /**
   * `Math.min(Math.abs(debtor.amount), creditor.amount)`: what one step
   * settles, no more than either side holds and all of one side's amount.
   */
  function StepAmount(debtor: Balance, creditor: Balance): (r: real)
    ensures r <= Abs(debtor.amount) && r <= creditor.amount
    ensures r == Abs(debtor.amount) || r == creditor.amount
  {
    Min(Abs(debtor.amount), creditor.amount)
  }

  /**
   * The transaction one step records: a single transfer from the debtor to the
   * creditor, within half a cent of the settled amount and at least a cent,
   * exactly when the settled amount is above half a cent.
   */
  function Proposed(debtor: Balance, creditor: Balance): (r: seq<Transaction>)
    ensures |r| <= 1
    ensures r != [] <==> StepAmount(debtor, creditor) > MinTransfer
    ensures r != [] ==>
      && r[0].fromUserId == debtor.userId
      && r[0].toUserId == creditor.userId
      && Abs(r[0].amount - StepAmount(debtor, creditor)) <= MinTransfer
      && r[0].amount >= SettledEpsilon
  {
    var amount := StepAmount(debtor, creditor);
    if amount > MinTransfer then [Transaction(debtor.userId, creditor.userId, Round2(amount))] else []
  }

  /**
   * The pending debtors and creditors after one step: the settled amount is
   * applied to the current pair, and each of them is dropped once it is within
   * a cent of zero. At least one of them is always dropped, so the loop's
   * variant goes down, and what remains is still pending.
   */
  function Advance(ds: seq<Balance>, cs: seq<Balance>): (r: (seq<Balance>, seq<Balance>))
    requires |ds| > 0 && |cs| > 0
    requires Debtors(ds) && Creditors(cs)
    ensures Debtors(r.0) && Creditors(r.1)
    ensures |r.0| + |r.1| < |ds| + |cs|
    ensures |r.0| <= |ds| && |r.1| <= |cs|
    ensures IdsOf(r.0) <= IdsOf(ds) && IdsOf(r.1) <= IdsOf(cs)
  {
    var amount := StepAmount(ds[0], cs[0]);
    var debtor := ds[0].(amount := ds[0].amount + amount);
    var creditor := cs[0].(amount := cs[0].amount - amount);
    var ds' := if Abs(debtor.amount) < SettledEpsilon then ds[1..] else [debtor] + ds[1..];
    var cs' := if creditor.amount < SettledEpsilon then cs[1..] else [creditor] + cs[1..];
    assert IdsOf(ds') <= IdsOf(ds) by {
      forall k | 0 <= k < |ds'| ensures ds'[k].userId in IdsOf(ds) {
        assert ds'[k].userId == ds[if ds' == ds[1..] then k + 1 else if k == 0 then 0 else k].userId;
      }
    }
    assert IdsOf(cs') <= IdsOf(cs) by {
      forall k | 0 <= k < |cs'| ensures cs'[k].userId in IdsOf(cs) {
        assert cs'[k].userId == cs[if cs' == cs[1..] then k + 1 else if k == 0 then 0 else k].userId;
      }
    }
    (ds', cs')
  }

  /**
   * The `while` loop, from the debtors at and after cursor `i` and the
   * creditors at and after cursor `j`. It proposes fewer transactions than
   * there are pending participants.
   */
  function Match(ds: seq<Balance>, cs: seq<Balance>): (r: seq<Transaction>)
    requires Debtors(ds) && Creditors(cs)
    ensures r == [] || |r| < |ds| + |cs|
    decreases |ds| + |cs|
  {
    if |ds| == 0 || |cs| == 0 then []
    else
      var next := Advance(ds, cs);
      Proposed(ds[0], cs[0]) + Match(next.0, next.1)
  }

  /** Every proposed transaction goes from a pending debtor to a pending creditor and moves at least a cent. */
  lemma {:induction false} MatchParties(ds: seq<Balance>, cs: seq<Balance>)
    requires Debtors(ds) && Creditors(cs)
    ensures forall t :: t in Match(ds, cs) ==>
      t.fromUserId in IdsOf(ds) && t.toUserId in IdsOf(cs) && t.amount >= SettledEpsilon
    decreases |ds| + |cs|
  {
    if |ds| > 0 && |cs| > 0 {
      var next := Advance(ds, cs);
      MatchParties(next.0, next.1);
      assert ds[0].userId in IdsOf(ds) && cs[0].userId in IdsOf(cs);
    }
  }

  /** The total of the proposed transfers. */
  function Volume(ts: seq<Transaction>): real
  {
    if |ts| == 0 then 0.0 else ts[0].amount + Volume(ts[1..])
  }

  /** Pending debtors add up to a debt, pending creditors to a credit. */
  lemma {:induction false} PendingSigns(ds: seq<Balance>, cs: seq<Balance>)
    requires Debtors(ds) && Creditors(cs)
    ensures SumAmounts(ds) <= 0.0 && SumAmounts(cs) >= 0.0
    decreases |ds| + |cs|
  {
    if |ds| > 0 {
      assert Debtors(ds[..|ds| - 1]) by {
        forall k | 0 <= k < |ds| - 1 ensures ds[..|ds| - 1][k] == ds[k] { }
      }
      PendingSigns(ds[..|ds| - 1], cs);
    } else if |cs| > 0 {
      assert Creditors(cs[..|cs| - 1]) by {
        forall k | 0 <= k < |cs| - 1 ensures cs[..|cs| - 1][k] == cs[k] { }
      }
      PendingSigns(ds, cs[..|cs| - 1]);
    }
  }

  /**
   * One step moves `StepAmount` off the outstanding debt and credit; a party it
   * drops takes a residue of at most a cent with it.
   */
  lemma AdvanceSums(ds: seq<Balance>, cs: seq<Balance>)
    requires |ds| > 0 && |cs| > 0
    requires Debtors(ds) && Creditors(cs)
    ensures var next, a := Advance(ds, cs), StepAmount(ds[0], cs[0]);
      && 0.0 <= a
      && -SumAmounts(next.0) <= -SumAmounts(ds) - a
      && -SumAmounts(next.0) - SettledEpsilon * (|next.0| as real) >= -SumAmounts(ds) - a - SettledEpsilon * (|ds| as real)
      && SumAmounts(next.1) <= SumAmounts(cs) - a
      && SumAmounts(next.1) - SettledEpsilon * (|next.1| as real) >= SumAmounts(cs) - a - SettledEpsilon * (|cs| as real)
  {
    var a := StepAmount(ds[0], cs[0]);
    var next := Advance(ds, cs);
    HeadSettles(ds, a, next.0, true);
    HeadSettles(cs, a, next.1, false);
  }

  /**
   * Applying `a` to the first debtor (`debtor`) or creditor (not `debtor`)
   * and dropping it once it is within a cent of zero.
   */
  lemma HeadSettles(bs: seq<Balance>, a: real, bs': seq<Balance>, debtor: bool)
    requires |bs| > 0 && 0.0 <= a
    requires if debtor then a <= -bs[0].amount else a <= bs[0].amount
    requires var head := bs[0].(amount := if debtor then bs[0].amount + a else bs[0].amount - a);
      bs' == if Abs(head.amount) < SettledEpsilon then bs[1..] else [head] + bs[1..]
    ensures var sign := if debtor then -1.0 else 1.0;
      && sign * SumAmounts(bs') <= sign * SumAmounts(bs) - a
      && sign * SumAmounts(bs') - SettledEpsilon * (|bs'| as real) >= sign * SumAmounts(bs) - a - SettledEpsilon * (|bs| as real)
  {
    var head := bs[0].(amount := if debtor then bs[0].amount + a else bs[0].amount - a);
    assert bs == [bs[0]] + bs[1..];
    SumAmountsCons(bs[0], bs[1..]);
    SumAmountsCons(head, bs[1..]);
  }

  /**
   * What the loop proposes in total is at most the outstanding debt and at
   * most the outstanding credit, and it exhausts one of them up to a cent per
   * participant on that side, give or take half a cent of rounding per
   * participant.
   */
  lemma {:induction false} MatchVolume(ds: seq<Balance>, cs: seq<Balance>)
    requires Debtors(ds) && Creditors(cs)
    ensures var v, n := Volume(Match(ds, cs)), (|ds| + |cs|) as real;
      && v <= -SumAmounts(ds) + MinTransfer * n
      && v <= SumAmounts(cs) + MinTransfer * n
      && (|| v >= -SumAmounts(ds) - SettledEpsilon * (|ds| as real) - MinTransfer * n
          || v >= SumAmounts(cs) - SettledEpsilon * (|cs| as real) - MinTransfer * n)
    decreases |ds| + |cs|
  {
    PendingSigns(ds, cs);
    if |ds| > 0 && |cs| > 0 {
      var next := Advance(ds, cs);
      var step, rest := Proposed(ds[0], cs[0]), Match(next.0, next.1);
      MatchVolume(next.0, next.1);
      AdvanceSums(ds, cs);
      assert Match(ds, cs) == step + rest;
      var a := StepAmount(ds[0], cs[0]);
      assert a - MinTransfer <= Volume(step) <= a + MinTransfer && Volume(step + rest) == Volume(step) + Volume(rest) by {
        if step != [] {
          assert (step + rest)[1..] == rest && step[1..] == [];
        }
      }
    }
  }

  /**
   * The planned transfers in total: at most what the debtors owe and at most
   * what the creditors are owed (over the balances beyond a cent), and all of
   * one side of it but a cent per participant on that side, give or take half
   * a cent per participant.
   */
  lemma SettlementsVolume(balances: seq<Balance>)
    ensures var debts, credits := Partition(balances, true), Partition(balances, false);
      var v, n := Volume(Settlements(balances)), (|debts| + |credits|) as real;
      && v <= -SumAmounts(debts) + MinTransfer * n
      && v <= SumAmounts(credits) + MinTransfer * n
      && (|| v >= -SumAmounts(debts) - SettledEpsilon * (|debts| as real) - MinTransfer * n
          || v >= SumAmounts(credits) - SettledEpsilon * (|credits| as real) - MinTransfer * n)
  {
    var debts, credits := Partition(balances, true), Partition(balances, false);
    SortedPartitionsArePending(balances);
    SortKeepsSum(debts, false);
    SortKeepsSum(credits, true);
    MatchVolume(SortBy(debts, false), SortBy(credits, true));
  }

  /** Sorting a partition keeps exactly its members, so the sorted debtors all owe, and the sorted creditors are all owed, at least a cent. */
  lemma SortedPartitionsArePending(balances: seq<Balance>)
    ensures Debtors(SortBy(Partition(balances, true), false))
    ensures Creditors(SortBy(Partition(balances, false), true))
  {
    SortedPartitionIsPending(balances, true);
    SortedPartitionIsPending(balances, false);
  }

  lemma SortedPartitionIsPending(balances: seq<Balance>, debtors: bool)
    ensures var sorted := SortBy(Partition(balances, debtors), !debtors);
      forall k :: 0 <= k < |sorted| ==>
        if debtors then sorted[k].amount < -SettledEpsilon else sorted[k].amount > SettledEpsilon
  {
    var part := Partition(balances, debtors);
    var sorted := SortBy(part, !debtors);
    forall k | 0 <= k < |sorted|
      ensures if debtors then sorted[k].amount < -SettledEpsilon else sorted[k].amount > SettledEpsilon
    {
      SortedMember(part, !debtors, k);
    }
  }

  /**
   * The transactions `calculateSettlements` returns: each runs from a
   * participant who owes more than a cent to one who is owed more than a cent,
   * and moves at least a cent.
   */
  function Settlements(balances: seq<Balance>): (r: seq<Transaction>)
    ensures forall t :: t in r ==>
      && (exists b :: b in balances && b.userId == t.fromUserId && b.amount < -SettledEpsilon)
      && (exists b :: b in balances && b.userId == t.toUserId && b.amount > SettledEpsilon)
      && t.amount >= SettledEpsilon
  {
    var ds := SortBy(Partition(balances, true), false);
    var cs := SortBy(Partition(balances, false), true);
    SortedPartitionsArePending(balances);
    PlanParties(balances, ds, cs);
    Match(ds, cs)
  }

  /**
   * Every transfer matched between the sorted sides goes from someone who owes
   * more than a cent to someone who is owed more than a cent, and moves at
   * least a cent.
   */
  lemma PlanParties(balances: seq<Balance>, ds: seq<Balance>, cs: seq<Balance>)
    requires ds == SortBy(Partition(balances, true), false)
    requires cs == SortBy(Partition(balances, false), true)
    requires Debtors(ds) && Creditors(cs)
    ensures forall t :: t in Match(ds, cs) ==>
      && (exists b :: b in balances && b.userId == t.fromUserId && b.amount < -SettledEpsilon)
      && (exists b :: b in balances && b.userId == t.toUserId && b.amount > SettledEpsilon)
      && t.amount >= SettledEpsilon
  {
    MatchParties(ds, cs);
    forall t | t in Match(ds, cs)
      ensures exists b :: b in balances && b.userId == t.fromUserId && b.amount < -SettledEpsilon
      ensures exists b :: b in balances && b.userId == t.toUserId && b.amount > SettledEpsilon
    {
      var k :| 0 <= k < |ds| && ds[k].userId == t.fromUserId;
      var m :| 0 <= m < |cs| && cs[m].userId == t.toUserId;
      SortedMember(Partition(balances, true), false, k);
      SortedMember(Partition(balances, false), true, m);
    }
  }

  /**
   * Neither side's filter separates tied balances: every balance with an
   * amount `v` beyond a cent lands on the same side, in input order.
   */
  lemma {:induction false} PartitionKeepsTies(balances: seq<Balance>, debtors: bool, v: real)
    requires if debtors then v < -SettledEpsilon else v > SettledEpsilon
    ensures WithAmount(Partition(balances, debtors), v) == WithAmount(balances, v)
  {
    if |balances| > 0 {
      var init, b := balances[..|balances| - 1], balances[|balances| - 1];
      PartitionKeepsTies(init, debtors, v);
      var side := Partition(init, debtors);
      if b.amount == v {
        assert Partition(balances, debtors) == side + [b];
        assert (side + [b])[..|side|] == side;
      } else {
        assert WithAmount(balances, v) == WithAmount(init, v) + [];
        if Pick(b, debtors) == [] {
          assert Partition(balances, debtors) == side;
        } else {
          assert Partition(balances, debtors) == side + [b];
          assert (side + [b])[..|side|] == side;
        }
      }
    }
  }

  /**
   * Debtors that owe the same amount are paired off in the order they came
   * in, and so are creditors owed the same amount: filtering and the stable
   * sort both keep ties in input order.
   */
  lemma TiedPartiesKeepInputOrder(balances: seq<Balance>, v: real)
    ensures v < -SettledEpsilon ==> WithAmount(SortBy(Partition(balances, true), false), v) == WithAmount(balances, v)
    ensures v > SettledEpsilon ==> WithAmount(SortBy(Partition(balances, false), true), v) == WithAmount(balances, v)
  {
    SortIsStable(Partition(balances, true), false, v);
    SortIsStable(Partition(balances, false), true, v);
    if v < -SettledEpsilon {
      PartitionKeepsTies(balances, true, v);
    }
    if v > SettledEpsilon {
      PartitionKeepsTies(balances, false, v);
    }
  }

  /**
   * The plan has fewer transactions than there are participants beyond a
   * cent, and at least one as soon as someone owes and someone is owed.
   */
  lemma SettlementsCount(balances: seq<Balance>)
    ensures var n := |Partition(balances, true)| + |Partition(balances, false)|;
      Settlements(balances) == [] || |Settlements(balances)| <= n - 1
    ensures |Partition(balances, true)| > 0 && |Partition(balances, false)| > 0 ==> |Settlements(balances)| >= 1
  {
    var ds := SortBy(Partition(balances, true), false);
    var cs := SortBy(Partition(balances, false), true);
    SortedPartitionsArePending(balances);
    if |ds| > 0 && |cs| > 0 {
      assert StepAmount(ds[0], cs[0]) >= SettledEpsilon;
      assert |Proposed(ds[0], cs[0])| == 1;
    }
  }

  /** When the partitions are already in order, the plan matches them as they stand. */
  lemma SettlementsOfOrdered(balances: seq<Balance>, ds: seq<Balance>, cs: seq<Balance>)
    requires Partition(balances, true) == ds && SortedBy(ds, false)
    requires Partition(balances, false) == cs && SortedBy(cs, true)
    ensures Debtors(ds) && Creditors(cs)
    ensures Settlements(balances) == Match(ds, cs)
  {
    SortedIsFixed(ds, false);
    SortedIsFixed(cs, true);
    SortedPartitionsArePending(balances);
  }

  /**
   * Every working debtor (`debtors`) still owes or is settled, and every
   * working creditor (not `debtors`) is still owed or is settled: no step
   * overshoots zero.
   */
  predicate Settling(bs: seq<Balance>, debtors: bool)
  {
    forall k :: 0 <= k < |bs| ==> if debtors then bs[k].amount <= 0.0 else bs[k].amount >= 0.0
  }

  /** One loop step moves the current debtor and creditor toward zero and never past it. */
  lemma StepKeepsSigns(ds: seq<Balance>, cs: seq<Balance>, i: nat, j: nat,
                       debtor: Balance, creditor: Balance, amount: real, paid: Balance, received: Balance,
                       ds': seq<Balance>, cs': seq<Balance>)
    requires i < |ds| && j < |cs|
    requires Settling(ds, true) && Settling(cs, false)
    requires debtor == ds[i] && creditor == cs[j]
    requires amount == StepAmount(debtor, creditor)
    requires paid == debtor.(amount := debtor.amount + amount)
    requires received == creditor.(amount := creditor.amount - amount)
    requires ds' == ds[i := paid] && cs' == cs[j := received]
    ensures Settling(ds', true) && Settling(cs', false)
  {
    assert debtor.amount <= 0.0 && creditor.amount >= 0.0;
    SettlingUpdate(ds, i, paid, true);
    SettlingUpdate(cs, j, received, false);
  }

  /** Replacing one working balance by one of the same sign keeps the list settling. */
  lemma SettlingUpdate(bs: seq<Balance>, i: nat, b: Balance, debtors: bool)
    requires i < |bs| && Settling(bs, debtors)
    requires if debtors then b.amount <= 0.0 else b.amount >= 0.0
    ensures Settling(bs[i := b], debtors)
  {
  }

  /**
   * `calculateSettlements`: clones the balances, keeps the debtors sorted by
   * ascending amount and the creditors by descending amount in two fresh
   * arrays, and runs the two-cursor loop over them. The caller's list is
   * never written.
   */
  method CalculateSettlements(balances: seq<Balance>) returns (transactions: seq<Transaction>)
    ensures transactions == Settlements(balances)
  {
    var ds := SortBy(Partition(balances, true), false);
    var cs := SortBy(Partition(balances, false), true);
    var debtors := Working(ds);
    var creditors := Working(cs);
    SortedPartitionsArePending(balances);
    transactions := SettleInPlace(debtors, creditors);
  }

  /** A fresh array holding the cloned balances, which the loop then updates. */
  method Working(balances: seq<Balance>) returns (a: array<Balance>)
    ensures fresh(a) && a[..] == balances
  {
    a := new Balance[|balances|](k requires 0 <= k < |balances| => balances[k]);
  }

  /**
   * The `while` loop of `calculateSettlements` over the working debtors and
   * creditors: each step moves `min(|debt|, credit)` from the current debtor
   * to the current creditor, records it when it exceeds half a cent, and
   * advances past whichever of the two is now within a cent of zero.
   */
  method SettleInPlace(debtors: array<Balance>, creditors: array<Balance>) returns (transactions: seq<Transaction>)
    requires debtors != creditors
    requires Debtors(debtors[..]) && Creditors(creditors[..])
    modifies debtors, creditors
    ensures transactions == Match(old(debtors[..]), old(creditors[..]))
    ensures Settling(debtors[..], true) && Settling(creditors[..], false)
  {
    transactions := [];
    var i, j := 0, 0;
    ghost var plan := Match(debtors[..], creditors[..]);
    assert debtors[0..] == debtors[..] && creditors[0..] == creditors[..];

    while i < debtors.Length && j < creditors.Length
      invariant 0 <= i <= debtors.Length && 0 <= j <= creditors.Length
      invariant Debtors(debtors[i..]) && Creditors(creditors[j..])
      invariant transactions + Match(debtors[i..], creditors[j..]) == plan
      invariant Settling(debtors[..], true) && Settling(creditors[..], false)
      decreases debtors.Length - i + creditors.Length - j
    {
      var debtor := debtors[i];
      var creditor := creditors[j];
      ghost var recorded, ds, cs, i0, j0 := transactions, debtors[..], creditors[..], i, j;
      var amount := Min(Abs(debtor.amount), creditor.amount);
      if amount > MinTransfer {
        transactions := transactions + [Transaction(debtor.userId, creditor.userId, Round2(amount))];
      }
      var paid := debtor.(amount := debtor.amount + amount);
      var received := creditor.(amount := creditor.amount - amount);
      debtors[i] := paid;
      creditors[j] := received;
      if Abs(paid.amount) < SettledEpsilon {
        i := i + 1;
      }
      if received.amount < SettledEpsilon {
        j := j + 1;
      }
      StepKeepsSigns(ds, cs, i0, j0, debtor, creditor, amount, paid, received, debtors[..], creditors[..]);
      StepOnWorkingLists(ds, cs, i0, j0, recorded, debtor, creditor, amount, paid, received,
                         debtors[..], creditors[..], i, j, transactions, plan);
    }
  }

  /**
   * One loop step on the working lists, with the debtor cursor `i` and the
   * creditor cursor `j`, does what `Match` does with its first pair: the
   * transactions recorded so far followed by the plan for what is pending
   * stay the plan of the whole group, and only pending participants remain
   * behind the cursors.
   */
  lemma StepOnWorkingLists(ds: seq<Balance>, cs: seq<Balance>, i: nat, j: nat, recorded: seq<Transaction>,
                           debtor: Balance, creditor: Balance, amount: real, paid: Balance, received: Balance,
                           ds': seq<Balance>, cs': seq<Balance>, i': nat, j': nat, recorded': seq<Transaction>,
                           plan: seq<Transaction>)
    requires i < |ds| && j < |cs|
    requires Debtors(ds[i..]) && Creditors(cs[j..])
    requires recorded + Match(ds[i..], cs[j..]) == plan
    requires debtor == ds[i] && creditor == cs[j]
    requires amount == StepAmount(debtor, creditor)
    requires recorded' == if amount > MinTransfer then recorded + [Transaction(debtor.userId, creditor.userId, Round2(amount))] else recorded
    requires paid == debtor.(amount := debtor.amount + amount)
    requires received == creditor.(amount := creditor.amount - amount)
    requires ds' == ds[i := paid] && cs' == cs[j := received]
    requires i' == if Abs(paid.amount) < SettledEpsilon then i + 1 else i
    requires j' == if received.amount < SettledEpsilon then j + 1 else j
    ensures i' <= |ds'| && j' <= |cs'|
    ensures Debtors(ds'[i'..]) && Creditors(cs'[j'..])
    ensures recorded' + Match(ds'[i'..], cs'[j'..]) == plan
  {
    StepIsAdvance(ds, cs, i, j, ds', cs', i', j');
    assert ds[i..][0] == ds[i] && cs[j..][0] == cs[j];
    PlanStep(ds[i..], cs[j..], recorded, recorded', plan);
  }

  /** Recording the first pair's proposal and planning what `Advance` leaves keeps the plan. */
  lemma PlanStep(ds: seq<Balance>, cs: seq<Balance>, recorded: seq<Transaction>, recorded': seq<Transaction>, plan: seq<Transaction>)
    requires |ds| > 0 && |cs| > 0
    requires Debtors(ds) && Creditors(cs)
    requires recorded + Match(ds, cs) == plan
    requires recorded' == recorded + Proposed(ds[0], cs[0])
    ensures var next := Advance(ds, cs); recorded' + Match(next.0, next.1) == plan
  {
    var next := Advance(ds, cs);
    Regroup(recorded, Proposed(ds[0], cs[0]), Match(next.0, next.1), Match(ds, cs));
  }

  lemma Regroup(recorded: seq<Transaction>, step: seq<Transaction>, rest: seq<Transaction>, whole: seq<Transaction>)
    requires whole == step + rest
    ensures recorded + whole == (recorded + step) + rest
  {
  }

  /** After one step, what lies behind the two cursors is what `Advance` leaves. */
  lemma StepIsAdvance(ds: seq<Balance>, cs: seq<Balance>, i: nat, j: nat,
                      ds': seq<Balance>, cs': seq<Balance>, i': nat, j': nat)
    requires i < |ds| && j < |cs|
    requires Debtors(ds[i..]) && Creditors(cs[j..])
    requires ds' == ds[i := ds[i].(amount := ds[i].amount + StepAmount(ds[i], cs[j]))]
    requires cs' == cs[j := cs[j].(amount := cs[j].amount - StepAmount(ds[i], cs[j]))]
    requires i' == if Abs(ds'[i].amount) < SettledEpsilon then i + 1 else i
    requires j' == if cs'[j].amount < SettledEpsilon then j + 1 else j
    ensures i' <= |ds'| && j' <= |cs'|
    ensures (ds'[i'..], cs'[j'..]) == Advance(ds[i..], cs[j..])
  {
    assert ds[i..][0] == ds[i] && cs[j..][0] == cs[j];
    assert ds'[i + 1..] == ds[i..][1..] && ds'[i..] == [ds'[i]] + ds[i..][1..];
    assert cs'[j + 1..] == cs[j..][1..] && cs'[j..] == [cs'[j]] + cs[j..][1..];
  }
}
