/**
 * PayerSuggester: `getSuggestedPayer` (src/lib/logic.ts:33-43) proposes the
 * participant with the lowest balance as the next to pay, or nobody when the
 * group is empty or that lowest balance is within a cent of zero.
 */
module PayerSuggester {
  import opened Types
  import opened Numbers
  import opened BalanceCalculator
  import opened StableSort

  /**
   * `getSuggestedPayer`: sorts a copy ascending by amount and looks at its
   * first element. Nobody is suggested for an empty or settled group, and a
   * suggestion names the earliest participant holding the lowest balance,
   * which is at least a cent from zero.
   */
  function GetSuggestedPayer(balances: seq<Balance>): (r: Option<string>)
    ensures |balances| == 0 ==> r == None
    ensures (forall k :: 0 <= k < |balances| ==> Abs(balances[k].amount) < SettledEpsilon) ==> r == None
    ensures r.Some? ==> exists k ::
              && 0 <= k < |balances|
              && balances[k].userId == r.value
              && Abs(balances[k].amount) >= SettledEpsilon
              && (forall j :: 0 <= j < |balances| ==> balances[k].amount <= balances[j].amount)
              && (forall j :: 0 <= j < k ==> balances[k].amount < balances[j].amount)
  {
    if |balances| == 0 then None
    else
      var sorted := SortBy(balances, false);
      SortedHeadIsFirstMin(balances);
      if Abs(sorted[0].amount) < SettledEpsilon then None else Some(sorted[0].userId)
  }

  /**
   * The position of the lowest balance, the earliest one among ties: an
   * independent reference for the first element of the ascending sort.
   */
  function FirstMinIndex(s: seq<Balance>): (k: nat)
    requires |s| > 0
    ensures k < |s|
    ensures forall j :: 0 <= j < |s| ==> s[k].amount <= s[j].amount
    ensures forall j :: 0 <= j < k ==> s[k].amount < s[j].amount
  {
    if |s| == 1 then 0
    else
      var k := FirstMinIndex(s[..|s| - 1]);
      if s[|s| - 1].amount < s[k].amount then |s| - 1 else k
  }

  /** The stable ascending sort puts the earliest lowest balance first. */
  lemma {:induction false} SortedHeadIsFirstMin(s: seq<Balance>)
    requires |s| > 0
    ensures SortBy(s, false)[0] == s[FirstMinIndex(s)]
  {
    if |s| > 1 {
      var init := s[..|s| - 1];
      SortedHeadIsFirstMin(init);
      assert s[FirstMinIndex(init)] == init[FirstMinIndex(init)];
    }
  }

  /**
   * Nobody is suggested for an empty list; otherwise the suggestion is the
   * earliest participant holding the lowest balance, unless that balance is
   * within a cent of zero.
   */
  lemma SuggestedPayerIsFirstMinimum(balances: seq<Balance>)
    ensures |balances| == 0 ==> GetSuggestedPayer(balances) == None
    ensures |balances| > 0 ==>
      var k := FirstMinIndex(balances);
      GetSuggestedPayer(balances) == if Abs(balances[k].amount) < SettledEpsilon then None else Some(balances[k].userId)
  {
    if |balances| > 0 {
      SortedHeadIsFirstMin(balances);
    }
  }
}
