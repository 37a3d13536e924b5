/**
 * `Array.prototype.sort` with the comparators the engine passes it
 * (`(a, b) => a.amount - b.amount` and `(a, b) => b.amount - a.amount`,
 * src/lib/logic.ts:37, 54-55). The sort is stable, so it is modelled as an
 * insertion sort that places each element behind every earlier element it
 * does not strictly precede.
 */
module StableSort {
  import opened BalanceCalculator

  /** The comparator returns a negative number: `a` goes strictly before `b`. */
  predicate Before(a: Balance, b: Balance, descending: bool)
  {
    if descending then b.amount < a.amount else a.amount < b.amount
  }

  predicate SortedBy(s: seq<Balance>, descending: bool)
  {
    forall i, j :: 0 <= i < j < |s| ==> !Before(s[j], s[i], descending)
  }

  /**
   * Inserts `x`, which follows every element of `sorted` in the input, in front
   * of the first element it strictly precedes.
   */
  function InsertSorted(sorted: seq<Balance>, x: Balance, descending: bool): (r: seq<Balance>)
    ensures multiset(r) == multiset(sorted) + multiset{x}
    ensures |r| == |sorted| + 1
  {
    if |sorted| == 0 || Before(x, sorted[0], descending) then [x] + sorted
    else
      assert sorted == [sorted[0]] + sorted[1..];
      [sorted[0]] + InsertSorted(sorted[1..], x, descending)
  }

  /** Inserting into a sorted list keeps it sorted. */
  lemma {:induction false} InsertSortedKeepsOrder(sorted: seq<Balance>, x: Balance, descending: bool)
    requires SortedBy(sorted, descending)
    ensures SortedBy(InsertSorted(sorted, x, descending), descending)
  {
    if |sorted| == 0 || Before(x, sorted[0], descending) {
      forall k | 0 <= k < |sorted| ensures !Before(sorted[k], x, descending) {
        if k > 0 {
          assert !Before(sorted[k], sorted[0], descending);
        }
      }
      ConsKeepsOrder(x, sorted, descending);
    } else {
      var rest := InsertSorted(sorted[1..], x, descending);
      InsertSortedKeepsOrder(sorted[1..], x, descending);
      forall k | 0 <= k < |rest| ensures !Before(rest[k], sorted[0], descending) {
        var y := rest[k];
        assert y in multiset(rest);
        if y != x {
          assert y in multiset(sorted[1..]);
          var m :| 0 <= m < |sorted[1..]| && sorted[1..][m] == y;
          assert sorted[m + 1] == y;
        }
      }
      ConsKeepsOrder(sorted[0], rest, descending);
    }
  }

  /** A sorted list stays sorted behind a head that no element of it strictly precedes. */
  lemma ConsKeepsOrder(head: Balance, rest: seq<Balance>, descending: bool)
    requires SortedBy(rest, descending)
    requires forall k :: 0 <= k < |rest| ==> !Before(rest[k], head, descending)
    ensures SortedBy([head] + rest, descending)
  {
    var r := [head] + rest;
    forall i, j | 0 <= i < j < |r| ensures !Before(r[j], r[i], descending) {
      assert r[j] == rest[j - 1];
      if i > 0 {
        assert r[i] == rest[i - 1];
      }
    }
  }

  /** The sorted copy: a permutation of `s`, ordered by the comparator. */
  function SortBy(s: seq<Balance>, descending: bool): (r: seq<Balance>)
    ensures multiset(r) == multiset(s)
    ensures |r| == |s|
    ensures SortedBy(r, descending)
  {
    if |s| == 0 then []
    else
      assert s == s[..|s| - 1] + [s[|s| - 1]];
      InsertSortedKeepsOrder(SortBy(s[..|s| - 1], descending), s[|s| - 1], descending);
      InsertSorted(SortBy(s[..|s| - 1], descending), s[|s| - 1], descending)
  }

  /** An element that precedes nothing already placed goes last. */
  lemma {:induction false} InsertSortedAtEnd(sorted: seq<Balance>, x: Balance, descending: bool)
    requires forall k :: 0 <= k < |sorted| ==> !Before(x, sorted[k], descending)
    ensures InsertSorted(sorted, x, descending) == sorted + [x]
  {
    if |sorted| > 0 {
      InsertSortedAtEnd(sorted[1..], x, descending);
      assert sorted == [sorted[0]] + sorted[1..];
    }
  }

  /** Stability: a list already in order, ties included, is left exactly as it is. */
  lemma {:induction false} SortedIsFixed(s: seq<Balance>, descending: bool)
    requires SortedBy(s, descending)
    ensures SortBy(s, descending) == s
  {
    if |s| > 0 {
      var init, last := s[..|s| - 1], s[|s| - 1];
      assert s == init + [last];
      assert SortedBy(init, descending) by {
        forall i, j | 0 <= i < j < |init| ensures !Before(init[j], init[i], descending) {
          assert init[i] == s[i] && init[j] == s[j];
        }
      }
      SortedIsFixed(init, descending);
      forall k | 0 <= k < |init| ensures !Before(last, init[k], descending) {
        assert init[k] == s[k];
      }
      InsertSortedAtEnd(init, last, descending);
    }
  }

  /** Every element of a sorted copy comes from the original. */
  lemma SortedMember(s: seq<Balance>, descending: bool, k: nat)
    requires k < |s|
    ensures SortBy(s, descending)[k] in s
  {
    var r := SortBy(s, descending);
    assert r[k] in multiset(r);
  }

  /** Inserting an element adds its amount to the sum. */
  lemma {:induction false} InsertSortedSum(sorted: seq<Balance>, x: Balance, descending: bool)
    ensures SumAmounts(InsertSorted(sorted, x, descending)) == SumAmounts(sorted) + x.amount
  {
    if |sorted| == 0 || Before(x, sorted[0], descending) {
      SumAmountsCons(x, sorted);
    } else {
      var rest := InsertSorted(sorted[1..], x, descending);
      InsertSortedSum(sorted[1..], x, descending);
      SumAmountsCons(sorted[0], rest);
      assert sorted == [sorted[0]] + sorted[1..];
      SumAmountsCons(sorted[0], sorted[1..]);
    }
  }

  /** Sorting does not change the sum of the amounts. */
  lemma {:induction false} SortKeepsSum(s: seq<Balance>, descending: bool)
    ensures SumAmounts(SortBy(s, descending)) == SumAmounts(s)
  {
    if |s| > 0 {
      var init := s[..|s| - 1];
      SortKeepsSum(init, descending);
      InsertSortedSum(SortBy(init, descending), s[|s| - 1], descending);
    }
  }

  // ---------------------------------------------------------------------------
  // Stability
  // ---------------------------------------------------------------------------

  /** `b` alone when its amount is `v`, nothing otherwise. */
  function Tie(b: Balance, v: real): seq<Balance>
  {
    if b.amount == v then [b] else []
  }

  /** The entries of `s` whose amount is `v`, in the order of `s`. */
  function WithAmount(s: seq<Balance>, v: real): seq<Balance>
  {
    if |s| == 0 then [] else WithAmount(s[..|s| - 1], v) + Tie(s[|s| - 1], v)
  }

  /** The same filter, read from the front. */
  lemma {:induction false} WithAmountCons(x: Balance, s: seq<Balance>, v: real)
    ensures WithAmount([x] + s, v) == Tie(x, v) + WithAmount(s, v)
  {
    if |s| > 0 {
      var init := s[..|s| - 1];
      assert ([x] + s)[..|s|] == [x] + init;
      WithAmountCons(x, init, v);
    }
  }

  /** A list none of whose entries has amount `v` keeps none of them. */
  lemma {:induction false} NoneWithAmount(s: seq<Balance>, v: real)
    requires forall k :: 0 <= k < |s| ==> s[k].amount != v
    ensures WithAmount(s, v) == []
  {
    if |s| > 0 {
      NoneWithAmount(s[..|s| - 1], v);
    }
  }

  /** Inserting `x` into a sorted list puts it behind every element already there with the same amount. */
  lemma {:induction false} InsertSortedTies(sorted: seq<Balance>, x: Balance, descending: bool, v: real)
    requires SortedBy(sorted, descending)
    ensures WithAmount(InsertSorted(sorted, x, descending), v)
         == WithAmount(sorted, v) + Tie(x, v)
  {
    if |sorted| == 0 || Before(x, sorted[0], descending) {
      TiesInFront(sorted, x, descending, v);
    } else {
      SortedTail(sorted, descending);
      InsertSortedTies(sorted[1..], x, descending, v);
      TiesBehindHead(sorted, x, v, InsertSorted(sorted[1..], x, descending));
    }
  }

  /** `x` placed in front of a sorted list it precedes comes after the list's entries of its own amount, of which there are none. */
  lemma TiesInFront(sorted: seq<Balance>, x: Balance, descending: bool, v: real)
    requires SortedBy(sorted, descending)
    requires |sorted| == 0 || Before(x, sorted[0], descending)
    ensures WithAmount([x] + sorted, v) == WithAmount(sorted, v) + Tie(x, v)
  {
    WithAmountCons(x, sorted, v);
    if x.amount == v {
      if |sorted| > 0 {
        NoTiesBehind(sorted, x, descending);
      }
      assert [x] + [] == [] + [x];
    } else {
      assert [] + WithAmount(sorted, v) == WithAmount(sorted, v) + [];
    }
  }

  /** Keeping the head in front of the insertion into the tail keeps its place among the ties. */
  lemma TiesBehindHead(sorted: seq<Balance>, x: Balance, v: real, inserted: seq<Balance>)
    requires |sorted| > 0
    requires WithAmount(inserted, v) == WithAmount(sorted[1..], v) + Tie(x, v)
    ensures WithAmount([sorted[0]] + inserted, v) == WithAmount(sorted, v) + Tie(x, v)
  {
    assert sorted == [sorted[0]] + sorted[1..];
    HeadThenTies(sorted[0], sorted[1..], inserted, Tie(x, v), v);
  }

  /** Re-association step of `TiesBehindHead`, stated over plain values. */
  lemma HeadThenTies(head: Balance, rest: seq<Balance>, inserted: seq<Balance>, tail: seq<Balance>, v: real)
    requires WithAmount(inserted, v) == WithAmount(rest, v) + tail
    ensures WithAmount([head] + inserted, v) == WithAmount([head] + rest, v) + tail
  {
    WithAmountCons(head, inserted, v);
    WithAmountCons(head, rest, v);
    Reassociate(Tie(head, v), WithAmount(rest, v), tail);
  }

  lemma Reassociate(a: seq<Balance>, b: seq<Balance>, c: seq<Balance>)
    ensures a + (b + c) == (a + b) + c
  {
  }

  /** When `x` goes in front of a sorted list, no element of the list has its amount. */
  lemma NoTiesBehind(sorted: seq<Balance>, x: Balance, descending: bool)
    requires SortedBy(sorted, descending)
    requires |sorted| > 0 && Before(x, sorted[0], descending)
    ensures WithAmount(sorted, x.amount) == []
  {
    forall k | 0 <= k < |sorted| ensures sorted[k].amount != x.amount {
      if k > 0 {
        assert !Before(sorted[k], sorted[0], descending);
      }
    }
    NoneWithAmount(sorted, x.amount);
  }

  lemma SortedTail(sorted: seq<Balance>, descending: bool)
    requires |sorted| > 0 && SortedBy(sorted, descending)
    ensures SortedBy(sorted[1..], descending)
  {
    var rest := sorted[1..];
    forall i, j | 0 <= i < j < |rest| ensures !Before(rest[j], rest[i], descending) {
      assert rest[i] == sorted[i + 1] && rest[j] == sorted[j + 1];
    }
  }

  /**
   * Stability: for every amount, the entries of the sorted copy holding that
   * amount are exactly the input's entries holding it, in input order.
   */
  lemma {:induction false} SortIsStable(s: seq<Balance>, descending: bool, v: real)
    ensures WithAmount(SortBy(s, descending), v) == WithAmount(s, v)
  {
    if |s| > 0 {
      var init := s[..|s| - 1];
      SortIsStable(init, descending, v);
      InsertSortedTies(SortBy(init, descending), s[|s| - 1], descending, v);
    }
  }
}
