/**
  The recursive enumeration `combinations` of engine/holdem_evaluator.cpp: every
  k-element subset of positions, once each.
  */
module Combinations {

  /** What the recursion emits from position i with r elements still to choose. */
  function Picks<T>(arr: seq<T>, current: seq<T>, r: nat, i: nat): seq<seq<T>>
    requires i <= |arr|
    decreases |arr| - i
  {
    if r == 0 then [current]
    else if i == |arr| then []
    else Picks(arr, current + [arr[i]], r - 1, i + 1) + Picks(arr, current, r, i + 1)
  }

  method Combine<T>(arr: seq<T>, k: nat) returns (out: seq<seq<T>>)
    ensures out == Picks(arr, [], k, 0)
  {
    out := Dfs(arr, k, 0, [], []);
  }

  /** dfs(start): push an element, recurse past it, pop it again. */
  method Dfs<T>(arr: seq<T>, k: nat, start: nat, current: seq<T>, out: seq<seq<T>>) returns (grown: seq<seq<T>>)
    requires start <= |arr| && |current| <= k
    ensures grown == out + Picks(arr, current, k - |current|, start)
    decreases |arr| - start
  {
    grown := out;
    var stack := current;
    if |stack| == k {
      grown := grown + [stack];
      return;
    }
    ghost var r := k - |current|;
    for i := start to |arr|
      invariant stack == current
      invariant grown + Picks(arr, current, r, i) == out + Picks(arr, current, r, start)
    {
      stack := stack + [arr[i]];
      AppendAssociates(grown, Picks(arr, stack, r - 1, i + 1), Picks(arr, current, r, i + 1));
      grown := Dfs(arr, k, i + 1, stack, grown);
      stack := stack[..|stack| - 1];
    }
  }

  lemma AppendAssociates<T>(a: seq<T>, b: seq<T>, c: seq<T>)
    ensures (a + b) + c == a + (b + c)
  {}

  // ----- the same enumeration on positions -----

  /** A choice of k positions: strictly increasing indices into [lo, n). */
  ghost predicate IsChoice(c: seq<nat>, n: nat, k: nat, lo: nat) {
    && |c| == k
    && (forall i :: 0 <= i < k ==> lo <= c[i] < n)
    && (forall i, j :: 0 <= i < j < k ==> c[i] < c[j])
  }

  function Prepend(x: nat, cs: seq<seq<nat>>): (r: seq<seq<nat>>) {
    seq(|cs|, i requires 0 <= i < |cs| => [x] + cs[i])
  }

  function Choices(n: nat, k: nat, lo: nat): seq<seq<nat>>
    requires lo <= n
    decreases n - lo
  {
    if k == 0 then [[]]
    else if lo == n then []
    else Prepend(lo, Choices(n, k - 1, lo + 1)) + Choices(n, k, lo + 1)
  }

  function Select<T>(arr: seq<T>, c: seq<nat>): seq<T>
    requires forall i :: 0 <= i < |c| ==> c[i] < |arr|
  {
    seq(|c|, i requires 0 <= i < |c| => arr[c[i]])
  }

  lemma {:induction false} ChoicesAreChoices(n: nat, k: nat, lo: nat, j: nat)
    requires lo <= n && j < |Choices(n, k, lo)|
    ensures IsChoice(Choices(n, k, lo)[j], n, k, lo)
    decreases n - lo
  {
    if k > 0 {
      var firsts := Choices(n, k - 1, lo + 1);
      if j < |firsts| {
        ChoicesAreChoices(n, k - 1, lo + 1, j);
        assert Choices(n, k, lo)[j] == [lo] + firsts[j];
      } else {
        ChoicesAreChoices(n, k, lo + 1, j - |firsts|);
      }
    }
  }

  lemma ChoiceCases(n: nat, k: nat, lo: nat, c: seq<nat>)
    requires lo <= n && IsChoice(c, n, k, lo)
    ensures |c| == k && (k == 0 ==> c == []) && (k > 0 ==> lo < n)
    ensures k > 0 && c[0] == lo ==> IsChoice(c[1..], n, k - 1, lo + 1) && c == [lo] + c[1..]
    ensures k > 0 && c[0] != lo ==> IsChoice(c, n, k, lo + 1)
  {
    assert k > 0 ==> lo <= c[0] < n;
  }

  lemma {:induction false} EveryChoiceOccurs(n: nat, k: nat, lo: nat, c: seq<nat>) returns (j: nat)
    requires lo <= n && IsChoice(c, n, k, lo)
    ensures j < |Choices(n, k, lo)| && Choices(n, k, lo)[j] == c
    decreases n - lo
  {
    hide IsChoice;
    ChoiceCases(n, k, lo, c);
    if k == 0 {
      j := 0;
    } else if c[0] == lo {
      j := EveryChoiceOccurs(n, k - 1, lo + 1, c[1..]);
    } else {
      var j1 := EveryChoiceOccurs(n, k, lo + 1, c);
      j := |Choices(n, k - 1, lo + 1)| + j1;
    }
  }

  lemma {:induction false} NoChoiceTwice(n: nat, k: nat, lo: nat, i: nat, j: nat)
    requires lo <= n && i < j < |Choices(n, k, lo)|
    ensures Choices(n, k, lo)[i] != Choices(n, k, lo)[j]
    decreases n - lo
  {
    var firsts := Choices(n, k - 1, lo + 1);
    var m := |firsts|;
    if j < m {
      NoChoiceTwice(n, k - 1, lo + 1, i, j);
      assert ([lo] + firsts[i])[1..] == firsts[i] && ([lo] + firsts[j])[1..] == firsts[j];
    } else if i >= m {
      NoChoiceTwice(n, k, lo + 1, i - m, j - m);
    } else {
      ChoicesAreChoices(n, k, lo + 1, j - m);
      assert Choices(n, k, lo)[i][0] == lo;
    }
  }

  /** The pick extends current by the elements at the chosen positions. */
  ghost predicate Selects<T>(arr: seq<T>, current: seq<T>, r: nat, i: nat, c: seq<nat>, pick: seq<T>) {
    IsChoice(c, |arr|, r, i) && pick == current + Select(arr, c)
  }

  lemma SelectsFirst<T>(arr: seq<T>, current: seq<T>, r: nat, i: nat, c: seq<nat>, pick: seq<T>)
    requires i < |arr| && Selects(arr, current + [arr[i]], r, i + 1, c, pick)
    ensures Selects(arr, current, r + 1, i, [i] + c, pick)
  {}

  lemma SelectsLater<T>(arr: seq<T>, current: seq<T>, r: nat, i: nat, c: seq<nat>, pick: seq<T>)
    requires Selects(arr, current, r, i + 1, c, pick)
    ensures Selects(arr, current, r, i, c, pick)
  {}

  lemma SelectsNone<T>(arr: seq<T>, current: seq<T>, i: nat)
    ensures Selects(arr, current, 0, i, [], current)
  {
    assert Select(arr, []) == [];
  }

  lemma {:induction false} PicksLength<T>(arr: seq<T>, current: seq<T>, r: nat, i: nat)
    requires i <= |arr|
    ensures |Picks(arr, current, r, i)| == |Choices(|arr|, r, i)|
    decreases |arr| - i
  {
    if r > 0 && i < |arr| {
      PicksLength(arr, current + [arr[i]], r - 1, i + 1);
      PicksLength(arr, current, r, i + 1);
    }
  }

  lemma PicksSplit<T>(arr: seq<T>, current: seq<T>, r: nat, i: nat)
    requires i <= |arr|
    ensures r == 0 ==> Picks(arr, current, r, i) == [current]
    ensures r > 0 && i < |arr| ==>
              Picks(arr, current, r, i) == Picks(arr, current + [arr[i]], r - 1, i + 1) + Picks(arr, current, r, i + 1)
  {}

  lemma ChoicesSplit(n: nat, k: nat, lo: nat)
    requires lo <= n
    ensures k == 0 ==> Choices(n, k, lo) == [[]]
    ensures k > 0 && lo == n ==> Choices(n, k, lo) == []
    ensures k > 0 && lo < n ==> Choices(n, k, lo) == Prepend(lo, Choices(n, k - 1, lo + 1)) + Choices(n, k, lo + 1)
  {}

  /** The emitted element lists are the choices of positions, in the same order. */
  lemma {:induction false} PicksAreSelections<T>(arr: seq<T>, current: seq<T>, r: nat, i: nat, j: nat)
    requires i <= |arr| && j < |Choices(|arr|, r, i)|
    ensures j < |Picks(arr, current, r, i)|
    ensures Selects(arr, current, r, i, Choices(|arr|, r, i)[j], Picks(arr, current, r, i)[j])
    decreases |arr| - i
  {
    hide Selects, Picks, Choices;
    PicksSplit(arr, current, r, i);
    ChoicesSplit(|arr|, r, i);
    if r == 0 {
      SelectsNone(arr, current, i);
    } else {
      var firsts, later := Choices(|arr|, r - 1, i + 1), Choices(|arr|, r, i + 1);
      PicksLength(arr, current + [arr[i]], r - 1, i + 1);
      if j < |firsts| {
        PicksAreSelections(arr, current + [arr[i]], r - 1, i + 1, j);
        SelectsFirst(arr, current, r - 1, i, firsts[j], Picks(arr, current + [arr[i]], r - 1, i + 1)[j]);
      } else {
        PicksAreSelections(arr, current, r, i + 1, j - |firsts|);
        SelectsLater(arr, current, r, i, later[j - |firsts|], Picks(arr, current, r, i + 1)[j - |firsts|]);
      }
    }
  }

  /**
    `combinations` lists each k-element choice of positions exactly once: position
    lists and emitted lists correspond one to one, every choice occurs, none repeats.
    */
  lemma EachSubsetExactlyOnce<T>(arr: seq<T>, k: nat)
    ensures |Picks(arr, [], k, 0)| == |Choices(|arr|, k, 0)|
    ensures forall j :: 0 <= j < |Choices(|arr|, k, 0)| ==>
              && IsChoice(Choices(|arr|, k, 0)[j], |arr|, k, 0)
              && Picks(arr, [], k, 0)[j] == Select(arr, Choices(|arr|, k, 0)[j])
    ensures forall c :: IsChoice(c, |arr|, k, 0) ==> c in Choices(|arr|, k, 0)
    ensures forall i, j :: 0 <= i < j < |Choices(|arr|, k, 0)| ==> Choices(|arr|, k, 0)[i] != Choices(|arr|, k, 0)[j]
  {
    var cs := Choices(|arr|, k, 0);
    PicksLength(arr, [], k, 0);
    forall j | 0 <= j < |cs| ensures IsChoice(cs[j], |arr|, k, 0) && Picks(arr, [], k, 0)[j] == Select(arr, cs[j]) {
      PicksAreSelections(arr, [], k, 0, j);
      assert [] + Select(arr, cs[j]) == Select(arr, cs[j]);
    }
    forall c | IsChoice(c, |arr|, k, 0) ensures c in cs {
      var j := EveryChoiceOccurs(|arr|, k, 0, c);
    }
    forall i, j | 0 <= i < j < |cs| ensures cs[i] != cs[j] {
      NoChoiceTwice(|arr|, k, 0, i, j);
    }
  }

  // ----- and on contents -----

  lemma SplitHead<T>(arr: seq<T>, m: multiset<T>, i: nat)
    requires i <= |arr| && m <= multiset(arr[i..]) && |m| > 0
    ensures i < |arr|
    ensures arr[i] in m ==> m - multiset{arr[i]} <= multiset(arr[i + 1..])
    ensures arr[i] !in m ==> m <= multiset(arr[i + 1..])
  {
    var all := multiset(arr[i..]);
    assert all == m + (all - m);
    assert |all| == |arr| - i;
    assert arr[i..] == [arr[i]] + arr[i + 1..];
  }

  /** Every k-element sub-multiset of the elements is the content of some pick. */
  lemma {:induction false} EverySubMultisetIsPicked<T>(arr: seq<T>, current: seq<T>, m: multiset<T>, i: nat)
    returns (j: nat)
    requires i <= |arr| && m <= multiset(arr[i..])
    ensures j < |Picks(arr, current, |m|, i)|
    ensures multiset(Picks(arr, current, |m|, i)[j]) == multiset(current) + m
    decreases |arr| - i
  {
    if |m| == 0 {
      j := 0;
    } else {
      SplitHead(arr, m, i);
      var x := arr[i];
      if x in m {
        assert |m - multiset{x}| == |m| - 1;
        j := EverySubMultisetIsPicked(arr, current + [x], m - multiset{x}, i + 1);
        assert multiset(current + [x]) + (m - multiset{x}) == multiset(current) + m;
      } else {
        j := EverySubMultisetIsPicked(arr, current, m, i + 1);
        j := |Picks(arr, current + [x], |m| - 1, i + 1)| + j;
      }
    }
  }

  lemma OneMoreElement<T>(arr: seq<T>, current: seq<T>, i: nat, pick: seq<T>)
    requires i < |arr|
    requires || multiset(pick) <= multiset(current + [arr[i]]) + multiset(arr[i + 1..])
             || multiset(pick) <= multiset(current) + multiset(arr[i + 1..])
    ensures multiset(pick) <= multiset(current) + multiset(arr[i..])
  {
    assert arr[i..] == [arr[i]] + arr[i + 1..];
  }

  /** Every pick has k elements, drawn from the given ones. */
  lemma {:induction false} PicksAreSubMultisets<T>(arr: seq<T>, current: seq<T>, r: nat, i: nat, j: nat)
    requires i <= |arr| && j < |Picks(arr, current, r, i)|
    ensures |Picks(arr, current, r, i)[j]| == |current| + r
    ensures multiset(Picks(arr, current, r, i)[j]) <= multiset(current) + multiset(arr[i..])
    decreases |arr| - i
  {
    if r > 0 {
      PicksSplit(arr, current, r, i);
      hide Picks;
      var first := Picks(arr, current + [arr[i]], r - 1, i + 1);
      if j < |first| {
        PicksAreSubMultisets(arr, current + [arr[i]], r - 1, i + 1, j);
        OneMoreElement(arr, current, i, first[j]);
      } else {
        PicksAreSubMultisets(arr, current, r, i + 1, j - |first|);
        OneMoreElement(arr, current, i, Picks(arr, current, r, i + 1)[j - |first|]);
      }
    }
  }
}
