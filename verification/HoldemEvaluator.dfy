/**
  Five-card evaluation, hand comparison and best-of-n selection
  (engine/holdem_evaluator.cpp).
  */
module HoldemEvaluator {
  import opened HoldemTypes
  import opened Sorting
  import opened Combinations

  // ----- the facts evaluate5 extracts from the cards -----

  function Values(cards: seq<Card>): (r: seq<int>) {
    seq(|cards|, i requires 0 <= i < |cards| => cards[i].v)
  }

  predicate IsFlush(cards: seq<Card>) {
    forall i | 0 <= i < |cards| :: cards[i].s == cards[0].s
  }

  /** Sorted, made unique, sorted descending: one entry per distinct rank. */
  function Distinct(ranks: seq<int>): (r: seq<int>)
    requires Descending(ranks)
    ensures forall x :: x in r <==> x in ranks
    ensures forall i, j :: 0 <= i < j < |r| ==> r[i] > r[j]
  {
    if ranks == [] then []
    else
      var tail := Distinct(ranks[1..]);
      HeadAtLeast(ranks, tail);
      if ranks[0] in ranks[1..] then tail else [ranks[0]] + tail
  }

  lemma HeadAtLeast(ranks: seq<int>, tail: seq<int>)
    requires Descending(ranks) && ranks != []
    requires forall x :: x in tail <==> x in ranks[1..]
    ensures forall i :: 0 <= i < |tail| ==> tail[i] in ranks[1..] && tail[i] <= ranks[0]
    ensures forall x :: x in ranks <==> x == ranks[0] || x in tail
  {
    assert ranks == [ranks[0]] + ranks[1..];
    forall i | 0 <= i < |tail| ensures tail[i] in ranks[1..] && tail[i] <= ranks[0] {
      assert tail[i] in tail;
      var k :| 0 <= k < |ranks[1..]| && ranks[1..][k] == tail[i];
      assert ranks[k + 1] == tail[i];
    }
  }

  /** Whether five distinct ranks are consecutive (or the wheel A-5-4-3-2), and the top of the run. */
  function Straight(uniq: seq<int>): (bool, int) {
    if |uniq| == 5 && uniq[0] - uniq[4] == 4 then (true, uniq[0])
    else if uniq == [14, 5, 4, 3, 2] then (true, 5)
    else (false, 0)
  }

  function Groups(ranks: seq<int>): (r: seq<(int, int)>)
    requires Descending(ranks)
  {
    var uniq := Distinct(ranks);
    seq(|uniq|, i requires 0 <= i < |uniq| => (multiset(ranks)[uniq[i]], uniq[i]))
  }

  lemma GroupsDiffer(ranks: seq<int>)
    requires Descending(ranks)
    ensures forall i, j :: 0 <= i < j < |Groups(ranks)| ==> Groups(ranks)[i] != Groups(ranks)[j]
  {
    var uniq := Distinct(ranks);
    forall i, j | 0 <= i < j < |uniq| ensures Groups(ranks)[i] != Groups(ranks)[j] {
      assert uniq[i] > uniq[j];
    }
  }

  /** by_freq: (count, rank) pairs, highest count first, ties by rank. */
  function ByFrequency(ranks: seq<int>): (r: seq<(int, int)>)
    requires Descending(ranks)
  {
    GroupsDiffer(ranks);
    SortPairs(Groups(ranks))
  }

  lemma ByFrequencyContents(ranks: seq<int>)
    requires Descending(ranks)
    ensures Ordered(ByFrequency(ranks))
    ensures forall p :: p in ByFrequency(ranks) <==> p.0 == multiset(ranks)[p.1] && p.0 > 0
  {
    GroupsDiffer(ranks);
    var uniq, groups := Distinct(ranks), Groups(ranks);
    forall p ensures p in groups <==> p.0 == multiset(ranks)[p.1] && p.0 > 0 {
      if p.0 == multiset(ranks)[p.1] && p.0 > 0 {
        assert p.1 in uniq;
        var i :| 0 <= i < |uniq| && uniq[i] == p.1;
        assert groups[i] == p;
      }
      if p in groups {
        var i :| 0 <= i < |groups| && groups[i] == p;
        assert uniq[i] in ranks;
      }
    }
  }

  function CountSum(f: seq<(int, int)>): int {
    if f == [] then 0 else f[0].0 + CountSum(f[1..])
  }

  /** Counts over the distinct ranks of a multiset add up to its size. */
  lemma {:induction false} CountsAddUp(f: seq<(int, int)>, m: multiset<int>)
    requires forall i, j :: 0 <= i < j < |f| ==> f[i].1 != f[j].1
    requires forall i :: 0 <= i < |f| ==> f[i].0 == m[f[i].1] && f[i].0 > 0
    requires forall x :: x in m ==> exists i :: 0 <= i < |f| && f[i].1 == x
    ensures CountSum(f) == |m|
  {
    if f == [] {
      assert forall x :: x !in m;
      assert m == multiset{};
    } else {
      var rest := m[f[0].1 := 0];
      forall x | x in rest ensures exists i :: 0 <= i < |f[1..]| && f[1..][i].1 == x {
        assert x in m && x != f[0].1;
        var i :| 0 <= i < |f| && f[i].1 == x;
        assert f[1..][i - 1].1 == x;
      }
      CountsAddUp(f[1..], rest);
    }
  }

  /** The seven ways five cards can group by rank. */
  ghost predicate FiveCardShape(f: seq<(int, int)>) {
    || (|f| == 1 && f[0].0 == 5)
    || (|f| == 2 && f[0].0 == 4 && f[1].0 == 1)
    || (|f| == 2 && f[0].0 == 3 && f[1].0 == 2)
    || (|f| == 3 && f[0].0 == 3 && f[1].0 == 1 && f[2].0 == 1)
    || (|f| == 3 && f[0].0 == 2 && f[1].0 == 2 && f[2].0 == 1)
    || (|f| == 4 && f[0].0 == 2 && f[1].0 == 1 && f[2].0 == 1 && f[3].0 == 1)
    || (|f| == 5 && f[0].0 == 1 && f[1].0 == 1 && f[2].0 == 1 && f[3].0 == 1 && f[4].0 == 1)
  }

  lemma {:induction false} SumAtLeastLength(f: seq<(int, int)>)
    requires forall i :: 0 <= i < |f| ==> f[i].0 > 0
    ensures CountSum(f) >= |f|
  {
    if f != [] { SumAtLeastLength(f[1..]); }
  }

  lemma CountSumUnfolds(f: seq<(int, int)>)
    requires |f| <= 5
    ensures CountSum(f) ==
            (if |f| > 0 then f[0].0 else 0) + (if |f| > 1 then f[1].0 else 0) + (if |f| > 2 then f[2].0 else 0)
            + (if |f| > 3 then f[3].0 else 0) + (if |f| > 4 then f[4].0 else 0)
  {
    if |f| > 0 {
      if |f| > 1 {
        assert f[1..][1..] == f[2..];
        if |f| > 2 {
          assert f[2..][1..] == f[3..];
          if |f| > 3 {
            assert f[3..][1..] == f[4..];
          }
        }
      }
    }
  }

  lemma ShapeFromCounts(f: seq<(int, int)>)
    requires forall i :: 0 <= i < |f| ==> f[i].0 > 0
    requires forall i, j :: 0 <= i < j < |f| ==> f[i].0 >= f[j].0
    requires CountSum(f) == 5
    ensures FiveCardShape(f)
  {
    SumAtLeastLength(f);
    CountSumUnfolds(f);
  }

  lemma FrequencyShape(ranks: seq<int>)
    requires Descending(ranks) && |ranks| == 5
    ensures FiveCardShape(ByFrequency(ranks))
  {
    var f := ByFrequency(ranks);
    ByFrequencyContents(ranks);
    assert forall i :: 0 <= i < |f| ==> f[i] in f;
    forall x | x in multiset(ranks) ensures exists i :: 0 <= i < |f| && f[i].1 == x {
      assert (multiset(ranks)[x], x) in f;
    }
    forall i, j | 0 <= i < j < |f| ensures f[i].1 != f[j].1 && f[i].0 >= f[j].0 {
      assert Before(f[i], f[j]);
    }
    CountsAddUp(f, multiset(ranks));
    ShapeFromCounts(f);
  }

  // ----- evaluate5 -----

  function RankName(rank: int): string {
    match rank
    case 10 => "Royal Flush"
    case 9 => "Straight Flush"
    case 8 => "Four of a Kind"
    case 7 => "Full House"
    case 6 => "Flush"
    case 5 => "Straight"
    case 4 => "Three of a Kind"
    case 3 => "Two Pair"
    case 2 => "One Pair"
    case 1 => "High Card"
    case _ => ""
  }

  function Named(rank: int, value: seq<int>): HandEval {
    HandEval(rank, value, RankName(rank))
  }

  function Classify(ranks: seq<int>, flush: bool): HandEval
    requires Descending(ranks) && |ranks| == 5
  {
    FrequencyShape(ranks);
    ClassifyBy(ByFrequency(ranks), Straight(Distinct(ranks)), ranks, flush)
  }

  function ClassifyBy(f: seq<(int, int)>, straight: (bool, int), ranks: seq<int>, flush: bool): HandEval
    requires FiveCardShape(f)
  {
    if flush && straight.0 then Named(if straight.1 == 14 then 10 else 9, [straight.1])
    else if f[0].0 == 4 then Named(8, [f[0].1, f[1].1])
    else if f[0].0 == 3 && f[1].0 == 2 then Named(7, [f[0].1, f[1].1])
    else if flush then Named(6, ranks)
    else if straight.0 then Named(5, [straight.1])
    else if f[0].0 == 3 then Named(4, [f[0].1, f[1].1, f[2].1])
    else if f[0].0 == 2 && f[1].0 == 2 then Named(3, [f[0].1, f[1].1, f[2].1])
    else if f[0].0 == 2 then Named(2, [f[0].1, f[1].1, f[2].1, f[3].1])
    else Named(1, ranks)
  }

  function Eval5(cards: seq<Card>): HandEval
    requires |cards| == 5
  {
    Classify(SortDesc(Values(cards)), IsFlush(cards))
  }

  // ----- std::sort by descending value, on cards -----

  function InsertCard(c: Card, s: seq<Card>): (r: seq<Card>)
    ensures multiset(r) == multiset(s) + multiset{c}
  {
    if s == [] || c.v >= s[0].v then [c] + s
    else
      assert s == [s[0]] + s[1..];
      [s[0]] + InsertCard(c, s[1..])
  }

  function SortCards(cards: seq<Card>): (r: seq<Card>)
    ensures multiset(r) == multiset(cards)
  {
    if cards == [] then []
    else
      assert cards == [cards[0]] + cards[1..];
      InsertCard(cards[0], SortCards(cards[1..]))
  }

  lemma ValuesCons(c: Card, s: seq<Card>)
    ensures Values([c] + s) == [c.v] + Values(s)
  {}

  lemma {:induction false} InsertCardValues(c: Card, s: seq<Card>)
    requires Descending(Values(s))
    ensures Values(InsertCard(c, s)) == InsertDesc(c.v, Values(s))
  {
    ValuesCons(c, s);
    if s != [] && c.v < s[0].v {
      assert Values(s)[1..] == Values(s[1..]);
      InsertCardValues(c, s[1..]);
      ValuesCons(s[0], InsertCard(c, s[1..]));
    }
  }

  lemma {:induction false} SortCardsValues(cards: seq<Card>)
    ensures Values(SortCards(cards)) == SortDesc(Values(cards))
  {
    if cards != [] {
      assert Values(cards)[1..] == Values(cards[1..]);
      SortCardsValues(cards[1..]);
      InsertCardValues(cards[0], SortCards(cards[1..]));
    }
  }

  lemma FlushIgnoresOrder(a: seq<Card>, b: seq<Card>)
    requires multiset(a) == multiset(b)
    ensures IsFlush(a) == IsFlush(b)
  {
    if IsFlush(a) {
      FlushTransfers(a, b);
    } else if IsFlush(b) {
      FlushTransfers(b, a);
    }
  }

  lemma FlushTransfers(a: seq<Card>, b: seq<Card>)
    requires multiset(a) == multiset(b) && IsFlush(a)
    ensures IsFlush(b)
  {
    forall i | 0 <= i < |b| ensures b[i].s == b[0].s {
      assert b[i] in multiset(a);
      assert b[0] in multiset(a);
    }
  }

  /** evaluate5: the facts come from loops over the sorted cards. */
  method Evaluate5(cards: seq<Card>) returns (out: HandEval)
    requires |cards| == 5
    ensures out == Eval5(cards)
  {
    var sorted := SortCards(cards);
    SortCardsValues(cards);
    FlushIgnoresOrder(cards, sorted);
    var ranks, suits := Columns(sorted);
    var flush := AllEqual(suits);
    assert flush == IsFlush(sorted);
    out := Decide(ranks, flush);
  }

  method Decide(ranks: seq<int>, flush: bool) returns (out: HandEval)
    requires Descending(ranks) && |ranks| == 5
    ensures out == Classify(ranks, flush)
  {
    var uniq := Distinct(ranks);
    var straight, straightMax := false, 0;
    if |uniq| == 5 {
      if uniq[0] - uniq[4] == 4 {
        straight, straightMax := true, uniq[0];
      } else if uniq == [14, 5, 4, 3, 2] {
        straight, straightMax := true, 5;
      }
    }
    assert Straight(uniq) == (straight, straightMax);
    var byFreq := FrequencyTable(ranks);
    FrequencyShape(ranks);
    if flush && straight {
      out := HandEval(if straightMax == 14 then 10 else 9, [straightMax],
                      if straightMax == 14 then "Royal Flush" else "Straight Flush");
    } else if byFreq[0].0 == 4 {
      out := HandEval(8, [byFreq[0].1, byFreq[1].1], "Four of a Kind");
    } else if byFreq[0].0 == 3 && byFreq[1].0 == 2 {
      out := HandEval(7, [byFreq[0].1, byFreq[1].1], "Full House");
    } else if flush {
      out := HandEval(6, ranks, "Flush");
    } else if straight {
      out := HandEval(5, [straightMax], "Straight");
    } else if byFreq[0].0 == 3 {
      out := HandEval(4, [byFreq[0].1, byFreq[1].1, byFreq[2].1], "Three of a Kind");
    } else if byFreq[0].0 == 2 && byFreq[1].0 == 2 {
      out := HandEval(3, [byFreq[0].1, byFreq[1].1, byFreq[2].1], "Two Pair");
    } else if byFreq[0].0 == 2 {
      out := HandEval(2, [byFreq[0].1, byFreq[1].1, byFreq[2].1, byFreq[3].1], "One Pair");
    } else {
      out := HandEval(1, ranks, "High Card");
    }
  }

  method Columns(sorted: seq<Card>) returns (ranks: seq<int>, suits: seq<string>)
    ensures ranks == Values(sorted)
    ensures |suits| == |sorted| && forall i :: 0 <= i < |sorted| ==> suits[i] == sorted[i].s
  {
    ranks, suits := [], [];
    for i := 0 to |sorted|
      invariant |ranks| == |suits| == i
      invariant forall j :: 0 <= j < i ==> ranks[j] == sorted[j].v && suits[j] == sorted[j].s
    {
      ranks := ranks + [sorted[i].v];
      suits := suits + [sorted[i].s];
    }
  }

  method AllEqual(suits: seq<string>) returns (all: bool)
    ensures all <==> forall i :: 0 <= i < |suits| ==> suits[i] == suits[0]
  {
    for i := 0 to |suits|
      invariant forall j :: 0 <= j < i ==> suits[j] == suits[0]
    {
      if suits[i] != suits[0] {
        return false;
      }
    }
    return true;
  }

  /** The (count, rank) pairs in rank order, then sorted. */
  method FrequencyTable(ranks: seq<int>) returns (byFreq: seq<(int, int)>)
    requires Descending(ranks)
    ensures byFreq == ByFrequency(ranks)
  {
    var counts := CountRanks(ranks);
    var keys := Distinct(ranks);
    byFreq := [];
    for i := 0 to |keys|
      invariant byFreq == Groups(ranks)[..i]
    {
      assert keys[i] in keys;
      byFreq := byFreq + [(counts[keys[i]], keys[i])];
    }
    assert byFreq == Groups(ranks);
    GroupsDiffer(ranks);
    byFreq := SortPairs(byFreq);
  }

  /** counts[rank] += 1 for every rank. */
  method CountRanks(ranks: seq<int>) returns (counts: map<int, int>)
    ensures forall x :: x in ranks ==> x in counts && counts[x] == multiset(ranks)[x]
  {
    counts := map[];
    for i := 0 to |ranks|
      invariant forall x :: x in counts <==> x in ranks[..i]
      invariant forall x :: x in counts ==> counts[x] == multiset(ranks[..i])[x]
    {
      assert ranks[..i + 1] == ranks[..i] + [ranks[i]];
      var r := ranks[i];
      counts := counts[r := (if r in counts then counts[r] else 0) + 1];
    }
    assert ranks[..|ranks|] == ranks;
  }

  // ----- compare_hands -----

  function CompareFrom(a: seq<int>, b: seq<int>, i: nat): int
    decreases |a| - i
  {
    if i >= |a| || i >= |b| then 0
    else if a[i] != b[i] then a[i] - b[i]
    else CompareFrom(a, b, i + 1)
  }

  function Compare(a: HandEval, b: HandEval): int {
    if a.rank != b.rank then a.rank - b.rank else CompareFrom(a.value, b.value, 0)
  }

  method CompareHands(a: HandEval, b: HandEval) returns (c: int)
    ensures c == Compare(a, b)
  {
    if a.rank != b.rank {
      return a.rank - b.rank;
    }
    var i := 0;
    while i < |a.value| && i < |b.value|
      invariant CompareFrom(a.value, b.value, i) == CompareFrom(a.value, b.value, 0)
    {
      if a.value[i] != b.value[i] {
        return a.value[i] - b.value[i];
      }
      i := i + 1;
    }
    return 0;
  }

  /** How many kickers a rank carries. */
  function Width(rank: int): nat {
    if rank == 1 || rank == 6 then 5
    else if rank == 2 then 4
    else if rank == 3 || rank == 4 then 3
    else if rank == 7 || rank == 8 then 2
    else if rank == 5 || rank == 9 || rank == 10 then 1
    else 0
  }

  ghost predicate Evaluated(e: HandEval) {
    |e.value| == Width(e.rank) && e.desc == RankName(e.rank)
  }

  lemma EvalIsEvaluated(cards: seq<Card>)
    requires |cards| == 5
    ensures Evaluated(Eval5(cards))
  {
    var ranks := SortDesc(Values(cards));
    FrequencyShape(ranks);
    ClassifiedIsEvaluated(ByFrequency(ranks), Straight(Distinct(ranks)), ranks, IsFlush(cards));
  }

  lemma ClassifiedIsEvaluated(f: seq<(int, int)>, straight: (bool, int), ranks: seq<int>, flush: bool)
    requires FiveCardShape(f) && |ranks| == 5
    ensures Evaluated(ClassifyBy(f, straight, ranks, flush))
  {}

  lemma {:induction false} CompareFromLaws(a: seq<int>, b: seq<int>, c: seq<int>, i: nat)
    requires |a| == |b| == |c|
    ensures CompareFrom(a, b, i) == -CompareFrom(b, a, i)
    ensures CompareFrom(a, b, i) >= 0 && CompareFrom(b, c, i) >= 0 ==> CompareFrom(a, c, i) >= 0
    ensures CompareFrom(a, b, i) >= 0 && CompareFrom(b, c, i) > 0 ==> CompareFrom(a, c, i) > 0
    ensures CompareFrom(a, b, i) > 0 && CompareFrom(b, c, i) >= 0 ==> CompareFrom(a, c, i) > 0
    ensures i <= |a| ==> (CompareFrom(a, b, i) == 0 <==> a[i..] == b[i..])
    decreases |a| - i
  {
    if i < |a| {
      CompareFromLaws(a, b, c, i + 1);
      assert a[i..] == [a[i]] + a[i + 1..] && b[i..] == [b[i]] + b[i + 1..];
    }
  }

  /** compare_hands is a total preorder on evaluations, and ties only equal evaluations. */
  lemma CompareIsTotalPreorder(a: HandEval, b: HandEval, c: HandEval)
    requires Evaluated(a) && Evaluated(b) && Evaluated(c)
    ensures Compare(a, b) == -Compare(b, a)
    ensures Compare(a, b) >= 0 && Compare(b, c) >= 0 ==> Compare(a, c) >= 0
    ensures Compare(a, b) >= 0 && Compare(b, c) > 0 ==> Compare(a, c) > 0
    ensures Compare(a, b) > 0 && Compare(b, c) >= 0 ==> Compare(a, c) > 0
    ensures Compare(a, b) == 0 <==> a == b
  {
    if a.rank == b.rank {
      CompareFromLaws(a.value, b.value, b.value, 0);
      if b.rank == c.rank {
        CompareFromLaws(a.value, b.value, c.value, 0);
      }
    }
  }

  // ----- best_hand -----

  ghost predicate FiveEach(combos: seq<seq<Card>>) {
    forall i :: 0 <= i < |combos| ==> |combos[i]| == 5
  }

  function Evals(combos: seq<seq<Card>>): (r: seq<HandEval>)
    requires FiveEach(combos)
    ensures |r| == |combos| && forall i :: 0 <= i < |r| ==> r[i] == Eval5(combos[i])
  {
    seq(|combos|, i requires 0 <= i < |combos| => Eval5(combos[i]))
  }

  /** The running best over the first n evaluations. */
  function BestUpTo(evals: seq<HandEval>, n: nat): HandEval
    requires n <= |evals|
  {
    if n == 0 then NO_HAND
    else
      var current, best := evals[n - 1], BestUpTo(evals, n - 1);
      if n == 1 || Compare(current, best) > 0 then current else best
  }

  lemma PicksHaveFive(cards: seq<Card>)
    ensures FiveEach(Picks(cards, [], 5, 0))
  {
    forall i | 0 <= i < |Picks(cards, [], 5, 0)| ensures |Picks(cards, [], 5, 0)[i]| == 5 {
      PicksAreSubMultisets(cards, [], 5, 0, i);
    }
  }

  /** The evaluations of all five-card choices. */
  function AllEvals(cards: seq<Card>): seq<HandEval> {
    PicksHaveFive(cards);
    Evals(Picks(cards, [], 5, 0))
  }

  function Best(cards: seq<Card>): HandEval {
    BestUpTo(AllEvals(cards), |AllEvals(cards)|)
  }

  method BestHand(cards: seq<Card>) returns (best: HandEval)
    ensures best == Best(cards)
  {
    var combos := Combine(cards, 5);
    PicksHaveFive(cards);
    ghost var evals := Evals(combos);
    best := NO_HAND;
    var hasBest := false;
    for i := 0 to |combos|
      invariant best == BestUpTo(evals, i) && hasBest == (i > 0)
    {
      var current := Evaluate5(combos[i]);
      assert current == evals[i];
      var c := CompareHands(current, best);
      if !hasBest || c > 0 {
        best := current;
        hasBest := true;
      }
    }
  }

  lemma NewBestBeats(new': HandEval, best: HandEval, seen: HandEval)
    requires Evaluated(new') && Evaluated(best) && Evaluated(seen)
    requires Compare(new', best) > 0 && Compare(seen, best) <= 0
    ensures Compare(seen, new') <= 0
  {
    CompareIsTotalPreorder(new', best, seen);
    CompareIsTotalPreorder(best, seen, seen);
    CompareIsTotalPreorder(new', seen, seen);
  }

  /** The running best is one of the evaluations seen, and none of them beats it. */
  lemma {:induction false} BestUpToIsMax(evals: seq<HandEval>, n: nat) returns (w: nat)
    requires 0 < n <= |evals| && forall i :: 0 <= i < n ==> Evaluated(evals[i])
    ensures w < n && BestUpTo(evals, n) == evals[w]
    ensures forall i :: 0 <= i < n ==> Compare(evals[i], evals[w]) <= 0
  {
    w := n - 1;
    CompareIsTotalPreorder(evals[w], evals[w], evals[w]);
    if n > 1 {
      var w0 := BestUpToIsMax(evals, n - 1);
      if Compare(evals[w], evals[w0]) > 0 {
        forall i | 0 <= i < n - 1 ensures Compare(evals[i], evals[w]) <= 0 {
          NewBestBeats(evals[w], evals[w0], evals[i]);
        }
      } else {
        w := w0;
      }
    }
  }

  lemma AllEvaluated(cards: seq<Card>)
    ensures forall i :: 0 <= i < |AllEvals(cards)| ==> Evaluated(AllEvals(cards)[i])
  {
    var combos := Picks(cards, [], 5, 0);
    PicksHaveFive(cards);
    forall i | 0 <= i < |combos| ensures Evaluated(AllEvals(cards)[i]) {
      EvalIsEvaluated(combos[i]);
    }
  }

  /** evaluate5 reads its cards as a multiset. */
  lemma EvalIgnoresOrder(a: seq<Card>, b: seq<Card>)
    requires |a| == |b| == 5 && multiset(a) == multiset(b)
    ensures Eval5(a) == Eval5(b)
  {
    FlushIgnoresOrder(a, b);
    ValuesIgnoreOrder(a, b);
    DescendingUnique(SortDesc(Values(a)), SortDesc(Values(b)));
  }

  lemma {:induction false} ValuesIgnoreOrder(a: seq<Card>, b: seq<Card>)
    requires multiset(a) == multiset(b)
    ensures multiset(Values(a)) == multiset(Values(b))
  {
    if a == [] {
      assert |b| == |multiset(b)| == |multiset(a)| == 0;
    } else {
      assert a[0] in multiset(b);
      var k :| 0 <= k < |b| && b[k] == a[0];
      WithoutOne(b, k);
      RestOf(a);
      ValuesIgnoreOrder(a[1..], b[..k] + b[k + 1..]);
      ValuesCons(a[0], a[1..]);
    }
  }

  lemma WithoutOne(b: seq<Card>, k: nat)
    requires k < |b|
    ensures multiset(b[..k] + b[k + 1..]) == multiset(b) - multiset{b[k]}
    ensures multiset(Values(b)) == multiset(Values(b[..k] + b[k + 1..])) + multiset{b[k].v}
  {
    var left, right := b[..k], b[k + 1..];
    assert b == left + [b[k]] + right;
    assert Values(b) == Values(left) + [b[k].v] + Values(right);
    assert Values(left + right) == Values(left) + Values(right);
  }

  /** No five of the given cards beat the best hand. */
  lemma BestIsMaximum(cards: seq<Card>, hand: seq<Card>)
    requires |hand| == 5 && multiset(hand) <= multiset(cards)
    ensures Compare(Eval5(hand), Best(cards)) <= 0
  {
    var combos := Picks(cards, [], 5, 0);
    PicksHaveFive(cards);
    assert cards[0..] == cards && |multiset(hand)| == 5;
    var j := EverySubMultisetIsPicked(cards, [], multiset(hand), 0);
    assert multiset(combos[j]) == multiset(hand);
    EvalIgnoresOrder(hand, combos[j]);
    AllEvaluated(cards);
    var w := BestUpToIsMax(AllEvals(cards), |combos|);
  }

  /** The best hand is the evaluation of five of the given cards. */
  lemma BestIsAttained(cards: seq<Card>) returns (hand: seq<Card>)
    requires |cards| >= 5
    ensures |hand| == 5 && multiset(hand) <= multiset(cards) && Eval5(hand) == Best(cards)
  {
    var combos := Picks(cards, [], 5, 0);
    PicksHaveFive(cards);
    assert cards == cards[..5] + cards[5..] && cards[0..] == cards;
    assert |multiset(cards[..5])| == 5;
    var j := EverySubMultisetIsPicked(cards, [], multiset(cards[..5]), 0);
    AllEvaluated(cards);
    var w := BestUpToIsMax(AllEvals(cards), |combos|);
    PicksAreSubMultisets(cards, [], 5, 0, w);
    hand := combos[w];
  }

  lemma BestIsEvaluated(cards: seq<Card>)
    ensures Evaluated(Best(cards))
  {
    var evals := AllEvals(cards);
    AllEvaluated(cards);
    if evals != [] {
      var w := BestUpToIsMax(evals, |evals|);
    }
  }

  /** Having more cards never weakens the best hand. */
  lemma MoreCardsNeverWeaken(fewer: seq<Card>, more: seq<Card>)
    requires |fewer| >= 5 && multiset(fewer) <= multiset(more)
    ensures Compare(Best(more), Best(fewer)) >= 0
  {
    var hand := BestIsAttained(fewer);
    BestIsMaximum(more, hand);
    assert multiset(more) == multiset(fewer) + (multiset(more) - multiset(fewer));
    BestIsEvaluated(fewer);
    BestIsEvaluated(more);
    CompareIsTotalPreorder(Best(more), Best(fewer), Best(fewer));
  }

  /** The best hand does not depend on the order of the cards. */
  lemma BestIgnoresOrder(a: seq<Card>, b: seq<Card>)
    requires |a| >= 5 && multiset(a) == multiset(b)
    ensures Best(a) == Best(b)
  {
    assert |b| == |multiset(b)| == |multiset(a)| == |a|;
    MoreCardsNeverWeaken(a, b);
    MoreCardsNeverWeaken(b, a);
    BestIsEvaluated(a);
    BestIsEvaluated(b);
    CompareIsTotalPreorder(Best(a), Best(b), Best(b));
  }

  // ----- renaming suits -----

  function Renamed(cards: seq<Card>, suit: string -> string): (r: seq<Card>)
    ensures |r| == |cards|
  {
    seq(|cards|, i requires 0 <= i < |cards| => cards[i].(s := suit(cards[i].s)))
  }

  ghost predicate Injective(suit: string -> string) {
    forall a, b :: suit(a) == suit(b) ==> a == b
  }

  lemma EvalIgnoresSuitNames(cards: seq<Card>, suit: string -> string)
    requires |cards| == 5 && Injective(suit)
    ensures Eval5(Renamed(cards, suit)) == Eval5(cards)
  {
    assert Values(Renamed(cards, suit)) == Values(cards);
    forall i | 0 <= i < 5 ensures Renamed(cards, suit)[i].s == Renamed(cards, suit)[0].s <==> cards[i].s == cards[0].s {
    }
  }

  lemma RenamedAppend(arr: seq<Card>, current: seq<Card>, i: nat, suit: string -> string)
    requires i < |arr|
    ensures Renamed(current + [arr[i]], suit) == Renamed(current, suit) + [Renamed(arr, suit)[i]]
  {}

  lemma {:induction false} PicksOfRenamed(arr: seq<Card>, current: seq<Card>, r: nat, i: nat, suit: string -> string)
    requires i <= |arr|
    ensures |Picks(Renamed(arr, suit), Renamed(current, suit), r, i)| == |Picks(arr, current, r, i)|
    ensures forall j :: 0 <= j < |Picks(arr, current, r, i)| ==>
              Picks(Renamed(arr, suit), Renamed(current, suit), r, i)[j] == Renamed(Picks(arr, current, r, i)[j], suit)
    decreases |arr| - i
  {
    hide Renamed;
    if r > 0 && i < |arr| {
      RenamedAppend(arr, current, i, suit);
      PicksOfRenamed(arr, current + [arr[i]], r - 1, i + 1, suit);
      PicksOfRenamed(arr, current, r, i + 1, suit);
    }
  }

  /** Renaming the suits apart leaves the best hand as it was. */
  lemma BestIgnoresSuitNames(cards: seq<Card>, suit: string -> string)
    requires Injective(suit)
    ensures Best(Renamed(cards, suit)) == Best(cards)
  {
    assert Renamed([], suit) == [];
    PicksOfRenamed(cards, [], 5, 0, suit);
    PicksHaveFive(cards);
    PicksHaveFive(Renamed(cards, suit));
    forall i | 0 <= i < |AllEvals(cards)| ensures AllEvals(Renamed(cards, suit))[i] == AllEvals(cards)[i] {
      EvalIgnoresSuitNames(Picks(cards, [], 5, 0)[i], suit);
    }
    assert AllEvals(Renamed(cards, suit)) == AllEvals(cards);
  }
}
