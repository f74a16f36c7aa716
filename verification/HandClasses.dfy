/**
  What the ten hand classes mean, said by counting values and suits, and the proof that
  evaluate5 names exactly these.
  */
module HandClasses {
  import opened HoldemTypes
  import opened Sorting
  import opened HoldemEvaluator

  // ----- the classes, by counting -----

  /** Some value occurs exactly k times. */
  ghost predicate Times(m: multiset<int>, k: nat) {
    exists v :: m[v] == k
  }

  ghost predicate TwoPairs(m: multiset<int>) {
    exists v, w :: v != w && m[v] == 2 && m[w] == 2
  }

  /** The run of five ranks topped by hi is present. */
  predicate Run(m: multiset<int>, hi: int) {
    m[hi] > 0 && m[hi - 1] > 0 && m[hi - 2] > 0 && m[hi - 3] > 0 && m[hi - 4] > 0
  }

  predicate Wheel(m: multiset<int>) {
    m[14] > 0 && m[2] > 0 && m[3] > 0 && m[4] > 0 && m[5] > 0
  }

  /** Five consecutive values topped by hi; the ace also plays low, in the wheel. */
  predicate StraightTo(m: multiset<int>, hi: int) {
    Run(m, hi) || (hi == 5 && Wheel(m))
  }

  ghost predicate HasStraight(m: multiset<int>) {
    exists hi :: StraightTo(m, hi)
  }

  /** Five cards with these values, all of one suit or not, are a hand of this rank. */
  ghost predicate IsClass(rank: int, m: multiset<int>, flush: bool) {
    match rank
    case 10 => flush && Run(m, 14)
    case 9 => flush && HasStraight(m) && !Run(m, 14)
    case 8 => Times(m, 4)
    case 7 => Times(m, 3) && Times(m, 2)
    case 6 => flush && !HasStraight(m) && !Times(m, 4) && !(Times(m, 3) && Times(m, 2))
    case 5 => HasStraight(m) && !flush
    case 4 => Times(m, 3) && !Times(m, 2) && !flush
    case 3 => TwoPairs(m) && !flush
    case 2 => Times(m, 2) && !TwoPairs(m) && !Times(m, 3) && !flush
    case 1 => !HasStraight(m) && !flush && !Times(m, 4) && !Times(m, 3) && !Times(m, 2)
    case _ => false
  }

  /** Every value that occurs, once: those occurring more often first, and higher before lower. */
  ghost predicate ByCountThenValue(m: multiset<int>, value: seq<int>) {
    && (forall v :: v in value <==> m[v] > 0)
    && forall i, j :: 0 <= i < j < |value| ==> Before((m[value[i]], value[i]), (m[value[j]], value[j]))
  }

  /** What breaks ties in a class: the top of a straight, all five values, or the values by count. */
  ghost predicate BreaksTies(rank: int, m: multiset<int>, value: seq<int>) {
    if rank in {5, 9, 10} then |value| == 1 && StraightTo(m, value[0])
    else if rank in {1, 6} then Descending(value) && multiset(value) == m
    else ByCountThenValue(m, value)
  }

  // ----- straights -----

  /** Five ranks covering five different values are exactly those values. */
  lemma FiveRanksAre(ranks: seq<int>, want: seq<int>)
    requires Descending(ranks) && |ranks| == 5 && StrictlyDescending(want) && |want| == 5
    requires forall i :: 0 <= i < 5 ==> multiset(ranks)[want[i]] > 0
    ensures ranks == want && Distinct(ranks) == want
  {
    forall x ensures multiset(want)[x] <= multiset(ranks)[x] {
      OccursOnce(want, x);
    }
    assert multiset(want) <= multiset(ranks);
    assert multiset(ranks) == multiset(want) + (multiset(ranks) - multiset(want));
    assert |multiset(ranks) - multiset(want)| == 0;
    assert multiset(ranks) == multiset(want);
    DescendingUnique(ranks, want);
    StrictlyDescendingUnique(Distinct(ranks), want);
  }

  lemma {:induction false} OccursOnce(s: seq<int>, x: int)
    requires StrictlyDescending(s)
    ensures multiset(s)[x] == if x in s then 1 else 0
  {
    if s != [] {
      RestOf(s);
      OccursOnce(s[1..], x);
    }
  }

  lemma RunIsTheHand(ranks: seq<int>, hi: int)
    requires Descending(ranks) && |ranks| == 5 && Run(multiset(ranks), hi)
    ensures Straight(Distinct(ranks)) == (true, hi)
  {
    var want := [hi, hi - 1, hi - 2, hi - 3, hi - 4];
    FiveRanksAre(ranks, want);
  }

  lemma WheelIsTheHand(ranks: seq<int>)
    requires Descending(ranks) && |ranks| == 5 && Wheel(multiset(ranks))
    ensures Straight(Distinct(ranks)) == (true, 5)
  {
    var want := [14, 5, 4, 3, 2];
    FiveRanksAre(ranks, want);
    hide Distinct;
  }

  /** Conversely, five consecutive distinct ranks are a run. */
  lemma StraightIsRunOrWheel(uniq: seq<int>, m: multiset<int>)
    requires |uniq| == 5 && uniq[0] > uniq[1] > uniq[2] > uniq[3] > uniq[4] && Straight(uniq).0
    requires m[uniq[0]] > 0 && m[uniq[1]] > 0 && m[uniq[2]] > 0 && m[uniq[3]] > 0 && m[uniq[4]] > 0
    ensures Run(m, uniq[0]) || Wheel(m)
  {
    if uniq[0] - uniq[4] != 4 {
      assert uniq == [14, 5, 4, 3, 2];
      assert uniq[0] == 14 && uniq[1] == 5 && uniq[2] == 4 && uniq[3] == 3 && uniq[4] == 2;
    }
  }

  /** The evaluator's straight is a straight, with the same top, and no value occurs twice in it. */
  lemma StraightMeans(ranks: seq<int>)
    requires Descending(ranks) && |ranks| == 5
    ensures var s := Straight(Distinct(ranks));
      && (s.0 <==> HasStraight(multiset(ranks)))
      && (s.0 ==> StraightTo(multiset(ranks), s.1) && (s.1 == 14 <==> Run(multiset(ranks), 14)))
  {
    var m, uniq := multiset(ranks), Distinct(ranks);
    hide Distinct;
    if hi :| StraightTo(m, hi) {
      if Run(m, hi) {
        RunIsTheHand(ranks, hi);
      } else {
        WheelIsTheHand(ranks);
      }
      if Run(m, 14) {
        RunIsTheHand(ranks, 14);
      }
    }
    if Straight(uniq).0 {
      assert uniq[0] in ranks && uniq[1] in ranks && uniq[2] in ranks && uniq[3] in ranks && uniq[4] in ranks;
      StraightIsRunOrWheel(uniq, m);
      assert StraightTo(m, uniq[0]) || StraightTo(m, 5);
    }
  }

  lemma StraightHasNoPair(ranks: seq<int>)
    requires Descending(ranks) && |ranks| == 5 && HasStraight(multiset(ranks))
    ensures forall v :: multiset(ranks)[v] <= 1
  {
    var hi :| StraightTo(multiset(ranks), hi);
    hide HasStraight, Distinct;
    if Run(multiset(ranks), hi) {
      NoPairAmong(ranks, [hi, hi - 1, hi - 2, hi - 3, hi - 4]);
    } else {
      NoPairAmong(ranks, [14, 5, 4, 3, 2]);
    }
  }

  lemma NoPairAmong(ranks: seq<int>, want: seq<int>)
    requires Descending(ranks) && |ranks| == 5 && StrictlyDescending(want) && |want| == 5
    requires forall i :: 0 <= i < 5 ==> multiset(ranks)[want[i]] > 0
    ensures forall v :: multiset(ranks)[v] <= 1
  {
    FiveRanksAre(ranks, want);
    hide Distinct;
    forall v ensures multiset(ranks)[v] <= 1 {
      OccursOnce(want, v);
    }
  }

  // ----- groups -----

  lemma GroupsTell(ranks: seq<int>, k: nat)
    requires Descending(ranks) && k > 0
    ensures Times(multiset(ranks), k) <==> exists i :: 0 <= i < |ByFrequency(ranks)| && ByFrequency(ranks)[i].0 == k
  {
    var m, f := multiset(ranks), ByFrequency(ranks);
    ByFrequencyContents(ranks);
    hide ByFrequency;
    if v :| m[v] == k {
      assert (k, v) in f;
      var i :| 0 <= i < |f| && f[i] == (k, v);
    }
    if i :| 0 <= i < |f| && f[i].0 == k {
      assert f[i] in f;
      assert m[f[i].1] == k;
    }
  }

  lemma PairsTell(ranks: seq<int>)
    requires Descending(ranks) && |ranks| == 5
    ensures var f := ByFrequency(ranks);
      TwoPairs(multiset(ranks)) <==> |f| >= 2 && f[0].0 == 2 && f[1].0 == 2
  {
    var m, f := multiset(ranks), ByFrequency(ranks);
    ByFrequencyContents(ranks);
    FrequencyShape(ranks);
    hide ByFrequency;
    if |f| >= 2 && f[0].0 == 2 && f[1].0 == 2 {
      assert f[0] in f && f[1] in f && Before(f[0], f[1]);
      assert m[f[0].1] == 2 && m[f[1].1] == 2 && f[0].1 != f[1].1;
    }
    if v, w :| v != w && m[v] == 2 && m[w] == 2 {
      assert (2, v) in f && (2, w) in f;
      var i, j :| 0 <= i < |f| && 0 <= j < |f| && f[i] == (2, v) && f[j] == (2, w);
      assert i != j;
    }
  }

  /** The rank named for a shape, a straight and a flush. */
  lemma ClassOfShape(f: seq<(int, int)>, straight: (bool, int), ranks: seq<int>, flush: bool)
    requires FiveCardShape(f) && (straight.0 ==> |f| == 5)
    ensures var rank := ClassifyBy(f, straight, ranks, flush).rank;
      && (rank == 10 <==> flush && straight.0 && straight.1 == 14)
      && (rank == 9 <==> flush && straight.0 && straight.1 != 14)
      && (rank == 8 <==> |f| == 2 && f[0].0 == 4)
      && (rank == 7 <==> |f| == 2 && f[0].0 == 3)
      && (rank == 6 <==> flush && !straight.0 && |f| != 2)
      && (rank == 5 <==> straight.0 && !flush)
      && (rank == 4 <==> |f| == 3 && f[0].0 == 3 && !flush)
      && (rank == 3 <==> |f| == 3 && f[0].0 == 2 && !flush)
      && (rank == 2 <==> |f| == 4 && !flush)
      && (rank == 1 <==> (|f| == 1 || |f| == 5) && !straight.0 && !flush)
      && 1 <= rank <= 10
  {}

  /** The same shapes, read off the counts. */
  lemma CountsOfShape(ranks: seq<int>)
    requires Descending(ranks) && |ranks| == 5
    ensures var m, f := multiset(ranks), ByFrequency(ranks);
      && FiveCardShape(f)
      && (Times(m, 4) <==> |f| == 2 && f[0].0 == 4)
      && (Times(m, 3) <==> (|f| == 2 || |f| == 3) && f[0].0 == 3)
      && (Times(m, 2) <==> (|f| == 2 && f[0].0 == 3) || (|f| == 3 && f[0].0 == 2) || |f| == 4)
      && (TwoPairs(m) <==> |f| == 3 && f[0].0 == 2)
  {
    FrequencyShape(ranks);
    GroupsTell(ranks, 4);
    GroupsTell(ranks, 3);
    GroupsTell(ranks, 2);
    PairsTell(ranks);
    hide ByFrequency, Times, TwoPairs;
  }

  lemma StraightIsFiveGroups(ranks: seq<int>)
    requires Descending(ranks) && |ranks| == 5 && HasStraight(multiset(ranks))
    ensures |ByFrequency(ranks)| == 5
  {
    StraightHasNoPair(ranks);
    FrequencyShape(ranks);
    ByFrequencyContents(ranks);
    hide ByFrequency, HasStraight;
    assert ByFrequency(ranks)[0] in ByFrequency(ranks);
  }

  /** Shape, straight and flush decide the class. */
  ghost predicate Tells(f: seq<(int, int)>, straight: (bool, int), m: multiset<int>) {
    && FiveCardShape(f)
    && (straight.0 <==> HasStraight(m)) && (straight.0 ==> |f| == 5 && (straight.1 == 14 <==> Run(m, 14)))
    && (Run(m, 14) ==> HasStraight(m))
    && (Times(m, 4) <==> |f| == 2 && f[0].0 == 4)
    && (Times(m, 3) <==> (|f| == 2 || |f| == 3) && f[0].0 == 3)
    && (Times(m, 2) <==> (|f| == 2 && f[0].0 == 3) || (|f| == 3 && f[0].0 == 2) || |f| == 4)
    && (TwoPairs(m) <==> |f| == 3 && f[0].0 == 2)
  }

  lemma ClassTold(f: seq<(int, int)>, straight: (bool, int), ranks: seq<int>, flush: bool, m: multiset<int>, rank: int)
    requires Tells(f, straight, m)
    ensures ClassifyBy(f, straight, ranks, flush).rank == rank <==> IsClass(rank, m, flush)
  {
    ClassOfShape(f, straight, ranks, flush);
    hide ClassifyBy, Times, TwoPairs, HasStraight, Run;
  }

  lemma RanksTell(ranks: seq<int>)
    requires Descending(ranks) && |ranks| == 5
    ensures Tells(ByFrequency(ranks), Straight(Distinct(ranks)), multiset(ranks))
  {
    hide ByFrequency, Distinct, Straight, Times, TwoPairs, HasStraight, Run;
    StraightMeans(ranks);
    CountsOfShape(ranks);
    RoyalIsStraight(multiset(ranks));
    if Straight(Distinct(ranks)).0 {
      StraightIsFiveGroups(ranks);
    }
  }

  lemma RoyalIsStraight(m: multiset<int>)
    ensures Run(m, 14) ==> HasStraight(m)
  {
    assert Run(m, 14) ==> StraightTo(m, 14);
  }

  /** evaluate5 gives five cards the rank of exactly one class: the one they belong to. */
  lemma ClassMeaning(cards: seq<Card>, rank: int)
    requires |cards| == 5
    ensures Eval5(cards).rank == rank <==> IsClass(rank, multiset(Values(cards)), IsFlush(cards))
  {
    var ranks := SortDesc(Values(cards));
    RanksTell(ranks);
    hide ByFrequency, Distinct, Straight, ClassifyBy, Tells, IsClass, SortDesc, IsFlush;
    ClassTold(ByFrequency(ranks), Straight(Distinct(ranks)), ranks, IsFlush(cards), multiset(Values(cards)), rank);
  }

  // ----- and what breaks ties -----

  lemma ValueOfShape(f: seq<(int, int)>, straight: (bool, int), ranks: seq<int>, flush: bool)
    requires FiveCardShape(f) && (straight.0 ==> |f| == 5)
    ensures var e := ClassifyBy(f, straight, ranks, flush);
      && (e.rank in {5, 9, 10} ==> straight.0 && e.value == [straight.1])
      && (e.rank in {1, 6} ==> e.value == ranks)
      && (e.rank !in {1, 5, 6, 9, 10} ==> |e.value| == |f| && forall i :: 0 <= i < |f| ==> e.value[i] == f[i].1)
  {}

  lemma GroupValues(f: seq<(int, int)>, m: multiset<int>, value: seq<int>)
    requires Ordered(f) && forall p :: p in f <==> p.0 == m[p.1] && p.0 > 0
    requires |value| == |f| && forall i :: 0 <= i < |value| ==> value[i] == f[i].1
    ensures ByCountThenValue(m, value)
  {
    forall i | 0 <= i < |f| ensures f[i] == (m[value[i]], value[i]) && m[value[i]] > 0 {
      assert f[i] in f;
    }
    forall v ensures v in value <==> m[v] > 0 {
      if m[v] > 0 {
        assert (m[v], v) in f;
        var i :| 0 <= i < |f| && f[i] == (m[v], v);
        assert value[i] == v;
      }
    }
  }

  lemma ValueMeans(ranks: seq<int>, flush: bool)
    requires Descending(ranks) && |ranks| == 5
    ensures BreaksTies(Classify(ranks, flush).rank, multiset(ranks), Classify(ranks, flush).value)
  {
    var f, straight := ByFrequency(ranks), Straight(Distinct(ranks));
    StraightMeans(ranks);
    FrequencyShape(ranks);
    if straight.0 {
      StraightIsFiveGroups(ranks);
    }
    ValueOfShape(f, straight, ranks, flush);
    hide ByFrequency, Distinct, Straight, ClassifyBy, ByCountThenValue, StraightTo, HasStraight;
    var e := Classify(ranks, flush);
    if e.rank !in {1, 5, 6, 9, 10} {
      ByFrequencyContents(ranks);
      GroupValues(f, multiset(ranks), e.value);
    }
  }

  lemma PairsOf(m: multiset<int>, value: seq<int>) returns (p: seq<(int, int)>)
    requires ByCountThenValue(m, value)
    ensures |p| == |value| && Ordered(p) && forall i :: 0 <= i < |p| ==> p[i] == (m[value[i]], value[i])
    ensures forall x :: x in p <==> x.0 == m[x.1] && x.0 > 0
  {
    p := seq(|value|, i requires 0 <= i < |value| => (m[value[i]], value[i]));
    forall x: (int, int) ensures x in p <==> x.0 == m[x.1] && x.0 > 0 {
      PairListed(m, value, p, x.1);
      if x in p {
        var i :| 0 <= i < |p| && p[i] == x;
        assert value[i] in value;
      }
    }
  }

  lemma PairListed(m: multiset<int>, value: seq<int>, p: seq<(int, int)>, v: int)
    requires ByCountThenValue(m, value) && |p| == |value|
    requires forall i :: 0 <= i < |p| ==> p[i] == (m[value[i]], value[i])
    ensures m[v] > 0 ==> (m[v], v) in p
  {
    if v in value {
      var i :| 0 <= i < |value| && value[i] == v;
      assert p[i] == (m[v], v);
    }
  }

  lemma OneOrder(m: multiset<int>, a: seq<int>, b: seq<int>)
    requires ByCountThenValue(m, a) && ByCountThenValue(m, b)
    ensures a == b
  {
    var p := PairsOf(m, a);
    var q := PairsOf(m, b);
    OrderedUnique(p, q);
  }

  /** The tie-breaker of five cards in a class is determined by what it means. */
  lemma OneTieBreaker(ranks: seq<int>, rank: int, a: seq<int>, b: seq<int>)
    requires Descending(ranks) && |ranks| == 5
    requires BreaksTies(rank, multiset(ranks), a) && BreaksTies(rank, multiset(ranks), b)
    ensures a == b
  {
    var m := multiset(ranks);
    hide ByCountThenValue, Distinct, Straight;
    if rank in {5, 9, 10} {
      TopIs(ranks, a[0]);
      TopIs(ranks, b[0]);
    } else if rank in {1, 6} {
      DescendingUnique(a, b);
    } else {
      OneOrder(m, a, b);
    }
  }

  lemma TopIs(ranks: seq<int>, hi: int)
    requires Descending(ranks) && |ranks| == 5 && StraightTo(multiset(ranks), hi)
    ensures Straight(Distinct(ranks)) == (true, hi)
  {
    hide Distinct, Straight;
    if Run(multiset(ranks), hi) {
      RunIsTheHand(ranks, hi);
    } else {
      WheelIsTheHand(ranks);
    }
  }

  /** evaluate5, said apart from its code: five cards get exactly their class and their tie-breaker. */
  lemma EvaluationMeaning(cards: seq<Card>, rank: int, value: seq<int>)
    requires |cards| == 5
    ensures var m := multiset(Values(cards));
      Eval5(cards) == HandEval(rank, value, RankName(rank)) <==> IsClass(rank, m, IsFlush(cards)) && BreaksTies(rank, m, value)
  {
    var ranks := SortDesc(Values(cards));
    var e := Eval5(cards);
    ClassMeaning(cards, rank);
    ValueMeans(ranks, IsFlush(cards));
    EvalIsNamed(cards);
    hide Eval5, IsClass, BreaksTies, IsFlush, RankName, SortDesc;
    if IsClass(rank, multiset(ranks), IsFlush(cards)) && BreaksTies(rank, multiset(ranks), value) {
      OneTieBreaker(ranks, rank, e.value, value);
    }
  }

  lemma EvalIsNamed(cards: seq<Card>)
    requires |cards| == 5
    ensures Eval5(cards) == Classify(SortDesc(Values(cards)), IsFlush(cards))
    ensures Eval5(cards).desc == RankName(Eval5(cards).rank)
  {
    hide Classify, IsFlush;
    EvalIsEvaluated(cards);
  }
}
