/**
  The gateway's own evaluator (RoomControlWsService.java): hand strength as one
  base-15 number.  Every method here is proved against the engine's evaluation, so
  the two implementations rank hands alike.
  */
module JavaEvaluator {
  import opened HoldemTypes
  import opened Sorting
  import opened Combinations
  import opened HoldemEvaluator
  import opened HandClasses

  datatype HandRank = HandRank(score: int, desc: string)

  /** Cards as the decks deal them. */
  predicate Playable(cards: seq<Card>) {
    forall i | 0 <= i < |cards| :: 2 <= cards[i].v <= 14
  }

  // ----- score: a category and five base-15 digits -----

  function Digit(vals: seq<int>, i: nat): int {
    if i < |vals| then vals[i] else 0
  }

  /** The number written by the category followed by the first n tie-break digits. */
  function Base15(cat: int, vals: seq<int>, n: nat): int {
    if n == 0 then cat else Base15(cat, vals, n - 1) * 15 + Digit(vals, n - 1)
  }

  method Score(cat: int, vals: seq<int>) returns (s: int)
    ensures s == Base15(cat, vals, 5)
  {
    s := cat;
    for i := 0 to 5
      invariant s == Base15(cat, vals, i)
    {
      s := s * 15 + if i < |vals| then vals[i] else 0;
    }
  }

  /** The engine's rank as the gateway's category: royal flushes are straight flushes. */
  function Category(rank: int): int {
    if rank == 10 then 8 else rank - 1
  }

  function Encode(e: HandEval): int {
    Base15(Category(e.rank), e.value, 5)
  }

  /** An evaluation as the gateway writes it down: a royal flush is called a straight flush. */
  function Ranked(e: HandEval): HandRank {
    HandRank(Encode(e), RankName(if e.rank == 10 then 9 else e.rank))
  }

  // ----- the encoding keeps the order -----

  /** What evaluate5 produces from playable cards. */
  ghost predicate Encodable(e: HandEval) {
    && Evaluated(e) && 1 <= e.rank <= 10
    && (forall i :: 0 <= i < |e.value| ==> 2 <= e.value[i] <= 14)
    && (e.rank == 10 ==> e.value == [14])
    && (e.rank == 9 ==> e.value != [14])
  }

  lemma EvalIsEncodable(cards: seq<Card>)
    requires |cards| == 5 && Playable(cards)
    ensures Encodable(Eval5(cards))
  {
    RanksAreValues(cards);
    var ranks := SortDesc(Values(cards));
    assert forall i :: 0 <= i < 5 ==> ranks[i] in ranks;
    ClassifyIsEncodable(SortDesc(Values(cards)), IsFlush(cards));
  }

  lemma ClassifyIsEncodable(ranks: seq<int>, flush: bool)
    requires Descending(ranks) && |ranks| == 5 && forall i :: 0 <= i < 5 ==> 2 <= ranks[i] <= 14
    ensures Encodable(Classify(ranks, flush))
  {
    FrequencyShape(ranks);
    GroupedRanksInRange(ranks);
    StraightInRange(ranks);
    var f, straight := ByFrequency(ranks), Straight(Distinct(ranks));
    ClassifiedIsEvaluated(f, straight, ranks, flush);
    ClassifyByInRange(f, straight, ranks, flush);
  }

  lemma StraightInRange(ranks: seq<int>)
    requires Descending(ranks) && |ranks| == 5 && forall i :: 0 <= i < 5 ==> 2 <= ranks[i] <= 14
    ensures Straight(Distinct(ranks)).0 ==> 2 <= Straight(Distinct(ranks)).1 <= 14
  {
    hide Distinct;
    var uniq := Distinct(ranks);
    if |uniq| == 5 {
      assert uniq[0] in ranks && uniq[4] in ranks;
    }
  }

  lemma ClassifyByInRange(f: seq<(int, int)>, straight: (bool, int), ranks: seq<int>, flush: bool)
    requires FiveCardShape(f) && (straight.0 ==> 2 <= straight.1 <= 14)
    requires forall i :: 0 <= i < |f| ==> 2 <= f[i].1 <= 14
    requires forall i :: 0 <= i < |ranks| ==> 2 <= ranks[i] <= 14
    ensures var e := ClassifyBy(f, straight, ranks, flush);
      && 1 <= e.rank <= 10
      && (forall i :: 0 <= i < |e.value| ==> 2 <= e.value[i] <= 14)
      && (e.rank == 10 ==> e.value == [14])
      && (e.rank == 9 ==> e.value != [14])
  {}

  lemma GroupedRanksInRange(ranks: seq<int>)
    requires Descending(ranks) && forall i :: 0 <= i < |ranks| ==> 2 <= ranks[i] <= 14
    ensures forall i :: 0 <= i < |ByFrequency(ranks)| ==> 2 <= ByFrequency(ranks)[i].1 <= 14
  {
    var f := ByFrequency(ranks);
    ByFrequencyContents(ranks);
    forall i | 0 <= i < |f| ensures 2 <= f[i].1 <= 14 {
      assert f[i] in f;
      assert f[i].1 in multiset(ranks);
    }
  }

  lemma RanksAreValues(cards: seq<Card>)
    requires Playable(cards)
    ensures forall x :: x in SortDesc(Values(cards)) ==> 2 <= x <= 14
  {
    forall x | x in SortDesc(Values(cards)) ensures 2 <= x <= 14 {
      assert x in multiset(Values(cards));
    }
  }

  ghost predicate Digits(vals: seq<int>) {
    forall i :: 0 <= i < |vals| ==> 0 <= vals[i] <= 14
  }

  /** A smaller category stays behind whatever digits follow. */
  lemma {:induction false} HigherPrefixWins(c: int, d: int, a: seq<int>, b: seq<int>, n: nat)
    requires Digits(a) && Digits(b) && c < d
    ensures Base15(c, a, n) < Base15(d, b, n)
  {
    if n > 0 { HigherPrefixWins(c, d, a, b, n - 1); }
  }

  /** From the first differing digit on, the numbers order as the digits do. */
  lemma {:induction false} DigitsOrder(c: int, a: seq<int>, b: seq<int>, i: nat, n: nat)
    requires Digits(a) && Digits(b) && |a| == |b| && i <= n
    requires Base15(c, a, i) == Base15(c, b, i) && |a| <= n
    ensures CompareFrom(a, b, i) > 0 ==> Base15(c, a, n) > Base15(c, b, n)
    ensures CompareFrom(a, b, i) < 0 ==> Base15(c, a, n) < Base15(c, b, n)
    ensures CompareFrom(a, b, i) == 0 ==> Base15(c, a, n) == Base15(c, b, n)
    decreases n - i
  {
    if i < n {
      if i < |a| && a[i] != b[i] {
        FirstDifferenceDecides(c, a, b, i + 1, n);
      } else {
        DigitsOrder(c, a, b, i + 1, n);
      }
    }
  }

  lemma {:induction false} FirstDifferenceDecides(c: int, a: seq<int>, b: seq<int>, i: nat, n: nat)
    requires Digits(a) && Digits(b) && i <= n
    ensures Base15(c, a, i) < Base15(c, b, i) ==> Base15(c, a, n) < Base15(c, b, n)
    ensures Base15(c, a, i) > Base15(c, b, i) ==> Base15(c, a, n) > Base15(c, b, n)
    decreases n - i
  {
    if i < n { FirstDifferenceDecides(c, a, b, i + 1, n); }
  }

  /** Comparing base-15 scores is comparing hands. */
  lemma EncodeKeepsOrder(a: HandEval, b: HandEval)
    requires Encodable(a) && Encodable(b)
    ensures Compare(a, b) > 0 <==> Encode(a) > Encode(b)
    ensures Compare(a, b) < 0 <==> Encode(a) < Encode(b)
    ensures Compare(a, b) == 0 <==> Encode(a) == Encode(b)
  {
    if a.rank == b.rank {
      DigitsOrder(Category(a.rank), a.value, b.value, 0, 5);
    } else if Category(a.rank) < Category(b.rank) {
      HigherPrefixWins(Category(a.rank), Category(b.rank), a.value, b.value, 5);
    } else if Category(b.rank) < Category(a.rank) {
      HigherPrefixWins(Category(b.rank), Category(a.rank), b.value, a.value, 5);
    } else {
      assert a.value[0] != b.value[0] by {
        assert a.value == [a.value[0]] && b.value == [b.value[0]];
      }
      DigitsOrder(8, a.value, b.value, 0, 5);
    }
  }

  // ----- eval5 -----

  /** The ranks from 14 down to lo that occur exactly k times. */
  function Having(m: multiset<int>, k: int, lo: int): (r: seq<int>)
    ensures StrictlyDescending(r)
    ensures forall x :: x in r <==> lo <= x <= 14 && m[x] == k
    decreases 15 - lo
  {
    if lo > 14 then []
    else
      var higher := Having(m, k, lo + 1);
      assert forall i :: 0 <= i < |higher| ==> higher[i] in higher;
      if m[lo] == k then higher + [lo] else higher
  }

  ghost predicate Counts(cnt: array<int>, m: multiset<int>)
    reads cnt
  {
    cnt.Length == 15 && forall v :: 0 <= v <= 14 ==> cnt[v] == m[v]
  }

  /** What straightHigh finds: the top of a run of five, 5 for the wheel, -1 for none. */
  ghost predicate HighOf(m: multiset<int>, high: int) {
    if high == -1 then !Wheel(m) && forall h :: 5 <= h <= 14 ==> !Run(m, h)
    else (5 <= high <= 14 && Run(m, high)) || (high == 5 && Wheel(m))
  }

  method StraightHigh(cnt: array<int>, ghost m: multiset<int>) returns (high: int)
    requires Counts(cnt, m)
    ensures HighOf(m, high)
  {
    var hi := 14;
    while hi >= 5
      invariant 4 <= hi <= 14
      invariant forall h :: hi < h <= 14 ==> !Run(m, h)
    {
      var ok := true;
      var v := hi;
      while v > hi - 5
        invariant hi - 5 <= v <= hi
        invariant ok ==> forall u :: v < u <= hi ==> m[u] > 0
        invariant !ok ==> !Run(m, hi)
      {
        if cnt[v] == 0 {
          ok := false;
          break;
        }
        v := v - 1;
      }
      if ok {
        return hi;
      }
      hi := hi - 1;
    }
    if cnt[14] > 0 && cnt[2] > 0 && cnt[3] > 0 && cnt[4] > 0 && cnt[5] > 0 {
      return 5;
    }
    return -1;
  }

  /** Both implementations see the same straights. */
  lemma StraightsAgree(ranks: seq<int>, high: int)
    requires Descending(ranks) && |ranks| == 5 && forall x :: x in ranks ==> 2 <= x <= 14
    requires HighOf(multiset(ranks), high)
    ensures Straight(Distinct(ranks)) == if high == -1 then (false, 0) else (true, high)
  {
    var m, uniq := multiset(ranks), Distinct(ranks);
    if high != -1 {
      if Run(m, high) {
        RunIsTheHand(ranks, high);
      } else {
        WheelIsTheHand(ranks);
      }
    } else if Straight(uniq).0 {
      assert uniq[0] in ranks && uniq[1] in ranks && uniq[2] in ranks && uniq[3] in ranks && uniq[4] in ranks;
      StraightIsRunOrWheel(uniq, m);
    }
  }

  /** A list of the ranks with count k is the stretch of by_freq with that count. */
  lemma ListIsStretch(f: seq<(int, int)>, k: int, lo: nat, hi: nat, list: seq<int>)
    requires Ordered(f) && lo <= hi <= |f|
    requires forall i :: 0 <= i < |f| ==> (f[i].0 == k <==> lo <= i < hi)
    requires StrictlyDescending(list) && forall x :: x in list <==> (k, x) in f
    ensures list == seq(hi - lo, i requires 0 <= i < hi - lo => f[lo + i].1)
  {
    var stretch := seq(hi - lo, i requires 0 <= i < hi - lo => f[lo + i].1);
    forall i, j | 0 <= i < j < |stretch| ensures stretch[i] > stretch[j] {
      assert Before(f[lo + i], f[lo + j]);
    }
    forall x ensures x in list <==> x in stretch {
      if x in list {
        var i :| 0 <= i < |f| && f[i] == (k, x);
        assert stretch[i - lo] == x;
      }
      if x in stretch {
        var i :| 0 <= i < |stretch| && stretch[i] == x;
        assert f[lo + i] == (k, x);
      }
    }
    StrictlyDescendingUnique(list, stretch);
  }

  /** The gateway's list of ranks with count k is the stretch of by_freq with that count. */
  lemma ListsFollowFrequency(ranks: seq<int>, k: int, lo: nat, hi: nat)
    requires Descending(ranks) && forall i :: 0 <= i < |ranks| ==> 2 <= ranks[i] <= 14
    requires k > 0 && lo <= hi <= |ByFrequency(ranks)|
    requires forall i :: 0 <= i < |ByFrequency(ranks)| ==> (ByFrequency(ranks)[i].0 == k <==> lo <= i < hi)
    ensures Having(multiset(ranks), k, 2) ==
            seq(hi - lo, i requires 0 <= i < hi - lo => ByFrequency(ranks)[lo + i].1)
  {
    ByFrequencyContents(ranks);
    var list := Having(multiset(ranks), k, 2);
    forall x ensures x in list <==> (k, x) in ByFrequency(ranks) {
      assert multiset(ranks)[x] > 0 ==> x in ranks;
    }
    ListIsStretch(ByFrequency(ranks), k, lo, hi, list);
  }

  /** How many leading entries have a count above k. */
  function CountAbove(f: seq<(int, int)>, k: int): (n: nat)
    requires forall i, j :: 0 <= i < j < |f| ==> f[i].0 >= f[j].0
    ensures n <= |f|
    ensures forall i :: 0 <= i < |f| ==> (f[i].0 > k <==> i < n)
  {
    if f == [] || f[0].0 <= k then 0
    else
      var n := CountAbove(f[1..], k);
      assert forall i :: 1 <= i < |f| ==> f[i] == f[1..][i - 1];
      1 + n
  }

  /** The gateway's list of ranks occurring exactly k times, for a hand of each shape. */
  ghost predicate ListByShape(f: seq<(int, int)>, k: int, list: seq<int>)
    requires FiveCardShape(f)
  {
    list ==
    match |f|
    case 1 => []
    case 2 => if k == f[0].0 then [f[0].1] else if k == f[1].0 then [f[1].1] else []
    case 3 =>
      if f[0].0 == 3 then (if k == 3 then [f[0].1] else if k == 1 then [f[1].1, f[2].1] else [])
      else (if k == 2 then [f[0].1, f[1].1] else if k == 1 then [f[2].1] else [])
    case 4 => if k == 2 then [f[0].1] else if k == 1 then [f[1].1, f[2].1, f[3].1] else []
    case _ => if k == 1 then [f[0].1, f[1].1, f[2].1, f[3].1, f[4].1] else []
  }

  lemma ListOfShape(ranks: seq<int>, k: int)
    requires Descending(ranks) && |ranks| == 5 && forall i :: 0 <= i < 5 ==> 2 <= ranks[i] <= 14
    requires 1 <= k <= 4
    ensures FiveCardShape(ByFrequency(ranks))
    ensures ListByShape(ByFrequency(ranks), k, Having(multiset(ranks), k, 2))
  {
    var f := ByFrequency(ranks);
    FrequencyShape(ranks);
    CountsFall(ranks);
    var lo, hi := CountAbove(f, k), CountAbove(f, k - 1);
    ListsFollowFrequency(ranks, k, lo, hi);
    StretchByShape(f, k, lo, hi);
  }

  lemma CountsFall(ranks: seq<int>)
    requires Descending(ranks)
    ensures forall i, j :: 0 <= i < j < |ByFrequency(ranks)| ==> ByFrequency(ranks)[i].0 >= ByFrequency(ranks)[j].0
  {
    ByFrequencyContents(ranks);
    forall i, j | 0 <= i < j < |ByFrequency(ranks)|
      ensures ByFrequency(ranks)[i].0 >= ByFrequency(ranks)[j].0
    {
      assert Before(ByFrequency(ranks)[i], ByFrequency(ranks)[j]);
    }
  }

  lemma StretchByShape(f: seq<(int, int)>, k: int, lo: nat, hi: nat)
    requires FiveCardShape(f) && 1 <= k <= 4 && lo <= hi <= |f|
    requires forall i :: 0 <= i < |f| ==> (f[i].0 == k <==> lo <= i < hi)
    ensures ListByShape(f, k, seq(hi - lo, i requires 0 <= i < hi - lo => f[lo + i].1))
  {}

  /** cnt[v]++ for every card. */
  method CountValues(cards: seq<Card>) returns (cnt: array<int>)
    requires Playable(cards)
    ensures fresh(cnt) && Counts(cnt, multiset(Values(cards)))
  {
    cnt := new int[15](_ => 0);
    for i := 0 to |cards|
      invariant Counts(cnt, multiset(Values(cards)[..i]))
    {
      assert Values(cards)[..i + 1] == Values(cards)[..i] + [cards[i].v];
      cnt[cards[i].v] := cnt[cards[i].v] + 1;
    }
    assert Values(cards)[..|cards|] == Values(cards);
  }

  lemma {:induction false} AllTheSame(s: seq<string>, x: string)
    ensures multiset(s)[x] == |s| <==> forall i :: 0 <= i < |s| ==> s[i] == x
    ensures multiset(s)[x] <= |s|
  {
    if s != [] {
      RestOf(s);
      AllTheSame(s[1..], x);
      assert (forall i :: 0 <= i < |s| ==> s[i] == x) <==> s[0] == x && forall i :: 0 <= i < |s[1..]| ==> s[1..][i] == x;
    }
  }

  method CountSuits(suits: seq<string>) returns (suitCnt: map<string, int>)
    ensures forall s :: s in suits ==> s in suitCnt
    ensures forall s :: s in suitCnt ==> suitCnt[s] == multiset(suits)[s]
  {
    suitCnt := map[];
    for i := 0 to |suits|
      invariant forall s :: s in suitCnt <==> s in suits[..i]
      invariant forall s :: s in suitCnt ==> suitCnt[s] == multiset(suits[..i])[s]
    {
      assert suits[..i + 1] == suits[..i] + [suits[i]];
      suitCnt := suitCnt[suits[i] := (if suits[i] in suitCnt then suitCnt[suits[i]] else 0) + 1];
    }
    assert suits[..|suits|] == suits;
  }

  lemma AllOfSuit(cards: seq<Card>, suits: seq<string>, s: string)
    requires |cards| == |suits| == 5 && forall i :: 0 <= i < 5 ==> suits[i] == cards[i].s
    ensures multiset(suits)[s] == 5 <==> IsFlush(cards) && cards[0].s == s
  {
    AllTheSame(suits, s);
    assert (forall i :: 0 <= i < 5 ==> suits[i] == s) <==> IsFlush(cards) && cards[0].s == s by {
      assert suits[0] == cards[0].s;
    }
  }

  /** Whether some suit has all five cards. */
  method HasFlush(cards: seq<Card>) returns (flush: bool)
    requires |cards| == 5
    ensures flush == IsFlush(cards)
  {
    var suits := seq(|cards|, i requires 0 <= i < |cards| => cards[i].s);
    var suitCnt := CountSuits(suits);
    flush := exists s | s in suitCnt :: suitCnt[s] == 5;
    if flush {
      var s :| s in suitCnt && suitCnt[s] == 5;
      AllOfSuit(cards, suits, s);
    } else {
      assert suits[0] in suitCnt;
      AllOfSuit(cards, suits, suits[0]);
    }
  }

  /** The ranks occurring four, three, two and one times, highest first. */
  method RankLists(cnt: array<int>, ghost m: multiset<int>)
    returns (fours: seq<int>, threes: seq<int>, pairs: seq<int>, singles: seq<int>)
    requires Counts(cnt, m)
    ensures fours == Having(m, 4, 2) && threes == Having(m, 3, 2)
    ensures pairs == Having(m, 2, 2) && singles == Having(m, 1, 2)
  {
    fours, threes, pairs, singles := [], [], [], [];
    var v := 14;
    while v >= 2
      invariant 1 <= v <= 14
      invariant fours == Having(m, 4, v + 1) && threes == Having(m, 3, v + 1)
      invariant pairs == Having(m, 2, v + 1) && singles == Having(m, 1, v + 1)
    {
      if cnt[v] == 4 {
        fours := fours + [v];
      } else if cnt[v] == 3 {
        threes := threes + [v];
      } else if cnt[v] == 2 {
        pairs := pairs + [v];
      } else if cnt[v] == 1 {
        singles := singles + [v];
      }
      v := v - 1;
    }
  }

  /** All values, highest first, each as often as it occurs. */
  method SortedValues(cnt: array<int>, ghost ranks: seq<int>) returns (out: seq<int>)
    requires Descending(ranks) && Counts(cnt, multiset(ranks)) && forall x :: x in ranks ==> 2 <= x <= 14
    ensures out == ranks
  {
    ghost var m := multiset(ranks);
    assert forall x :: m[x] > 0 ==> x in ranks;
    out := [];
    var v := 14;
    while v >= 2
      invariant 1 <= v <= 14
      invariant Descending(out) && forall i :: 0 <= i < |out| ==> out[i] > v
      invariant forall x :: multiset(out)[x] == if x > v then m[x] else 0
    {
      out := Append(out, v, cnt[v]);
      v := v - 1;
    }
    assert forall x :: multiset(out)[x] == m[x];
    DescendingUnique(out, ranks);
  }

  /** The inner loop: a value below all so far is added n times. */
  method Append(above: seq<int>, v: int, n: int) returns (out: seq<int>)
    requires Descending(above) && n >= 0 && forall i :: 0 <= i < |above| ==> above[i] > v
    ensures Descending(out) && forall i :: 0 <= i < |out| ==> out[i] >= v
    ensures multiset(out) == multiset(above)[v := n]
  {
    out := above;
    var i := 0;
    while i < n
      invariant 0 <= i <= n
      invariant Descending(out) && forall j :: 0 <= j < |out| ==> out[j] >= v
      invariant multiset(out) == multiset(above)[v := i]
    {
      out := out + [v];
      i := i + 1;
    }
  }

  /** eval5: score and name are those of the engine's evaluation of the same five cards. */
  method Eval5Score(cards: seq<Card>) returns (r: HandRank)
    requires |cards| == 5 && Playable(cards)
    ensures r == Ranked(Eval5(cards))
  {
    var cnt := CountValues(cards);
    var flush := HasFlush(cards);
    RanksAreValues(cards);
    r := Rank(cnt, flush, SortDesc(Values(cards)));
  }

  method Rank(cnt: array<int>, flush: bool, ghost ranks: seq<int>) returns (r: HandRank)
    requires Descending(ranks) && |ranks| == 5 && forall x :: x in ranks ==> 2 <= x <= 14
    requires Counts(cnt, multiset(ranks))
    ensures r == Ranked(Classify(ranks, flush))
  {
    var high := StraightHigh(cnt, multiset(ranks));
    var fours, threes, pairs, singles := RankLists(cnt, multiset(ranks));
    var values := SortedValues(cnt, ranks);
    StraightsAgree(ranks, high);
    assert forall i :: 0 <= i < 5 ==> ranks[i] in ranks;
    ListOfShape(ranks, 4);
    ListOfShape(ranks, 3);
    ListOfShape(ranks, 2);
    ListOfShape(ranks, 1);
    r := Decide(ByFrequency(ranks), Straight(Distinct(ranks)), flush, high, fours, threes, pairs, singles, values);
  }

  method Decide(ghost f: seq<(int, int)>, ghost straight: (bool, int), flush: bool, high: int,
                fours: seq<int>, threes: seq<int>, pairs: seq<int>, singles: seq<int>, values: seq<int>)
    returns (r: HandRank)
    requires straight == (if high == -1 then (false, 0) else (true, high)) && (high == -1 || high > 0)
    requires FiveCardShape(f)
    requires ListByShape(f, 4, fours) && ListByShape(f, 3, threes)
    requires ListByShape(f, 2, pairs) && ListByShape(f, 1, singles)
    ensures r == Ranked(ClassifyBy(f, straight, values, flush))
  {
    var cat, vals, desc;
    if flush && high > 0 {
      cat, vals, desc := 8, [high], "Straight Flush";
    } else if fours != [] {
      cat, vals, desc := 7, [fours[0], singles[0]], "Four of a Kind";
    } else if threes != [] && pairs != [] {
      cat, vals, desc := 6, [threes[0], pairs[0]], "Full House";
    } else if flush {
      cat, vals, desc := 5, values, "Flush";
    } else if high > 0 {
      cat, vals, desc := 4, [high], "Straight";
    } else if threes != [] {
      cat, vals, desc := 3, [threes[0]] + singles, "Three of a Kind";
    } else if |pairs| >= 2 {
      cat, vals, desc := 2, [pairs[0], pairs[1], singles[0]], "Two Pair";
    } else if |pairs| == 1 {
      cat, vals, desc := 1, [pairs[0]] + singles, "One Pair";
    } else {
      cat, vals, desc := 0, values, "High Card";
    }
    ghost var e := ClassifyBy(f, straight, values, flush);
    assert cat == Category(e.rank) && vals == e.value && desc == Ranked(e).desc;
    var s := Score(cat, vals);
    r := HandRank(s, desc);
  }

  // ----- bestHand: the best of all five-card choices -----

  lemma BestIsEncodable(cards: seq<Card>)
    requires Playable(cards) && |cards| >= 5
    ensures Encodable(Best(cards))
  {
    var hand := BestIsAttained(cards);
    forall i | 0 <= i < 5 ensures 2 <= hand[i].v <= 14 {
      assert hand[i] in multiset(cards);
    }
    EvalIsEncodable(hand);
  }

  /** The best-so-far after the evaluations in `seen`. */
  ghost predicate Tracks(best: HandRank, hasBest: bool, seen: seq<HandEval>) {
    && (forall i :: 0 <= i < |seen| ==> Encodable(seen[i]))
    && hasBest == (seen != [])
    && (hasBest ==> best == Ranked(BestUpTo(seen, |seen|)))
  }

  lemma {:induction false} BestUpToPrefix(a: seq<HandEval>, e: HandEval, n: nat)
    requires n <= |a|
    ensures BestUpTo(a + [e], n) == BestUpTo(a, n)
  {
    if n > 0 { BestUpToPrefix(a, e, n - 1); }
  }

  lemma TrackOne(best: HandRank, hasBest: bool, seen: seq<HandEval>, e: HandEval, cur: HandRank)
    requires Tracks(best, hasBest, seen) && Encodable(e) && cur == Ranked(e)
    ensures Tracks(if !hasBest || cur.score > best.score then cur else best, true, seen + [e])
  {
    hide Base15, Category, RankName;
    BestUpToPrefix(seen, e, |seen|);
    if hasBest {
      var w := BestUpToIsMax(seen, |seen|);
      EncodeKeepsOrder(e, seen[w]);
    }
  }

  /** The evaluations of the choices extending `picked` with r cards from position i on. */
  function Extensions(cards: seq<Card>, picked: seq<Card>, r: nat, i: nat): seq<HandEval>
    requires i <= |cards| && |picked| + r == 5
  {
    ExtensionsHaveFive(cards, picked, r, i);
    Evals(Picks(cards, picked, r, i))
  }

  lemma ExtensionsHaveFive(cards: seq<Card>, picked: seq<Card>, r: nat, i: nat)
    requires i <= |cards| && |picked| + r == 5
    ensures FiveEach(Picks(cards, picked, r, i))
  {
    forall j | 0 <= j < |Picks(cards, picked, r, i)| ensures |Picks(cards, picked, r, i)[j]| == 5 {
      PicksAreSubMultisets(cards, picked, r, i, j);
    }
  }

  lemma ExtensionsSplit(cards: seq<Card>, picked: seq<Card>, r: nat, i: nat)
    requires i < |cards| && |picked| + r == 5 && r > 0
    ensures Extensions(cards, picked, r, i) ==
            Extensions(cards, picked + [cards[i]], r - 1, i + 1) + Extensions(cards, picked, r, i + 1)
  {
    ExtensionsHaveFive(cards, picked, r, i);
    ExtensionsHaveFive(cards, picked + [cards[i]], r - 1, i + 1);
    ExtensionsHaveFive(cards, picked, r, i + 1);
  }

  lemma ExtensionsUnfold(cards: seq<Card>, picked: seq<Card>, r: nat, i: nat, seen: seq<HandEval>)
    requires i < |cards| && |picked| + r == 5 && r > 0
    ensures (seen + Extensions(cards, picked + [cards[i]], r - 1, i + 1)) + Extensions(cards, picked, r, i + 1)
         == seen + Extensions(cards, picked, r, i)
  {
    ExtensionsSplit(cards, picked, r, i);
    AppendAssociates(seen, Extensions(cards, picked + [cards[i]], r - 1, i + 1), Extensions(cards, picked, r, i + 1));
  }

  lemma NoExtensions(cards: seq<Card>, picked: seq<Card>, r: nat, i: nat)
    requires i <= |cards| < i + r && |picked| + r == 5
    ensures Extensions(cards, picked, r, i) == []
  {
    TooFewLeft(cards, picked, r, i);
  }

  lemma {:induction false} TooFewLeft<T>(arr: seq<T>, current: seq<T>, r: nat, i: nat)
    requires i <= |arr| < i + r
    ensures Picks(arr, current, r, i) == []
    decreases |arr| - i
  {
    if i < |arr| {
      TooFewLeft(arr, current + [arr[i]], r - 1, i + 1);
      TooFewLeft(arr, current, r, i + 1);
    }
  }

  /** One of bestHand's five nested loops, with r cards still to choose: it chooses the next one. */
  method Nest(cards: seq<Card>, picked: seq<Card>, r: nat, start: nat, best0: HandRank, hasBest0: bool,
              ghost seen0: seq<HandEval>)
    returns (best: HandRank, hasBest: bool, ghost seen: seq<HandEval>)
    requires r > 0 && |picked| + r == 5 && start <= |cards| && Playable(cards) && Playable(picked)
    requires Tracks(best0, hasBest0, seen0)
    ensures Tracks(best, hasBest, seen) && seen == seen0 + Extensions(cards, picked, r, start)
    decreases r, 0
  {
    hide Tracks, Extensions;
    best, hasBest, seen := best0, hasBest0, seen0;
    var i := start;
    while i < |cards| - r + 1
      invariant start <= i <= |cards|
      invariant Tracks(best, hasBest, seen)
      invariant seen + Extensions(cards, picked, r, i) == seen0 + Extensions(cards, picked, r, start)
    {
      ghost var before := seen;
      best, hasBest, seen := Inner(cards, picked + [cards[i]], r - 1, i + 1, best, hasBest, seen);
      ExtensionsUnfold(cards, picked, r, i, before);
      i := i + 1;
    }
    NoExtensions(cards, picked, r, i);
  }

  /** The body of the loop: the next inner loop, or, innermost, eval5 and the comparison. */
  method Inner(cards: seq<Card>, chosen: seq<Card>, r: nat, start: nat, best0: HandRank, hasBest0: bool,
               ghost seen0: seq<HandEval>)
    returns (best: HandRank, hasBest: bool, ghost seen: seq<HandEval>)
    requires |chosen| + r == 5 && start <= |cards| && Playable(cards) && Playable(chosen)
    requires Tracks(best0, hasBest0, seen0)
    ensures Tracks(best, hasBest, seen) && seen == seen0 + Extensions(cards, chosen, r, start)
    decreases r, 1
  {
    if r > 0 {
      best, hasBest, seen := Nest(cards, chosen, r, start, best0, hasBest0, seen0);
    } else {
      var cur := Eval5Score(chosen);
      EvalIsEncodable(chosen);
      TrackOne(best0, hasBest0, seen0, Eval5(chosen), cur);
      best, hasBest := if !hasBest0 || cur.score > best0.score then cur else best0, true;
      seen := seen0 + [Eval5(chosen)];
      assert Extensions(cards, chosen, 0, start) == [Eval5(chosen)];
    }
  }

  /** bestHand: score and name are those of the engine's best hand for the same cards. */
  method BestHandScore(cards: seq<Card>) returns (best: HandRank)
    requires Playable(cards)
    ensures |cards| < 5 ==> best == HandRank(0, "High Card")
    ensures |cards| >= 5 ==> best == Ranked(Best(cards))
  {
    if |cards| < 5 {
      return HandRank(0, "High Card");
    }
    var hasBest;
    ghost var seen;
    best, hasBest, seen := Nest(cards, [], 5, 0, HandRank(0, "High Card"), false, []);
    AllExtensions(cards);
    if !hasBest {
      best := HandRank(0, "High Card");
    }
  }

  lemma AllExtensions(cards: seq<Card>)
    requires |cards| >= 5
    ensures [] + Extensions(cards, [], 5, 0) == AllEvals(cards) != []
  {
    SomePick(cards);
  }

  lemma SomePick(cards: seq<Card>)
    requires |cards| >= 5
    ensures Picks(cards, [], 5, 0) != []
  {
    hide Picks;
    var m := multiset(cards[..5]);
    assert |m| == 5;
    assert m <= multiset(cards[0..]) by {
      assert cards[0..] == cards[..5] + cards[5..];
    }
    var j := EverySubMultisetIsPicked(cards, [], m, 0);
  }

  // ----- showdown -----

  /** The seats (positions) no other beats, by the engine's comparison. */
  ghost predicate EngineWins(hands: seq<seq<Card>>, i: nat)
    requires i < |hands|
  {
    forall j :: 0 <= j < |hands| ==> Compare(Best(hands[j]), Best(hands[i])) <= 0
  }

  /** The seats (positions) no other outscores, by the gateway's number. */
  ghost predicate GatewayWins(hands: seq<seq<Card>>, i: nat)
    requires i < |hands|
  {
    forall j :: 0 <= j < |hands| ==> Encode(Best(hands[j])) <= Encode(Best(hands[i]))
  }

  /** At a showdown both implementations name the same winners. */
  lemma ShowdownWinnersAgree(hands: seq<seq<Card>>, i: nat)
    requires forall j :: 0 <= j < |hands| ==> Playable(hands[j]) && |hands[j]| >= 5
    requires i < |hands|
    ensures EngineWins(hands, i) <==> GatewayWins(hands, i)
  {
    forall j | 0 <= j < |hands|
      ensures Compare(Best(hands[j]), Best(hands[i])) <= 0 <==> Encode(Best(hands[j])) <= Encode(Best(hands[i]))
    {
      BestIsEncodable(hands[i]);
      BestIsEncodable(hands[j]);
      EncodeKeepsOrder(Best(hands[j]), Best(hands[i]));
    }
  }

  /** For any two five-card hands, the scores order as compare_hands orders the evaluations. */
  lemma EvaluatorsAgree(a: seq<Card>, b: seq<Card>)
    requires |a| == |b| == 5 && Playable(a) && Playable(b)
    ensures Compare(Eval5(a), Eval5(b)) > 0 <==> Encode(Eval5(a)) > Encode(Eval5(b))
    ensures Compare(Eval5(a), Eval5(b)) == 0 <==> Encode(Eval5(a)) == Encode(Eval5(b))
  {
    EvalIsEncodable(a);
    EvalIsEncodable(b);
    EncodeKeepsOrder(Eval5(a), Eval5(b));
  }
}
