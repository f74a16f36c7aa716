/**
  Who is paid what from which pot: the specification both settlements are proved
  against (the showdown branch of finish_hand in main.cpp, resolvePots in server.js),
  and what that specification guarantees.
  */
module Settlement {
  import opened Common
  import opened HoldemTypes
  import opened HoldemEvaluator
  import opened PotManager

  /** The evaluated seats and their hands. */
  type Hands = map<int, HandEval>

  ghost predicate ValidHands(hands: Hands) {
    forall s :: s in hands ==> 0 <= s < SEATS && Evaluated(hands[s])
  }

  // ----- the winners of one pot -----

  predicate Contends(hands: Hands, eligible: seq<int>, s: int) {
    s in hands && s in eligible
  }

  /** The evaluated eligible seats that no other evaluated eligible seat beats. */
  function Winners(hands: Hands, eligible: seq<int>): set<int> {
    set s | s in hands && s in eligible
      && forall t :: t in hands && t in eligible ==> Compare(hands[t], hands[s]) <= 0
  }

  /** The winners met when walking clockwise from the seat after the dealer. */
  function Clockwise(dealer: int, w: set<int>, step: nat): seq<int>
    decreases SEATS + 1 - step
  {
    if step > SEATS then []
    else
      (if (dealer + step) % SEATS in w then [(dealer + step) % SEATS] else []) + Clockwise(dealer, w, step + 1)
  }

  // ----- splitting an amount -----

  /** An equal share each, and one odd chip each to the first `odd` seats of the order. */
  function SplitCredit(order: seq<int>, share: int, odd: int, s: int): int {
    if order == [] then 0
    else
      (if order[0] == s then share + (if odd > 0 then 1 else 0) else 0)
      + SplitCredit(order[1..], share, if odd > 0 then odd - 1 else 0, s)
  }

  function PotCredit(hands: Hands, dealer: int, pot: Pot, s: int): int {
    var order := Clockwise(dealer, Winners(hands, pot.eligible), 1);
    if order == [] then 0 else SplitCredit(order, pot.amount / |order|, pot.amount % |order|, s)
  }

  /** What seat s is paid from all pots. */
  function Payout(hands: Hands, dealer: int, pots: seq<Pot>, s: int): int {
    if pots == [] then 0
    else Payout(hands, dealer, pots[..|pots| - 1], s) + PotCredit(hands, dealer, pots[|pots| - 1], s)
  }

  // ----- totals over the table -----

  function SplitTotal(order: seq<int>, share: int, odd: int, n: nat): int {
    if n == 0 then 0 else SplitTotal(order, share, odd, n - 1) + SplitCredit(order, share, odd, n - 1)
  }

  function CreditTotal(hands: Hands, dealer: int, pot: Pot, n: nat): int {
    if n == 0 then 0 else CreditTotal(hands, dealer, pot, n - 1) + PotCredit(hands, dealer, pot, n - 1)
  }

  /** What the seats below n are paid together. */
  function PayoutTotal(hands: Hands, dealer: int, pots: seq<Pot>, n: nat): int {
    if n == 0 then 0 else PayoutTotal(hands, dealer, pots, n - 1) + Payout(hands, dealer, pots, n - 1)
  }

  /** Splitting pays the head of the order once, at its own seat. */
  lemma {:induction false} SplitTotalHead(order: seq<int>, share: int, odd: int, n: nat)
    requires order != []
    ensures SplitTotal(order, share, odd, n) ==
            (if 0 <= order[0] < n then share + (if odd > 0 then 1 else 0) else 0)
            + SplitTotal(order[1..], share, if odd > 0 then odd - 1 else 0, n)
  {
    if n > 0 { SplitTotalHead(order, share, odd, n - 1); }
  }

  lemma {:induction false} NobodyToPay(share: int, odd: int, n: nat)
    ensures SplitTotal([], share, odd, n) == 0
  {
    if n > 0 { NobodyToPay(share, odd, n - 1); }
  }

  lemma {:induction false} SplitPaysEverything(order: seq<int>, share: int, odd: int)
    requires 0 <= odd <= |order| && forall i :: 0 <= i < |order| ==> 0 <= order[i] < SEATS
    ensures SplitTotal(order, share, odd, SEATS) == share * |order| + odd
  {
    if order == [] {
      NobodyToPay(share, odd, SEATS);
    } else {
      SplitTotalHead(order, share, odd, SEATS);
      SplitPaysEverything(order[1..], share, if odd > 0 then odd - 1 else 0);
      assert share * |order| == share * |order[1..]| + share;
    }
  }

  lemma {:induction false} CreditTotalIsSplitTotal(hands: Hands, dealer: int, pot: Pot, n: nat)
    ensures CreditTotal(hands, dealer, pot, n) ==
            var order := Clockwise(dealer, Winners(hands, pot.eligible), 1);
            if order == [] then 0 else SplitTotal(order, pot.amount / |order|, pot.amount % |order|, n)
  {
    if n > 0 { CreditTotalIsSplitTotal(hands, dealer, pot, n - 1); }
  }

  // ----- the clockwise order -----

  /** How many seats lie between the first seat after the dealer and s, going clockwise. */
  function Distance(dealer: int, s: int): int {
    (s - (dealer + 1) % SEATS + SEATS) % SEATS
  }

  ghost predicate InDistanceOrder(dealer: int, order: seq<int>) {
    forall i, j :: 0 <= i < j < |order| ==> Distance(dealer, order[i]) < Distance(dealer, order[j])
  }

  lemma {:induction false} ClockwiseMembers(dealer: int, w: set<int>, step: nat)
    requires 0 <= dealer < SEATS && 1 <= step <= SEATS + 1
    ensures forall s :: s in Clockwise(dealer, w, step) <==>
                        s in w && 0 <= s < SEATS && Distance(dealer, s) >= step - 1
    decreases SEATS + 1 - step
  {
    if step <= SEATS {
      hide Distance;
      ClockwiseMembers(dealer, w, step + 1);
      var here := (dealer + step) % SEATS;
      StepDistance(dealer, step);
      forall s ensures s in Clockwise(dealer, w, step) <==> s in w && 0 <= s < SEATS && Distance(dealer, s) >= step - 1 {
        if 0 <= s < SEATS && Distance(dealer, s) == step - 1 { SeatAtDistance(dealer, s, step); }
      }
    } else {
      forall s | 0 <= s < SEATS ensures Distance(dealer, s) < SEATS {}
    }
  }

  lemma {:induction false} ClockwiseOrdered(dealer: int, w: set<int>, step: nat)
    requires 0 <= dealer < SEATS && 1 <= step <= SEATS + 1
    ensures InDistanceOrder(dealer, Clockwise(dealer, w, step))
    decreases SEATS + 1 - step
  {
    if step <= SEATS {
      hide Distance;
      ClockwiseOrdered(dealer, w, step + 1);
      ClockwiseMembers(dealer, w, step + 1);
      StepDistance(dealer, step);
      OrderedCons(dealer, (dealer + step) % SEATS, step - 1, Clockwise(dealer, w, step + 1));
    }
  }

  lemma StepDistance(dealer: int, step: nat)
    requires 0 <= dealer < SEATS && 1 <= step <= SEATS
    ensures Distance(dealer, (dealer + step) % SEATS) == step - 1
  {}

  lemma OrderedCons(dealer: int, here: int, d: int, rest: seq<int>)
    requires InDistanceOrder(dealer, rest) && Distance(dealer, here) == d
    requires forall s :: s in rest ==> Distance(dealer, s) > d
    ensures InDistanceOrder(dealer, [here] + rest) && InDistanceOrder(dealer, [] + rest)
  {
    hide Distance;
    assert forall i :: 0 <= i < |rest| ==> rest[i] in rest;
  }

  lemma {:induction false} DistanceOrderUnique(dealer: int, a: seq<int>, b: seq<int>)
    requires InDistanceOrder(dealer, a) && InDistanceOrder(dealer, b)
    requires forall s :: s in a <==> s in b
    ensures a == b
  {
    if b != [] {
      assert b[0] in b && b[0] in a;
    }
    if a != [] {
      assert a[0] in a && a[0] in b;
      assert a[0] == b[0];
      assert a == [a[0]] + a[1..] && b == [b[0]] + b[1..];
      forall s ensures s in a[1..] <==> s in b[1..] {
        assert s in a <==> s in b;
      }
      DistanceOrderUnique(dealer, a[1..], b[1..]);
    }
  }

  // ----- the nearest seat clockwise -----

  /** Going clockwise from the seat after `from`, i is the first seat of s. */
  ghost predicate Nearest(from: int, s: set<int>, i: int) {
    i in s && forall j :: j in s ==> Distance(from, i) <= Distance(from, j)
  }

  lemma DistanceRange(from: int, i: int)
    ensures 0 <= Distance(from, i) < SEATS
  {}

  /** The distance without the remainders. */
  lemma DistanceIs(from: int, s: int)
    requires 0 <= from < SEATS && 0 <= s < SEATS
    ensures Distance(from, s) == if s > from then s - from - 1 else s - from + SEATS - 1
  {
    var first := (from + 1) % SEATS;
    assert first == if from + 1 < SEATS then from + 1 else 0;
    var x := s - first + SEATS;
    assert x % SEATS == if x < SEATS then x else x - SEATS;
  }

  lemma SeatAtDistance(from: int, i: int, step: nat)
    requires 0 <= from < SEATS && 0 <= i < SEATS && 1 <= step <= SEATS && Distance(from, i) == step - 1
    ensures i == (from + step) % SEATS
  {
    hide Distance;
    DistanceIs(from, i);
  }

  /** Past e, distances are counted from e. */
  lemma DistancePast(from: int, e: int, j: int)
    requires 0 <= from < SEATS && 0 <= e < SEATS && 0 <= j < SEATS && Distance(from, j) > Distance(from, e)
    ensures Distance(e, j) == Distance(from, j) - Distance(from, e) - 1
  {
    hide Distance;
    DistanceIs(from, j);
    DistanceIs(from, e);
    DistanceIs(e, j);
  }

  /** Somebody nearest in a larger set, then the nearest past it: nearest in the smaller set. */
  lemma NearestPast(from: int, e: int, all: set<int>, some: set<int>, r: int)
    requires 0 <= from < SEATS && forall i :: i in all ==> 0 <= i < SEATS
    requires Nearest(from, all, e) && some <= all && some != {}
    requires if e in some then r == e else Nearest(e, some, r)
    ensures Nearest(from, some, r)
  {
    if e !in some {
      forall j | j in some ensures Distance(from, r) <= Distance(from, j) {
        OtherIsPast(from, e, j);
        OtherIsPast(from, e, r);
        DistancePast(from, e, j);
        DistancePast(from, e, r);
      }
    }
  }

  lemma OtherIsPast(from: int, e: int, j: int)
    requires 0 <= from < SEATS && 0 <= e < SEATS && 0 <= j < SEATS && j != e && Distance(from, e) <= Distance(from, j)
    ensures Distance(from, j) > Distance(from, e)
  {
    hide Distance;
    DistanceIs(from, e);
    DistanceIs(from, j);
  }

  lemma NearestIsUnique(from: int, s: set<int>, i: int, j: int)
    requires 0 <= from < SEATS && 0 <= i < SEATS && 0 <= j < SEATS && Nearest(from, s, i) && Nearest(from, s, j)
    ensures i == j
  {
    hide Distance;
    DistanceIs(from, i);
    DistanceIs(from, j);
  }

  // ----- exact settlement -----

  /** A pot somebody can win: an evaluated seat is eligible for it. */
  ghost predicate Claimed(hands: Hands, pot: Pot) {
    exists s :: s in hands && s in pot.eligible
  }

  /** Among finitely many evaluated seats, one is beaten by none. */
  lemma {:induction false} SomeoneWins(hands: Hands, among: set<int>) returns (w: int)
    requires ValidHands(hands) && among != {} && among <= hands.Keys
    ensures w in among && forall t :: t in among ==> Compare(hands[t], hands[w]) <= 0
    decreases among
  {
    var s := Member(among);
    w := s;
    CompareIsTotalPreorder(hands[s], hands[s], hands[s]);
    var rest := among - {s};
    if rest == {} {
      assert among == {s};
    } else {
      var w0 := SomeoneWins(hands, rest);
      CompareIsTotalPreorder(hands[s], hands[w0], hands[w0]);
      if Compare(hands[s], hands[w0]) > 0 {
        forall t | t in rest ensures Compare(hands[t], hands[s]) <= 0 {
          NewBestBeats(hands[s], hands[w0], hands[t]);
        }
      } else {
        w := w0;
      }
    }
  }

  lemma ClaimedMeansWon(hands: Hands, pot: Pot)
    requires ValidHands(hands)
    ensures Winners(hands, pot.eligible) != {} <==> Claimed(hands, pot)
  {
    hide Compare;
    var won := Winners(hands, pot.eligible);
    if Claimed(hands, pot) {
      var s :| s in hands && s in pot.eligible;
      var among := set t | t in hands && t in pot.eligible;
      assert s in among;
      var w := SomeoneWins(hands, among);
      assert w in won;
    } else {
      assert forall w :: w !in won;
    }
  }

  lemma OrderIsTheWinners(hands: Hands, dealer: int, pot: Pot)
    requires ValidHands(hands) && 0 <= dealer < SEATS
    ensures forall s :: s in Clockwise(dealer, Winners(hands, pot.eligible), 1) <==> s in Winners(hands, pot.eligible)
    ensures forall s :: s in Winners(hands, pot.eligible) ==> 0 <= s < SEATS
  {
    hide Compare;
    ClockwiseMembers(dealer, Winners(hands, pot.eligible), 1);
  }

  /** A pot is paid out in full if an evaluated seat is eligible for it, and not at all otherwise. */
  lemma PotPaidInFull(hands: Hands, dealer: int, pot: Pot)
    requires ValidHands(hands) && 0 <= dealer < SEATS
    ensures CreditTotal(hands, dealer, pot, SEATS) == if Claimed(hands, pot) then pot.amount else 0
  {
    hide Winners, Clockwise, SplitTotal, CreditTotal, Claimed;
    var w := Winners(hands, pot.eligible);
    var order := Clockwise(dealer, w, 1);
    ClaimedMeansWon(hands, pot);
    OrderIsTheWinners(hands, dealer, pot);
    CreditTotalIsSplitTotal(hands, dealer, pot, SEATS);
    if order == [] {
      assert forall s :: s in w ==> s in order;
      assert w == {};
    } else {
      assert order[0] in order;
      assert forall i :: 0 <= i < |order| ==> order[i] in order;
      SplitPaysEverything(order, pot.amount / |order|, pot.amount % |order|);
    }
  }

  /** The pots an evaluated seat is eligible for. */
  ghost function ClaimedSum(hands: Hands, pots: seq<Pot>): int {
    if pots == [] then 0
    else
      var last := pots[|pots| - 1];
      ClaimedSum(hands, pots[..|pots| - 1]) + (if Claimed(hands, last) then last.amount else 0)
  }

  lemma {:induction false} PayoutTotalSplits(hands: Hands, dealer: int, pots: seq<Pot>, n: nat)
    requires pots != []
    ensures PayoutTotal(hands, dealer, pots, n) ==
            PayoutTotal(hands, dealer, pots[..|pots| - 1], n) + CreditTotal(hands, dealer, pots[|pots| - 1], n)
  {
    hide PotCredit;
    if n > 0 { PayoutTotalSplits(hands, dealer, pots, n - 1); }
  }

  lemma {:induction false} NoPotsNoPayout(hands: Hands, dealer: int, n: nat)
    ensures PayoutTotal(hands, dealer, [], n) == 0
  {
    if n > 0 { NoPotsNoPayout(hands, dealer, n - 1); }
  }

  /** A showdown pays out exactly the claimed pots, odd chips included. */
  lemma {:induction false} ExactSettlement(hands: Hands, dealer: int, pots: seq<Pot>)
    requires ValidHands(hands) && 0 <= dealer < SEATS
    ensures PayoutTotal(hands, dealer, pots, SEATS) == ClaimedSum(hands, pots)
  {
    if pots == [] {
      NoPotsNoPayout(hands, dealer, SEATS);
    } else {
      ExactSettlement(hands, dealer, pots[..|pots| - 1]);
      PayoutTotalSplits(hands, dealer, pots, SEATS);
      PotPaidInFull(hands, dealer, pots[|pots| - 1]);
    }
  }

  // ----- when nothing is lost -----

  /** An evaluated seat that has not folded holds the largest contribution. */
  ghost predicate TopIsLive(cs: seq<PotContributor>, hands: Hands) {
    exists i :: 0 <= i < |cs| && cs[i].eligible && cs[i].seat in hands && Largest(cs, i)
  }

  lemma {:induction false} ClaimedAtMostAll(hands: Hands, pots: seq<Pot>)
    requires forall k :: 0 <= k < |pots| ==> pots[k].amount > 0
    ensures ClaimedSum(hands, pots) <= AmountSum(pots)
    ensures ClaimedSum(hands, pots) == AmountSum(pots) <==> forall k :: 0 <= k < |pots| ==> Claimed(hands, pots[k])
  {
    if pots != [] {
      var init := pots[..|pots| - 1];
      ClaimedAtMostAll(hands, init);
      assert forall k :: 0 <= k < |init| ==> init[k] == pots[k];
    }
  }

  /** Eligibility shrinks upwards, so all pots are claimed as soon as the top one is. */
  lemma TopClaimedAllClaimed(cs: seq<PotContributor>, hands: Hands)
    requires PotsOf(cs) != [] && Claimed(hands, PotsOf(cs)[|PotsOf(cs)| - 1])
    ensures forall k :: 0 <= k < |PotsOf(cs)| ==> Claimed(hands, PotsOf(cs)[k])
  {
    var pots := PotsOf(cs);
    var s :| s in hands && s in pots[|pots| - 1].eligible;
    forall k | 0 <= k < |pots| ensures Claimed(hands, pots[k]) {
      EligibleSetsShrink(cs, k, |pots| - 1, s);
    }
  }

  lemma TopPotClaimedIff(cs: seq<PotContributor>, hands: Hands)
    requires PotsOf(cs) != []
    ensures Claimed(hands, PotsOf(cs)[|PotsOf(cs)| - 1]) <==> TopIsLive(cs, hands)
  {
    hide PotsOf, Largest;
    var top := PotsOf(cs)[|PotsOf(cs)| - 1];
    if Claimed(hands, top) {
      var s :| s in hands && s in top.eligible;
      TopPotEligible(cs, s);
    }
    if i :| 0 <= i < |cs| && cs[i].eligible && cs[i].seat in hands && Largest(cs, i) {
      TopPotEligible(cs, cs[i].seat);
    }
  }

  /**
    A showdown pays out every contribution exactly when an evaluated seat that has not
    folded holds the largest contribution (or nobody contributed).
    */
  lemma NothingLostIff(hands: Hands, dealer: int, cs: seq<PotContributor>)
    requires ValidHands(hands) && 0 <= dealer < SEATS
    ensures PayoutTotal(hands, dealer, PotsOf(cs), SEATS) <= Contributed(cs)
    ensures PayoutTotal(hands, dealer, PotsOf(cs), SEATS) == Contributed(cs)
            <==> Contributed(cs) == 0 || TopIsLive(cs, hands)
  {
    var pots := PotsOf(cs);
    ExactSettlement(hands, dealer, pots);
    PotsHoldEverything(cs);
    forall k | 0 <= k < |pots| ensures pots[k].amount > 0 {
      CapIsReached(cs, k);
    }
    ClaimedAtMostAll(hands, pots);
    if pots != [] {
      AmountsArePositive(pots);
      TopPotClaimedIff(cs, hands);
      if Claimed(hands, pots[|pots| - 1]) {
        TopClaimedAllClaimed(cs, hands);
      }
    }
  }

  lemma {:induction false} AmountsArePositive(pots: seq<Pot>)
    requires forall k :: 0 <= k < |pots| ==> pots[k].amount > 0
    ensures AmountSum(pots) >= |pots|
  {
    if pots != [] { AmountsArePositive(pots[..|pots| - 1]); }
  }

  // ----- fairness -----

  ghost predicate NoRepeats(s: seq<int>) {
    forall i, j :: 0 <= i < j < |s| ==> s[i] != s[j]
  }

  lemma {:induction false} NotInOrderNoCredit(order: seq<int>, share: int, odd: int, s: int)
    requires s !in order
    ensures SplitCredit(order, share, odd, s) == 0
  {
    if order != [] {
      assert order[0] in order;
      NotInOrderNoCredit(order[1..], share, if odd > 0 then odd - 1 else 0, s);
    }
  }

  /** The k-th seat of the order gets the share, and an odd chip if k is among the first `odd`. */
  lemma {:induction false} OddChipsGoLeftOfDealer(order: seq<int>, share: int, odd: int, k: nat)
    requires NoRepeats(order) && k < |order|
    ensures SplitCredit(order, share, odd, order[k]) == share + if k < odd then 1 else 0
  {
    var rest := if odd > 0 then odd - 1 else 0;
    if k == 0 {
      NotInOrderNoCredit(order[1..], share, rest, order[0]);
    } else {
      OddChipsGoLeftOfDealer(order[1..], share, rest, k - 1);
    }
  }

  /** The seats of w met before s when going clockwise from the seat after the dealer. */
  ghost function SeatsBefore(dealer: int, w: set<int>, s: int): set<int> {
    set j | j in w && Distance(dealer, j) < Distance(dealer, s)
  }

  lemma {:induction false} LengthIsSize(a: seq<int>)
    requires NoRepeats(a)
    ensures |set s | s in a| == |a|
  {
    if a != [] {
      var init, last := a[..|a| - 1], a[|a| - 1];
      LengthIsSize(init);
      assert a == init + [last];
      assert (set s | s in a) == (set s | s in init) + {last};
      assert last !in init;
    }
  }

  lemma MembersOf(a: seq<int>, w: set<int>)
    requires NoRepeats(a) && forall s :: s in a <==> s in w
    ensures |w| == |a|
  {
    LengthIsSize(a);
    ghost var members := set s | s in a;
    forall s ensures s in members <==> s in w {
      assert s in a <==> s in w;
    }
    assert members == w;
  }

  lemma OrderHasNoRepeats(dealer: int, order: seq<int>)
    requires InDistanceOrder(dealer, order)
    ensures NoRepeats(order)
  {
    hide Distance;
  }

  lemma BeforeInOrder(dealer: int, order: seq<int>, w: set<int>, k: nat)
    requires InDistanceOrder(dealer, order) && k < |order| && forall s :: s in order <==> s in w
    ensures |SeatsBefore(dealer, w, order[k])| == k && |w| == |order|
  {
    hide Distance;
    OrderHasNoRepeats(dealer, order);
    MembersOf(order, w);
    forall s ensures s in SeatsBefore(dealer, w, order[k]) <==> s in order[..k] {
      if s in order {
        var i :| 0 <= i < |order| && order[i] == s;
        assert i < k ==> order[..k][i] == s;
      }
    }
    MembersOf(order[..k], SeatsBefore(dealer, w, order[k]));
  }

  /**
    What one layer gives a seat: nothing unless it is a winner; an equal share if it is one,
    and an odd chip if fewer winners sit before it than there are odd chips.
    */
  lemma PotCreditMeaning(hands: Hands, dealer: int, pot: Pot, s: int)
    requires ValidHands(hands) && 0 <= dealer < SEATS
    ensures var w := Winners(hands, pot.eligible);
      PotCredit(hands, dealer, pot, s) ==
        if s !in w then 0
        else pot.amount / |w| + if |SeatsBefore(dealer, w, s)| < pot.amount % |w| then 1 else 0
  {
    hide Compare, Distance, Clockwise, SplitCredit, SeatsBefore;
    var w := Winners(hands, pot.eligible);
    var order := Clockwise(dealer, w, 1);
    OrderIsTheWinners(hands, dealer, pot);
    if s in w {
      assert s in order;
      var k :| 0 <= k < |order| && order[k] == s;
      ClockwiseOrdered(dealer, w, 1);
      OrderHasNoRepeats(dealer, order);
      BeforeInOrder(dealer, order, w, k);
      OddChipsGoLeftOfDealer(order, pot.amount / |order|, pot.amount % |order|, k);
    } else if order != [] {
      NotInOrderNoCredit(order, pot.amount / |order|, pot.amount % |order|, s);
    }
  }

  lemma {:induction false} CreditNotNegative(order: seq<int>, share: int, odd: int, s: int)
    requires share >= 0
    ensures SplitCredit(order, share, odd, s) >= 0
  {
    if order != [] { CreditNotNegative(order[1..], share, if odd > 0 then odd - 1 else 0, s); }
  }

  lemma {:induction false} OnePartOfTotal(order: seq<int>, share: int, odd: int, s: int, n: nat)
    requires share >= 0
    ensures SplitTotal(order, share, odd, n) >= 0
    ensures 0 <= s < n ==> SplitCredit(order, share, odd, s) <= SplitTotal(order, share, odd, n)
  {
    if n > 0 {
      OnePartOfTotal(order, share, odd, s, n - 1);
      CreditNotNegative(order, share, odd, n - 1);
    }
  }

  /** No seat takes more than the pot out of it, and nobody who is not eligible takes anything. */
  lemma PotCreditBounds(hands: Hands, dealer: int, pot: Pot, s: int)
    requires ValidHands(hands) && 0 <= dealer < SEATS && pot.amount >= 0
    ensures 0 <= PotCredit(hands, dealer, pot, s) <= pot.amount
    ensures s !in pot.eligible ==> PotCredit(hands, dealer, pot, s) == 0
  {
    hide Clockwise, SplitCredit, SplitTotal;
    var w := Winners(hands, pot.eligible);
    var order := Clockwise(dealer, w, 1);
    OrderIsTheWinners(hands, dealer, pot);
    if order != [] {
      var share, odd := pot.amount / |order|, pot.amount % |order|;
      if s in order {
        assert forall i :: 0 <= i < |order| ==> order[i] in order;
        CreditNotNegative(order, share, odd, s);
        OnePartOfTotal(order, share, odd, s, SEATS);
        SplitPaysEverything(order, share, odd);
      } else {
        NotInOrderNoCredit(order, share, odd, s);
      }
    }
  }

  /** s holds a hand that beats every other evaluated hand. */
  ghost predicate StrictlyBest(hands: Hands, s: int) {
    s in hands && forall t :: t in hands && t != s ==> Compare(hands[t], hands[s]) < 0
  }

  lemma StrictlyBestTakesPot(hands: Hands, dealer: int, pot: Pot, s: int)
    requires ValidHands(hands) && 0 <= dealer < SEATS && pot.amount >= 0
    requires StrictlyBest(hands, s) && s in pot.eligible
    ensures PotCredit(hands, dealer, pot, s) == pot.amount
  {
    hide Clockwise, Distance;
    var w := Winners(hands, pot.eligible);
    CompareIsTotalPreorder(hands[s], hands[s], hands[s]);
    forall t ensures t in w <==> t == s {
      if t in hands && t != s {
        CompareIsTotalPreorder(hands[s], hands[t], hands[t]);
      }
    }
    OrderIsTheWinners(hands, dealer, pot);
    var order := Clockwise(dealer, w, 1);
    ClockwiseOrdered(dealer, w, 1);
    assert s in order;
    OnlyOne(dealer, order, s);
    assert SplitCredit([s], pot.amount / 1, pot.amount % 1, s) == pot.amount;
  }

  lemma OnlyOne(dealer: int, order: seq<int>, s: int)
    requires InDistanceOrder(dealer, order) && forall t :: t in order <==> t == s
    ensures order == [s]
  {
    DistanceOrderUnique(dealer, order, [s]);
  }

  lemma {:induction false} PayoutAtMostAmounts(hands: Hands, dealer: int, pots: seq<Pot>, s: int)
    requires ValidHands(hands) && 0 <= dealer < SEATS && forall k :: 0 <= k < |pots| ==> pots[k].amount >= 0
    ensures 0 <= Payout(hands, dealer, pots, s) <= AmountSum(pots)
    ensures (forall k :: 0 <= k < |pots| ==> s in pots[k].eligible) && StrictlyBest(hands, s)
            ==> Payout(hands, dealer, pots, s) == AmountSum(pots)
  {
    hide PotCredit, StrictlyBest, ValidHands;
    if pots != [] {
      var init, last := pots[..|pots| - 1], pots[|pots| - 1];
      assert forall k :: 0 <= k < |init| ==> init[k] == pots[k];
      PayoutAtMostAmounts(hands, dealer, init, s);
      PotCreditBounds(hands, dealer, last, s);
      if s in last.eligible && StrictlyBest(hands, s) {
        StrictlyBestTakesPot(hands, dealer, last, s);
      }
    }
  }

  /** Pots the seat is not eligible for add nothing. */
  lemma {:induction false} PayoutStopsAt(hands: Hands, dealer: int, pots: seq<Pot>, s: int, n: nat)
    requires ValidHands(hands) && 0 <= dealer < SEATS && n <= |pots|
    requires forall k :: n <= k < |pots| ==> pots[k].amount >= 0 && s !in pots[k].eligible
    ensures Payout(hands, dealer, pots, s) == Payout(hands, dealer, pots[..n], s)
  {
    hide PotCredit, ValidHands;
    if n < |pots| {
      var init := pots[..|pots| - 1];
      assert forall k :: 0 <= k < |init| ==> init[k] == pots[k];
      PayoutStopsAt(hands, dealer, init, s, n);
      PotCreditBounds(hands, dealer, pots[|pots| - 1], s);
      assert init[..n] == pots[..n];
    } else {
      assert pots[..n] == pots;
    }
  }

  ghost predicate DistinctSeats(cs: seq<PotContributor>) {
    forall i, j :: 0 <= i < j < |cs| ==> cs[i].seat != cs[j].seat
  }

  lemma EligibleUpTo(cs: seq<PotContributor>, i: nat, k: nat)
    requires DistinctSeats(cs) && i < |cs| && k < |PotsOf(cs)|
    ensures cs[i].seat in PotsOf(cs)[k].eligible <==> cs[i].eligible && Caps(cs)[k] <= cs[i].committed
  {
    hide Caps, EligibleAt, Reached;
    EligibleAtIff(cs, Caps(cs)[k], cs[i].seat);
  }

  /**
    Side-pot fairness: a seat is never paid more than the sum over the contributors of
    min(their contribution, its own), and a live seat with the strictly best hand is paid
    exactly that.
    */
  lemma SidePotFairness(hands: Hands, dealer: int, cs: seq<PotContributor>, i: nat)
    requires ValidHands(hands) && 0 <= dealer < SEATS && DistinctSeats(cs)
    requires i < |cs| && cs[i].committed > 0
    ensures 0 <= Payout(hands, dealer, PotsOf(cs), cs[i].seat) <= ClipSum(cs, cs[i].committed)
    ensures cs[i].eligible && StrictlyBest(hands, cs[i].seat)
            ==> Payout(hands, dealer, PotsOf(cs), cs[i].seat) == ClipSum(cs, cs[i].committed)
  {
    hide PotsOf, Caps, StrictlyBest, ValidHands, ClipSum, AmountSum, Payout;
    var pots, s := PotsOf(cs), cs[i].seat;
    var top := CapOf(cs, i);
    var n := top + 1;
    LayersSumToClip(cs, n);
    PotsMatchCaps(cs);
    forall k | 0 <= k < |pots|
      ensures pots[k].amount >= 0 && (s in pots[k].eligible <==> cs[i].eligible && k < n)
    {
      EligibleUpTo(cs, i, k);
    }
    PayoutStopsAt(hands, dealer, pots, s, n);
    PayoutAtMostAmounts(hands, dealer, pots[..n], s);
  }

  lemma PotsMatchCaps(cs: seq<PotContributor>)
    ensures |PotsOf(cs)| == |Caps(cs)| && Increasing(Caps(cs))
    ensures forall k :: 0 <= k < |PotsOf(cs)| ==> PotsOf(cs)[k].amount > 0
  {
    hide Caps, EligibleAt, Reached;
    forall k | 0 <= k < |PotsOf(cs)| ensures PotsOf(cs)[k].amount > 0 {
      CapIsReached(cs, k);
    }
  }
}
