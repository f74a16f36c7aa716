/**
  What a finished hand has paid, told by the fields of the finished table: layer by layer, who
  reached it, who of them has the best hand by its own cards and the board, and each one's part.
  */
module HandWinnings {
  import opened Common
  import opened HoldemTypes
  import opened HoldemEvaluator
  import opened PotManager
  import opened Settlement
  import opened TableState
  import opened HandRules
  import opened HandLedger
  import opened HandCards
  import opened HandPlay
  import opened HandStart
  import opened HandTheorems
  import opened HandPayouts
  import opened HandTurns

  /** Still in, and having put in at least c. */
  ghost function Reaching(r: Table, c: int): set<int> {
    set i | i in r.players && !r.players[i].folded && r.players[i].contribution >= c
  }

  /** The best five of a seat's cards and the board. */
  function HandOf(r: Table, i: int): HandEval
    requires i in r.players
  {
    Best(r.players[i].hand + r.board)
  }

  /** Those of the seats reaching c that no other of them beats. */
  ghost function BestAt(r: Table, c: int): set<int> {
    set i | i in Reaching(r, c) && forall j :: j in Reaching(r, c) ==> Compare(HandOf(r, j), HandOf(r, i)) <= 0
  }

  /** A part of an amount shared by w, odd chips going clockwise from the seat after the dealer. */
  ghost function PartOf(amount: int, dealer: int, w: set<int>, i: int): int {
    if i !in w then 0
    else amount / |w| + if |SeatsBefore(dealer, w, i)| < amount % |w| then 1 else 0
  }

  /** Seat i's parts of the layers. */
  ghost function PartsOf(r: Table, pots: seq<Pot>, i: int): int {
    if pots == [] then 0
    else
      var last := pots[|pots| - 1];
      PartsOf(r, pots[..|pots| - 1], i) + PartOf(last.amount, r.dealer, BestAt(r, last.cap), i)
  }

  /** The sum of min(contribution, x) over the seats below n. */
  function MatchedUpTo(ps: Players, x: int, n: nat): int {
    if n == 0 then 0
    else MatchedUpTo(ps, x, n - 1) + if n - 1 in ps then Max(0, Min(ps[n - 1].contribution, x)) else 0
  }

  // ----- eligible and best -----

  lemma EligibleReaches(r: Table, cap: int, i: int)
    requires Frame(r) && cap > 0
    ensures i in EligibleAt(Contributors(r), cap) <==> i in Reaching(r, cap)
  {
    var cs := Contributors(r);
    EligibleAtIff(cs, cap, i);
    hide EligibleAt, ContributorsBelow;
    if k :| 0 <= k < |cs| && cs[k].seat == i && cs[k].committed >= cap && cs[k].eligible {
      ContributorIsPlayer(r.players, SEATS, k);
    }
    if i in Reaching(r, cap) {
      var k := ContributorListed(r.players, SEATS, i);
    }
  }

  lemma ReachingPlays(r: Table, c: int)
    ensures forall i :: i in Reaching(r, c) ==> i in r.players && !r.players[i].folded
  {}

  lemma ShownIsHand(r: Table, i: int)
    requires Roster(r)
    ensures i in ShowdownHands(r) <==> i in r.players && !r.players[i].folded
    ensures i in ShowdownHands(r) ==> ShowdownHands(r)[i] == HandOf(r, i)
  {
    hide Best;
  }

  /** The winners of a layer, by the fields of the table. */
  lemma WinnersAreBest(r: Table, pot: Pot)
    requires Frame(r) && Roster(r) && forall i :: i in pot.eligible <==> i in Reaching(r, pot.cap)
    ensures Winners(ShowdownHands(r), pot.eligible) == BestAt(r, pot.cap)
  {
    hide Best, Compare, ShowdownHands, Roster, HandOf, Reaching;
    ReachingPlays(r, pot.cap);
    var hands := ShowdownHands(r);
    forall i | i in r.players
      ensures i in hands <==> !r.players[i].folded
      ensures i in hands ==> hands[i] == HandOf(r, i)
    {
      ShownIsHand(r, i);
    }
    forall i ensures i in hands && i in pot.eligible <==> i in Reaching(r, pot.cap) {
      ShownIsHand(r, i);
    }
    forall i ensures i in Winners(hands, pot.eligible) <==> i in BestAt(r, pot.cap) {
      ShownIsHand(r, i);
    }
  }

  ghost predicate LayersOf(r: Table, pots: seq<Pot>) {
    forall k :: 0 <= k < |pots| ==> forall i :: i in pots[k].eligible <==> i in Reaching(r, pots[k].cap)
  }

  lemma PotsAreLayers(r: Table)
    requires Frame(r)
    ensures LayersOf(r, PotsOf(Contributors(r)))
  {
    var cs := Contributors(r);
    hide EligibleAt, Reached, Caps, ContributorsBelow, Reaching;
    forall k | 0 <= k < |PotsOf(cs)|
      ensures forall i :: i in PotsOf(cs)[k].eligible <==> i in Reaching(r, PotsOf(cs)[k].cap)
    {
      CapIsReached(cs, k);
      forall i ensures i in PotsOf(cs)[k].eligible <==> i in Reaching(r, PotsOf(cs)[k].cap) {
        EligibleReaches(r, Caps(cs)[k], i);
      }
    }
  }

  lemma {:induction false} PayoutIsParts(r: Table, pots: seq<Pot>, i: int)
    requires Frame(r) && Roster(r) && LayersOf(r, pots)
    ensures Payout(ShowdownHands(r), r.dealer, pots, i) == PartsOf(r, pots, i)
  {
    hide PotCredit, ShowdownHands, BestAt, Roster, Winners, Reaching, SeatsBefore;
    if pots != [] {
      var init, last := pots[..|pots| - 1], pots[|pots| - 1];
      assert forall k :: 0 <= k < |init| ==> init[k] == pots[k];
      PayoutIsParts(r, init, i);
      WinnersAreBest(r, last);
      HandsAreValid(r);
      PotCreditMeaning(ShowdownHands(r), r.dealer, last, i);
    }
  }

  // ----- what a seat has won -----

  /** A sole seat left wins all contributions; otherwise each seat its parts of the layers. */
  ghost function Takes(r: Table, i: int): int {
    if |Staying(r)| == 1 then (if i in Staying(r) then Total(r.players, Contribution, SEATS) else 0)
    else PartsOf(r, PotsOf(Contributors(r)), i)
  }

  lemma WonIsTaken(r: Table, i: int)
    requires Frame(r) && Roster(r) && forall j :: j in r.players ==> r.players[j].contribution >= 0
    ensures Won(r, i) == Takes(r, i)
  {
    RosterMeans(r);
    hide InHand, Staying, Roster, Payout, PotsOf, ContributorsBelow, PartsOf, ShowdownHands, AmountSum;
    if |Staying(r)| == 1 {
      ContributorsHoldContributions(r.players, SEATS);
      PotsHoldEverything(Contributors(r));
    } else {
      PotsAreLayers(r);
      PayoutIsParts(r, PotsOf(Contributors(r)), i);
    }
  }

  /** Whoever is unfolded at the end was dealt in, and has not left. */
  lemma RosterStays(base: Table, r: Table)
    requires Roster(base) && SameHand(base, r)
    ensures Roster(r)
  {
    forall i | i in r.players && !r.players[i].folded ensures InHandSeat(r, i) {
      assert InHandSeat(base, i);
    }
  }

  lemma FinalTable(t: Table, shuffled: seq<Card>, es: seq<Event>)
    requires Ready(t) && Deals(t) && multiset(shuffled) == multiset(FullDeck())
    ensures var r := Run(StartHand(t, shuffled), es);
      Frame(r) && Roster(r) && forall i :: i in r.players ==> r.players[i].contribution >= 0
  {
    HandInvariant(t, shuffled, es);
    OpeningIsBetting(t, shuffled);
    hide Opening, StartHand, Run, FullDeck, Cards, AllCards, Unclaimed, Total, Bank;
    RosterStays(Opening(t, shuffled), Run(StartHand(t, shuffled), es));
  }

  /**
    Every finished hand, seat by seat: the final stack is what the seat sat down with, less what
    it put in, plus all contributions if it is the only one left, or its parts of the layers.
    */
  lemma FinalStacks(t: Table, shuffled: seq<Card>, es: seq<Event>, i: int)
    requires Ready(t) && Deals(t) && multiset(shuffled) == multiset(FullDeck())
    requires var r := Run(StartHand(t, shuffled), es); r.round == HandOver && i in r.players
    ensures var r := Run(StartHand(t, shuffled), es);
      r.players[i].chips == SitsDownWith(t, i) - r.players[i].contribution + Takes(r, i)
  {
    StacksOfHand(t, shuffled, es);
    FinalTable(t, shuffled, es);
    hide StartHand, Run, FullDeck, Won, Takes, Roster, SitsDownWith, Taken;
    WonIsTaken(Run(StartHand(t, shuffled), es), i);
  }

  // ----- fairness, told by fields -----

  lemma {:induction false} ClipIsMatched(ps: Players, x: int, n: nat)
    requires forall i :: i in ps ==> ps[i].contribution >= 0
    ensures ClipSum(ContributorsBelow(ps, n), x) == MatchedUpTo(ps, x, n)
  {
    if n > 0 {
      ClipIsMatched(ps, x, n - 1);
      var init := ContributorsBelow(ps, n - 1);
      if n - 1 in ps && ps[n - 1].contribution > 0 {
        var c := PotContributor(n - 1, ps[n - 1].contribution, !ps[n - 1].folded);
        assert (init + [c])[..|init|] == init;
        assert ClipSum(init + [c], x) == ClipSum(init, x) + Clip(c.committed, x);
      } else {
        assert init + [] == init;
      }
    }
  }

  /** Still in, and beating everybody else who is. */
  ghost predicate BeatsAll(r: Table, i: int) {
    && i in r.players && !r.players[i].folded
    && forall j :: j in r.players && !r.players[j].folded && j != i ==> Compare(HandOf(r, j), HandOf(r, i)) < 0
  }

  lemma BeatsAllIsStrictlyBest(r: Table, i: int)
    requires Roster(r) && BeatsAll(r, i)
    ensures i in InHand(r) && StrictlyBest(ShowdownHands(r), i)
  {
    RosterMeans(r);
    hide Compare, HandOf, ShowdownHands, Roster, InHand;
    forall j ensures (j in ShowdownHands(r) <==> j in r.players && !r.players[j].folded)
                     && (j in ShowdownHands(r) ==> ShowdownHands(r)[j] == HandOf(r, j)) {
      ShownIsHand(r, j);
    }
  }

  /**
    Every contested hand is fair to every stack: a seat takes at most the sum over all seats of
    min(their contribution, its own), and exactly that if it is still in and beats everybody
    else who is.
    */
  lemma FairStacks(t: Table, shuffled: seq<Card>, es: seq<Event>, i: int)
    requires Ready(t) && Deals(t) && multiset(shuffled) == multiset(FullDeck())
    requires var r := Run(StartHand(t, shuffled), es); r.round == HandOver && |Staying(r)| >= 2 && i in r.players
    ensures var r := Run(StartHand(t, shuffled), es);
      var left, most := SitsDownWith(t, i) - r.players[i].contribution, MatchedUpTo(r.players, r.players[i].contribution, SEATS);
      && left <= r.players[i].chips <= left + most
      && (BeatsAll(r, i) ==> r.players[i].chips == left + most)
  {
    FinalTable(t, shuffled, es);
    var r := Run(StartHand(t, shuffled), es);
    RosterMeans(r);
    hide StartHand, Run, FullDeck, Roster, SitsDownWith, Taken, InHand, Staying, ShowdownHands, ClipSum, BeatsAll, StrictlyBest;
    StacksAreFair(t, shuffled, es, i);
    ClipIsMatched(r.players, r.players[i].contribution, SEATS);
    if BeatsAll(r, i) {
      BeatsAllIsStrictlyBest(r, i);
    }
  }

  // ----- conservation, told by fields -----

  lemma CoversByFields(r: Table)
    requires Roster(r)
    ensures LiveSeatCovers(r) <==>
      exists i :: i in Staying(r) && forall j :: j in r.players ==> r.players[j].contribution <= r.players[i].contribution
  {
    RosterMeans(r);
    hide InHand, Roster;
    if LiveSeatCovers(r) {
      var i :| i in InHand(r) && Covers(r, i);
      assert i in Staying(r);
    }
    if i :| i in Staying(r) && forall j :: j in r.players ==> r.players[j].contribution <= r.players[i].contribution {
      assert i in InHand(r) && Covers(r, i);
    }
  }

  /**
    Every finished hand: the stacks hold all the chips that sat down exactly when one seat is
    left, or a seat still in has put in at least as much as everybody else.
    */
  lemma AllChipsPaidIff(t: Table, shuffled: seq<Card>, es: seq<Event>)
    requires Ready(t) && Deals(t) && multiset(shuffled) == multiset(FullDeck())
    requires Run(StartHand(t, shuffled), es).round == HandOver
    ensures var r := Run(StartHand(t, shuffled), es);
      Total(r.players, Chips, SEATS) == StartingChips(t) <==>
        || |Staying(r)| == 1
        || exists i :: i in Staying(r) && forall j :: j in r.players ==> r.players[j].contribution <= r.players[i].contribution
  {
    FinalTable(t, shuffled, es);
    SettledConservation(t, shuffled, es);
    var r := Run(StartHand(t, shuffled), es);
    RosterMeans(r);
    CoversByFields(r);
    hide StartHand, Run, FullDeck, Roster, InHand, Staying, LiveSeatCovers, Total, Unclaimed, StartingChips;
  }
}
