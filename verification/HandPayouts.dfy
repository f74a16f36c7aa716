/**
  What each seat takes out of a hand: its stack and contribution together stay what it sat
  down with until the settlement, which adds exactly its winnings, and those are fair.
  */
module HandPayouts {
  import opened Common
  import opened HoldemTypes
  import opened HoldemEvaluator
  import opened PotManager
  import opened Settlement
  import opened TableState
  import opened HandRules
  import opened HandLedger
  import opened HandCards
  import opened HandPlay
  import opened HandStart
  import opened HandTheorems

  /** Nobody's stack and contribution together have changed. */
  ghost predicate Stakes(base: Table, t: Table) {
    && t.players.Keys == base.players.Keys
    && forall i :: i in t.players ==>
         t.players[i].chips + t.players[i].contribution == base.players[i].chips + base.players[i].contribution
  }

  /** What the settlement of a finished hand gives seat i. */
  ghost function Won(r: Table, i: int): int {
    if |InHand(r)| == 1 then (if i in InHand(r) then AmountSum(PotsOf(Contributors(r))) else 0)
    else Payout(ShowdownHands(r), r.dealer, PotsOf(Contributors(r)), i)
  }

  ghost predicate PaidStakes(base: Table, r: Table) {
    && r.players.Keys == base.players.Keys
    && forall i :: i in r.players ==>
         r.players[i].chips + r.players[i].contribution ==
         base.players[i].chips + base.players[i].contribution + Won(r, i)
  }

  ghost predicate StakeOutcome(base: Table, r: Table) {
    if r.round == HandOver then PaidStakes(base, r) else Stakes(base, r)
  }

  // ----- the settlement -----

  /** Chips do not enter into what a settlement pays. */
  lemma WonIgnoresChips(a: Table, b: Table, i: int)
    requires SameHand(a, b) && a.board == b.board
    requires forall j :: j in a.players ==>
      a.players[j].folded == b.players[j].folded && a.players[j].contribution == b.players[j].contribution
    ensures Won(a, i) == Won(b, i)
  {
    hide Payout, PotsOf, Best;
    InHandIgnoresChips(a, b);
    SameShowdown(a, b);
    ContributorsIgnoreChips(a.players, b.players, SEATS);
  }

  lemma SolePaid(t: Table, base: Table)
    requires |InHand(t)| == 1 && Stakes(base, t)
    ensures PaidStakes(base, FinishHand(t)) && FinishHand(t).round == HandOver
  {
    hide PotsOf, AmountSum, ContributorsBelow;
    var t0 := t.(pending := {}, active := -1);
    var r := FinishHand(t);
    InHandIgnoresChips(t, t0);
    InHandIgnoresChips(t0, r);
    ContributorsIgnoreChips(t0.players, r.players, SEATS);
  }

  lemma ContestedPaid(t: Table, base: Table)
    requires |InHand(t)| >= 2 && Stakes(base, t)
    ensures PaidStakes(base, FinishHand(t)) && FinishHand(t).round == HandOver
  {
    hide Payout, PotsOf, Contributors, ShowdownHands, InHand, FinishHand, Runout;
    RunoutSame(t);
    FinishIsPaidOut(t);
    var u := Runout(t.(pending := {}, active := -1));
    PaidOutMoves(u);
    ChipsMovedSame(u, PaidOut(u));
  }

  lemma FinishStakes(t: Table, base: Table)
    requires |InHand(t)| >= 1 && Stakes(base, t)
    ensures StakeOutcome(base, FinishHand(t))
  {
    hide FinishHand, PaidStakes, Stakes, InHand;
    if |InHand(t)| == 1 {
      SolePaid(t, base);
    } else {
      ContestedPaid(t, base);
    }
  }

  // ----- streets and turns -----

  lemma NextStreetStakes(t: Table, base: Table)
    requires Stakes(base, t)
    ensures Stakes(base, NextStreet(t)) && InHand(NextStreet(t)) == InHand(t)
    ensures NextStreet(t).round == Showdown || StreetsLeft(NextStreet(t).round) > 0
  {
    hide NextStreet;
    NextStreetTouches(t);
    InHandIgnoresChips(t, NextStreet(t));
  }

  /** Whose turn it is does not matter. */
  lemma TurnStakes(a: Table, b: Table, base: Table)
    requires Stakes(base, a)
    requires b == a.(pending := b.pending, active := b.active, round := b.round, lastActor := b.lastActor)
    ensures Stakes(base, b) && InHand(b) == InHand(a)
  {
    TurnChangesOnly(a, b);
  }

  lemma {:induction false} ProceedStakes(t: Table, base: Table)
    requires |InHand(t)| >= 1 && Stakes(base, t)
    ensures StakeOutcome(base, ProceedToNextStreet(t))
    decreases StreetsLeft(t.round), 0
  {
    hide Stakes, StakeOutcome, FinishHand, InHand, RequestTurn, Walk, NextStreet;
    var t1 := NextStreet(t);
    NextStreetGoesOn(t);
    NextStreetStakes(t, base);
    if t1.round == Showdown {
      FinishStakes(t1, base);
    } else {
      var t2 := InitPending(t1, ActiveOffset(t1, t1.dealer, 1));
      TurnStakes(t1, t2, base);
      RequestStakes(t2, base);
    }
  }

  lemma {:induction false} RequestStakes(t: Table, base: Table)
    requires |InHand(t)| >= 1 && Stakes(base, t) && StreetsLeft(t.round) > 0
    ensures StakeOutcome(base, RequestTurn(t))
    decreases StreetsLeft(t.round), 1
  {
    hide Stakes, PaidStakes, FinishHand, InHand, Actable, ProceedToNextStreet, NextActor;
    if |InHand(t)| <= 1 {
      FinishStakes(t, base);
    } else if Actable(t) == {} {
      var t1 := t.(round := Showdown);
      TurnStakes(t, t1, base);
      FinishStakes(t1, base);
    } else {
      var t1 := RemoveIneligible(t);
      var t2 := t1.(active := SeatToAsk(t1));
      TurnStakes(t, t2, base);
      if t2.active < 0 {
        ProceedStakes(t2, base);
      }
    }
  }

  // ----- actions -----

  lemma ApplyStakes(t: Table, seat: int, a: Action, base: Table)
    requires seat in t.players && Stakes(base, t)
    ensures Stakes(base, Apply(t, seat, a))
  {
    hide Actable;
  }

  lemma AdvanceStakes(t: Table, seat: int, base: Table)
    requires |InHand(t)| >= 1 && Stakes(base, t) && StreetsLeft(t.round) > 0
    ensures StakeOutcome(base, Advance(t, seat))
  {
    hide Stakes, StakeOutcome, FinishHand, InHand, RequestTurn, ProceedToNextStreet, NextActor;
    if |InHand(t)| <= 1 {
      FinishStakes(t, base);
    } else {
      var t1 := RemoveIneligible(t);
      TurnStakes(t, t1, base);
      if t1.pending == {} {
        ProceedStakes(t1, base);
      } else {
        var t2 := t1.(active := NextActor(t1, seat));
        TurnStakes(t1, t2, base);
        RequestStakes(t2, base);
      }
    }
  }

  lemma AcceptedStakes(t: Table, seat: int, a: Action, fromSocket: bool, base: Table)
    requires Live(t) && Accepts(t, seat, a, fromSocket) && Stakes(base, t)
    ensures StakeOutcome(base, Act(t, seat, a, fromSocket))
  {
    hide Ledger, Cards, Roster, Stakes, StakeOutcome, Advance, Apply, Actable, InHand;
    var t1 := t.(lastActor := seat);
    TurnStakes(t, t1, base);
    ApplyStakes(t1, seat, a, base);
    ActionKeepsTable(t1, seat, a);
    InHandAfter(t1, seat, a);
    SomebodyStays(InHand(t), seat);
    AdvanceStakes(Apply(t1, seat, a), seat, base);
  }

  lemma SomebodyStays(s: set<int>, x: int)
    requires |s| >= 2
    ensures |s - {x}| >= 1
  {
    if x in s {
      assert s == (s - {x}) + {x};
    } else {
      assert s - {x} == s;
    }
  }

  /** Who acted last does not matter. */
  lemma RejectedStakes(t: Table, r: Table, base: Table)
    requires StakeOutcome(base, t) && r == t.(lastActor := r.lastActor)
    ensures StakeOutcome(base, r)
  {
    hide Won;
    TurnChangesOnly(t, r);
    forall i ensures Won(r, i) == Won(t, i) {
      WonIgnoresChips(t, r, i);
    }
  }

  lemma StepStakes(base: Table, t: Table, e: Event, opening: Table)
    requires Outcome(opening, t) && StakeOutcome(base, t)
    ensures StakeOutcome(base, Step(t, e))
  {
    hide Outcome, Act, Accepts, StakeOutcome, Live;
    if Accepts(t, e.seat, e.action, e.fromSocket) {
      AcceptedOnlyLive(opening, t, e);
      LiveStakes(base, t);
      AcceptedStakes(t, e.seat, e.action, e.fromSocket, base);
    } else {
      RejectedActionChangesNothing(t, e.seat, e.action, e.fromSocket);
      RejectedStakes(t, Step(t, e), base);
    }
  }

  lemma LiveStakes(base: Table, t: Table)
    requires Live(t) && StakeOutcome(base, t)
    ensures Stakes(base, t)
  {
    hide Ledger, Cards, Roster, Stakes, PaidStakes;
  }

  lemma {:induction false} RunStakes(base: Table, t: Table, es: seq<Event>, opening: Table)
    requires Outcome(opening, t) && StakeOutcome(base, t)
    ensures StakeOutcome(base, Run(t, es))
    decreases |es|
  {
    hide Outcome, Step, StakeOutcome;
    if es != [] {
      StepStakes(base, t, es[0], opening);
      StepKeepsOutcome(opening, t, es[0]);
      RunStakes(base, Step(t, es[0]), es[1..], opening);
    }
  }

  // ----- from the start -----

  lemma BlindStakes(t: Table, i: int, amount: int, base: Table)
    requires Stakes(base, t)
    ensures Stakes(base, PostBlind(t, i, amount))
  {}

  lemma DealtStakes(t: Table, base: Table)
    requires Frame(t) && Stakes(base, t)
    ensures Stakes(base, DealHoleCards(t))
  {
    hide DealRound, DealOrder, AllCards;
    var to := DealOrder(t, SEATS);
    DealRoundMovesCards(t, to);
    DealRoundMovesCards(DealRound(t, to), to);
  }

  lemma PostedStakes(t: Table)
    requires Frame(t)
    ensures Stakes(t, PostAndDeal(t))
  {
    hide Walk, DealHoleCards, PostBlind;
    var sb, bb := ActiveOffset(t, t.dealer, 1), ActiveOffset(t, t.dealer, 2);
    var t0 := t.(sb := sb, bb := bb);
    BlindStakes(t0, sb, t.smallBlind, t);
    var t1 := PostBlind(t0, sb, t.smallBlind);
    BlindStakes(t1, bb, t.bigBlind, t);
    var t2 := PostBlind(t1, bb, t.bigBlind);
    BlindFrame(t0, sb, t.smallBlind);
    BlindFrame(t1, bb, t.bigBlind);
    DealtStakes(t2, t);
  }

  lemma BlindFrame(t: Table, i: int, amount: int)
    requires Frame(t)
    ensures Frame(PostBlind(t, i, amount)) && PostBlind(t, i, amount).bigBlind == t.bigBlind
  {}

  lemma OpeningStakes(t: Table, shuffled: seq<Card>)
    requires Ready(t) && Deals(t) && multiset(shuffled) == multiset(FullDeck())
    ensures var base := ResetHand(ApplyRebuys(EnsurePlayers(t)), shuffled);
      && Stakes(base, Opening(t, shuffled)) && InHand(Opening(t, shuffled)) != {}
      && StreetsLeft(Opening(t, shuffled).round) > 0
  {
    OpeningIsBetting(t, shuffled);
    hide Walk, FullDeck, PostAndDeal, Betting, InHand;
    var base := ResetHand(ApplyRebuys(EnsurePlayers(t)), shuffled);
    SeatedIsReady(t);
    PostedStakes(base);
    var u := PostAndDeal(base);
    TurnStakes(u, Opening(t, shuffled), base);
    BettingStreets(Opening(t, shuffled));
  }

  lemma ResetStakes(t: Table, shuffled: seq<Card>)
    ensures var base := ResetHand(ApplyRebuys(EnsurePlayers(t)), shuffled);
      && (forall i :: i in base.players <==> Taken(t, i))
      && forall i :: i in base.players ==> base.players[i].chips == SitsDownWith(t, i) && base.players[i].contribution == 0
  {
    WhoSitsDown(t);
    hide EnsurePlayers, ApplyRebuys, Taken, SitsDownWith;
  }

  /**
    Seat by seat: while a hand runs each stack and contribution together are what the seat sat
    down with, rebuy included, and when it is over the winnings are added, nothing else.
    */
  lemma StacksOfHand(t: Table, shuffled: seq<Card>, es: seq<Event>)
    requires Ready(t) && Deals(t) && multiset(shuffled) == multiset(FullDeck())
    ensures var r := Run(StartHand(t, shuffled), es);
      && (forall i :: i in r.players <==> Taken(t, i))
      && forall i :: i in r.players ==>
           r.players[i].chips + r.players[i].contribution ==
           SitsDownWith(t, i) + if r.round == HandOver then Won(r, i) else 0
  {
    var base := ResetHand(ApplyRebuys(EnsurePlayers(t)), shuffled);
    ResetStakes(t, shuffled);
    OpeningStakes(t, shuffled);
    StartOutcome(t, shuffled);
    hide Opening, FullDeck, ResetHand, EnsurePlayers, ApplyRebuys, Outcome, Won, InHand, Taken, SitsDownWith;
    StartIsRequested(t, shuffled);
    RequestStakes(Opening(t, shuffled), base);
    hide StartHand, RequestTurn;
    RunStakes(base, StartHand(t, shuffled), es, Opening(t, shuffled));
  }

  // ----- fairness -----

  lemma {:induction false} ContributorsDistinct(ps: Players, n: nat)
    ensures DistinctSeats(ContributorsBelow(ps, n))
  {
    if n > 0 {
      ContributorsDistinct(ps, n - 1);
      var before := ContributorsBelow(ps, n - 1);
      forall k | 0 <= k < |before| ensures before[k].seat < n - 1 {
        ContributorIsPlayer(ps, n - 1, k);
      }
    }
  }

  lemma {:induction false} NothingBelowZero(cs: seq<PotContributor>)
    requires forall k :: 0 <= k < |cs| ==> cs[k].committed > 0
    ensures ClipSum(cs, 0) == 0
  {
    if cs != [] {
      NothingBelowZero(cs[..|cs| - 1]);
    }
  }

  /** A seat that put nothing in takes nothing out. */
  lemma {:induction false} OutsiderTakesNothing(hands: Hands, dealer: int, pots: seq<Pot>, s: int)
    requires ValidHands(hands) && 0 <= dealer < SEATS
    requires forall k :: 0 <= k < |pots| ==> pots[k].amount >= 0 && s !in pots[k].eligible
    ensures Payout(hands, dealer, pots, s) == 0
  {
    hide ValidHands, PotCredit;
    if pots != [] {
      OutsiderTakesNothing(hands, dealer, pots[..|pots| - 1], s);
      PotCreditBounds(hands, dealer, pots[|pots| - 1], s);
    }
  }

  lemma OutsiderNotEligible(cs: seq<PotContributor>, s: int)
    requires forall k :: 0 <= k < |cs| ==> cs[k].seat != s
    ensures forall k :: 0 <= k < |PotsOf(cs)| ==> PotsOf(cs)[k].amount >= 0 && s !in PotsOf(cs)[k].eligible
  {
    hide Caps, Reached;
    PotsMatchCaps(cs);
    forall k | 0 <= k < |PotsOf(cs)| ensures s !in PotsOf(cs)[k].eligible {
      EligibleAtIff(cs, Caps(cs)[k], s);
    }
  }

  /** The bounds for one table whose hand is over and was contested. */
  lemma WonIsFair(r: Table, i: int)
    requires Frame(r) && |InHand(r)| >= 2 && i in r.players && r.players[i].contribution >= 0
    ensures 0 <= Won(r, i) <= ClipSum(Contributors(r), r.players[i].contribution)
    ensures i in InHand(r) && StrictlyBest(ShowdownHands(r), i) ==>
      Won(r, i) == ClipSum(Contributors(r), r.players[i].contribution)
  {
    hide Payout, PotsOf, ContributorsBelow, ValidHands, ClipSum, ShowdownHands, StrictlyBest;
    var cs := Contributors(r);
    HandsAreValid(r);
    ContributorsDistinct(r.players, SEATS);
    if r.players[i].contribution > 0 {
      var k := ContributorListed(r.players, SEATS, i);
      SidePotFairness(ShowdownHands(r), r.dealer, cs, k);
    } else {
      forall k | 0 <= k < |cs| ensures cs[k].seat != i && cs[k].committed > 0 {
        ContributorIsPlayer(r.players, SEATS, k);
      }
      NothingBelowZero(cs);
      OutsiderNotEligible(cs, i);
      OutsiderTakesNothing(ShowdownHands(r), r.dealer, PotsOf(cs), i);
    }
  }

  /**
    Every contested hand is fair to every stack: a seat ends with what it sat down with less its
    contribution, plus at most the sum over the contributors of min(their contribution, its
    own), and exactly that when it is still in and has the strictly best hand.
    */
  lemma StacksAreFair(t: Table, shuffled: seq<Card>, es: seq<Event>, i: int)
    requires Ready(t) && Deals(t) && multiset(shuffled) == multiset(FullDeck())
    requires var r := Run(StartHand(t, shuffled), es); r.round == HandOver && |InHand(r)| >= 2 && i in r.players
    ensures var r := Run(StartHand(t, shuffled), es);
      && Taken(t, i)
      && var left := SitsDownWith(t, i) - r.players[i].contribution;
      && left <= r.players[i].chips <= left + ClipSum(Contributors(r), r.players[i].contribution)
      && (i in InHand(r) && StrictlyBest(ShowdownHands(r), i) ==>
            r.players[i].chips == left + ClipSum(Contributors(r), r.players[i].contribution))
  {
    var r := Run(StartHand(t, shuffled), es);
    HandInvariant(t, shuffled, es);
    StacksOfHand(t, shuffled, es);
    hide Opening, StartHand, Run, FullDeck, Taken, SitsDownWith, Won, Unclaimed, AllCards, InHand, ClipSum, StrictlyBest;
    WonIsFair(r, i);
  }
}
