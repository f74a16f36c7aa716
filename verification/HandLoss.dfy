/**
  Where full-chip conservation fails: a seat that covers everybody and is the only one
  with chips left is still asked to act, and may fold.  Its uncalled bet is then a pot
  layer nobody can claim, and finish_hand pays it to nobody.
  */
module HandLoss {
  import opened Common
  import opened HoldemTypes
  import opened HoldemEvaluator
  import opened PotManager
  import opened Settlement
  import opened TableState
  import opened HandRules
  import opened HandLedger
  import opened HandCards
  import opened HandPlay
  import opened HandStart
  import opened HandTheorems
  import opened HandExamples

  /** u is t with some streets dealt and bets cleared. */
  ghost predicate SameStacks(t: Table, u: Table) {
    && SameHand(t, u) && Bank(u) == Bank(t)
    && forall i :: i in t.players ==>
         && u.players[i].chips == t.players[i].chips && u.players[i].folded == t.players[i].folded
         && u.players[i].contribution == t.players[i].contribution
  }

  /** With nobody left to act, the remaining streets run straight into settlement. */
  lemma {:induction false} NobodyActs(t: Table) returns (u: Table)
    requires Betting(t) && Actable(t) == {} && |InHand(t)| >= 2
    ensures ProceedToNextStreet(t) == FinishHand(u) && SameStacks(t, u)
    ensures Frame(u) && Ledger(u) && InHand(u) == InHand(t)
    decreases StreetsLeft(t.round)
  {
    hide Ledger, Cards, FinishHand, Walk, Bank;
    var t1 := NextStreet(t);
    var start := ActiveOffset(t1, t1.dealer, 1);
    NextStreetGoesOn(t);
    NextStreetKeepsBetting(t, start);
    NextStreetKeepsLedger(t);
    var t2 := InitPending(t1, start);
    TurnChangesOnly(t1, t2);
    SameHandTrans(t, t1, t2);
    if t1.round == Showdown {
      u := t1;
    } else {
      assert Actable(t2) == {} by {
        forall i ensures i !in Actable(t2) {
          assert i in InHand(t2) ==> i !in Actable(t);
        }
      }
      u := t2.(round := Showdown);
      TurnChangesOnly(t2, u);
      LedgerIgnoresTurn(t2, u);
      SameHandTrans(t, t2, u);
    }
  }

  lemma FinishKeepsContributions(t: Table)
    requires Frame(t) && Ledger(t) && |InHand(t)| >= 2
    ensures FinishHand(t).players.Keys == t.players.Keys
    ensures forall i :: i in t.players ==> FinishHand(t).players[i].contribution == t.players[i].contribution
  {
    hide Payout, PotsOf, Best;
    FinishIsPaidOut(t);
    var t0 := t.(pending := {}, active := -1);
    DealCommunityKeepsRound(t0, if |t0.board| < 5 then 5 - |t0.board| else 0);
  }

  /** The only seat with chips has put in more than any other seat, and two others are all-in. */
  ghost predicate LoneCover(t: Table, seat: int) {
    && Live(t) && seat == t.active && Actable(t) == {seat} && |InHand(t)| >= 3
    && forall j :: j in t.players && j != seat ==> t.players[j].contribution < t.players[seat].contribution
  }

  /** If that seat folds, the hand ends with fewer chips than it had. */
  lemma CoveringFoldLosesChips(t: Table, seat: int)
    requires LoneCover(t, seat)
    ensures Accepts(t, seat, Fold, false)
    ensures Act(t, seat, Fold, false).round == HandOver
    ensures Total(Act(t, seat, Fold, false).players, Chips, SEATS) < Bank(t)
  {
    hide Act, Accepts, Ledger, Cards, Bank, FinishHand, ProceedToNextStreet, InHand, Actable, Unclaimed, Total, LoneCover;
    var t2 := CoverFolds(t, seat);
    var u := NobodyActs(t2);
    FinishIsOver(u);
    ShowdownPaysClaimedPots(u);
    FinishKeepsContributions(u);
    LossBySettlement(t, seat, u);
  }

  /** The fold leaves at least two seats in the hand and nobody to act. */
  lemma CoverFolds(t: Table, seat: int) returns (u: Table)
    requires LoneCover(t, seat)
    ensures Accepts(t, seat, Fold, false) && Act(t, seat, Fold, false) == ProceedToNextStreet(u)
    ensures Betting(u) && Actable(u) == {} && |InHand(u)| >= 2 && seat !in InHand(u) && Bank(u) == Bank(t)
    ensures u.players.Keys == t.players.Keys
    ensures forall i :: i in t.players ==> u.players[i].contribution == t.players[i].contribution
  {
    hide Ledger, Cards, Bank, FinishHand, ProceedToNextStreet, Apply, Total;
    var t1 := t.(lastActor := seat);
    TurnChangesOnly(t, t1);
    LedgerIgnoresTurn(t, t1);
    CardsIgnoreTurn(t, t1);
    ActionKeepsBetting(t1, seat, Fold);
    InHandAfter(t1, seat, Fold);
    u := Apply(t1, seat, Fold);
    FoldedKeepsContributions(t1, seat);
    PruningChangesNothing(u);
    NobodyElseActs(t, seat);
  }

  lemma NobodyElseActs(t: Table, seat: int)
    requires seat in t.players && Actable(t) == {seat}
    ensures Actable(Apply(t.(lastActor := seat), seat, Fold)) == {}
  {
    var u := Apply(t.(lastActor := seat), seat, Fold);
    forall i ensures i !in Actable(u) {
      assert i in Actable(t) <==> i == seat;
    }
  }

  lemma FoldedKeepsContributions(t: Table, seat: int)
    requires seat in t.players
    ensures var t1 := Apply(t, seat, Fold);
            t1.players.Keys == t.players.Keys && t1.players[seat].folded
            && forall i :: i in t.players ==> t1.players[i].contribution == t.players[i].contribution
  {}

  lemma LossBySettlement(t: Table, seat: int, u: Table)
    requires LoneCover(t, seat) && Frame(u) && Ledger(u) && |InHand(u)| >= 2 && seat !in InHand(u)
    requires u.players.Keys == t.players.Keys && Bank(u) == Bank(t)
    requires forall i :: i in t.players ==> u.players[i].contribution == t.players[i].contribution
    requires FinishHand(u).players.Keys == u.players.Keys && InHand(FinishHand(u)) == InHand(u)
    requires forall i :: i in u.players ==> FinishHand(u).players[i].contribution == u.players[i].contribution
    requires Settled(FinishHand(u), Bank(u)) && Frame(FinishHand(u))
    ensures Total(FinishHand(u).players, Chips, SEATS) < Bank(t)
  {
    hide FinishHand, Unclaimed, Cards, Bank;
    var r := FinishHand(u);
    SomethingContributed(u, seat);
    ContributionsGrow(u.players, r.players, SEATS);
    UnclaimedIff(r);
    assert !LiveSeatCovers(r) by {
      forall i | i in InHand(r) ensures !Covers(r, i) {
        assert r.players[i].contribution < r.players[seat].contribution;
      }
    }
  }

  lemma SomethingContributed(t: Table, seat: int)
    requires Frame(t) && Ledger(t) && seat in t.players && t.players[seat].contribution > 0
    ensures Total(t.players, Contribution, SEATS) > 0
  {
    TotalNotNegative(t.players, Contribution, SEATS);
  }

  // ----- before the settlement -----

  /**
    finish_hand keeps every chip exactly when one seat is left or a seat still in the hand
    has contributed at least as much as everybody else: decided on the table it is given.
    */
  lemma FinishConservesIff(t: Table)
    requires Frame(t) && Ledger(t) && |InHand(t)| >= 1 && t.pot > 0
    ensures Total(FinishHand(t).players, Chips, SEATS) == Bank(t) <==> |InHand(t)| == 1 || LiveSeatCovers(t)
  {
    hide FinishHand, Total, Unclaimed, LiveSeatCovers;
    var r := FinishHand(t);
    if |InHand(t)| == 1 {
      SoleWinnerTakesAll(t);
      NobodyUnclaimed(r);
    } else {
      ShowdownPaysClaimedPots(t);
      FinishKeepsContributions(t);
      ContributionsGrow(t.players, r.players, SEATS);
      UnclaimedIff(r);
      CoversSame(t, r);
    }
  }

  lemma NobodyUnclaimed(t: Table)
    requires |InHand(t)| == 1
    ensures Unclaimed(t) == 0
  {}

  lemma CoversSame(a: Table, b: Table)
    requires a.players.Keys == b.players.Keys && InHand(a) == InHand(b)
    requires forall i :: i in a.players ==> b.players[i].contribution == a.players[i].contribution
    ensures LiveSeatCovers(a) <==> LiveSeatCovers(b)
  {
    forall i | i in InHand(a) ensures Covers(a, i) <==> Covers(b, i) {
    }
  }

  // ----- a hand that loses chips, from its start -----

  /** Three seats with 1000, 50 and 100 chips before a hand with blinds 50 and 100. */
  function ShortTable(): Table { ThreeSeats(1000, 50, 100) }

  /** The three seats in the hand: the blinds all-in, seat 0 with the given stack and contribution. */
  ghost predicate BlindsAllIn(t: Table, chips: int, put: int) {
    && ThreePlay(t)
    && t.players[0].chips == chips && t.players[0].contribution == put
    && t.players[1].chips == 0 && t.players[1].contribution == 50
    && t.players[2].chips == 0 && t.players[2].contribution == 100
  }

  lemma WhoPlays(t: Table, chips: int, put: int)
    requires BlindsAllIn(t, chips, put) && chips > 0
    ensures InHand(t) == {0, 1, 2} && Actable(t) == {0}
    ensures forall i :: Eligible(t, i) <==> i == 0
  {
    forall i ensures i in InHand(t) <==> i in {0, 1, 2} {
    }
    forall i ensures i in Actable(t) <==> i == 0 {
    }
  }

  /** With seat 0 alone eligible, it is the first met from itself. */
  lemma RoundToSelf(t: Table)
    requires t.dealer == 0 && forall i :: Eligible(t, i) <==> i == 0
    ensures ActiveOffset(t, 0, 1) == 0
  {
    hide Eligible;
    assert Ahead(0, SEATS) == 0;
    forall l | 1 <= l < SEATS ensures !Eligible(t, Ahead(0, l)) {
      assert Ahead(0, l) == l;
    }
    WalkToFirst(t, 0, 1, 30, SEATS);
  }

  /** The blinds put both short seats all-in. */
  lemma ShortOpening(shuffled: seq<Card>)
    ensures var u := Opening(ShortTable(), shuffled);
      && BlindsAllIn(u, 1000, 0) && u.round == PreFlop && u.active == 0 && u.pending == {0}
      && u.currentMaxBet == 100 && u.minRaise == 100 && u.players[0].currentBet == 0
  {
    hide Opening;
    ThreeOpening(1000, 50, 100, shuffled);
    WhoPlays(Opening(ShortTable(), shuffled), 1000, 0);
  }

  // ----- its two actions -----

  lemma ShortRaise(u: Table)
    requires BlindsAllIn(u, 1000, 0) && u.round == PreFlop && u.active == 0 && u.pending == {0}
    requires u.currentMaxBet == 100 && u.minRaise == 100 && u.players[0].currentBet == 0
    ensures Accepts(u, 0, Raise(100), false)
    ensures var v := Apply(u.(lastActor := 0), 0, Raise(100));
      BlindsAllIn(v, 800, 200) && v.round == PreFlop && v.pending == {}
  {
    hide Signed, Actable;
    SignedIs(200);
    assert u.active in u.pending;
    var paid := PlaceBet(u.(lastActor := 0), 0, 200).(currentMaxBet := 200, minRaise := 100);
    ShortPaid(u.(lastActor := 0));
    WhoPlays(paid, 800, 200);
  }

  lemma ShortPaid(t: Table)
    requires BlindsAllIn(t, 1000, 0) && t.players[0].currentBet == 0
    ensures var paid := PlaceBet(t, 0, 200);
      BlindsAllIn(paid.(currentMaxBet := 200, minRaise := 100), 800, 200) && paid.players[0].currentBet == 200
  {}

  /** Nobody else can act, so the street is over, and seat 0 is asked again on the flop. */
  lemma ShortFlop(v: Table)
    requires BlindsAllIn(v, 800, 200) && v.round == PreFlop && v.pending == {}
    ensures var w := ProceedToNextStreet(v);
      BlindsAllIn(w, 800, 200) && w.round == Flop && w.active == 0 && w.pending == {0}
  {
    hide BlindsAllIn, Eligible, NextStreet, InHand, Actable, Walk, RequestTurn;
    var t1 := NextStreet(v);
    ShortNext(v);
    WhoPlays(t1, 800, 200);
    RoundToSelf(t1);
    var w := InitPending(t1, 0);
    ShortAsked(t1);
    WhoPlays(w, 800, 200);
    AskedStays(w);
  }

  lemma ShortNext(v: Table)
    requires BlindsAllIn(v, 800, 200) && v.round == PreFlop
    ensures BlindsAllIn(NextStreet(v), 800, 200) && NextStreet(v).round == Flop && NextStreet(v).dealer == 0
  {
    hide DealCommunity;
    DealCommunityKeepsRound(v.(players := ClearBets(v.players), currentMaxBet := 0, round := Flop), 3);
  }

  lemma ShortAsked(t: Table)
    requires BlindsAllIn(t, 800, 200)
    ensures BlindsAllIn(InitPending(t, 0), 800, 200)
  {}

  lemma ShortAdvance(u: Table)
    requires BlindsAllIn(u, 1000, 0) && u.round == PreFlop && u.active == 0 && u.pending == {0}
    requires u.currentMaxBet == 100 && u.minRaise == 100 && u.players[0].currentBet == 0
    ensures var w := Act(u, 0, Raise(100), false);
      BlindsAllIn(w, 800, 200) && w.round == Flop && w.active == 0 && w.pending == {0}
  {
    hide ProceedToNextStreet, Apply, BlindsAllIn;
    ShortRaise(u);
    var v := Apply(u.(lastActor := 0), 0, Raise(100));
    WhoPlays(v, 800, 200);
    NothingToPrune(v);
    ShortFlop(v);
  }

  /** Seat 0 raises by the big blind and folds to the flop. */
  const RAISE_AND_FOLD := [Event(0, Raise(100), false), Event(0, Fold, false)]

  /**
    From its very start, whatever the shuffle: seat 0 raises over two all-in blinds, nobody
    can call, and it folds on the flop.  The hand is over and holds fewer than the 1150
    chips it started with.
    */
  lemma ChipsAreLost(shuffled: seq<Card>)
    requires multiset(shuffled) == multiset(FullDeck())
    ensures Ready(ShortTable()) && Deals(ShortTable()) && StartingChips(ShortTable()) == 1150
    ensures var r := Run(StartHand(ShortTable(), shuffled), RAISE_AND_FOLD);
      r.round == HandOver && Total(r.players, Chips, SEATS) < 1150
  {
    var u := Opening(ShortTable(), shuffled);
    ThreeAreReady(1000, 50, 100);
    ShortOpening(shuffled);
    ThreeStart(1000, 50, 100, shuffled);
    OpeningIsBetting(ShortTable(), shuffled);
    hide Opening, StartHand, ShortTable, FullDeck, Total, Act;
    WhoPlays(u, 1000, 0);
    ShortAdvance(u);
    var w := Act(u, 0, Raise(100), false);
    ShortCover(u, w);
    CoveringFoldLosesChips(w, 0);
    TwoSteps(u, RAISE_AND_FOLD[0], RAISE_AND_FOLD[1]);
  }

  lemma TwoSteps(t: Table, e: Event, f: Event)
    ensures Run(t, [e, f]) == Step(Step(t, e), f)
  {
    hide Step;
    assert [e, f][1..] == [f] && [f][1..] == [];
    assert Run(Step(Step(t, e), f), []) == Step(Step(t, e), f);
  }

  lemma ShortCover(u: Table, w: Table)
    requires Betting(u) && BlindsAllIn(u, 1000, 0) && u.active == 0 && u.pending == {0}
    requires u.currentMaxBet == 100 && u.minRaise == 100 && u.players[0].currentBet == 0 && u.round == PreFlop
    requires w == Act(u, 0, Raise(100), false)
    requires BlindsAllIn(w, 800, 200) && w.round == Flop && w.active == 0 && w.pending == {0}
    ensures LoneCover(w, 0) && Bank(w) == Bank(u)
  {
    hide Act, Accepts, Outcome, Betting, Live, Bank, BlindsAllIn, LoneCover;
    ShortAccepted(u);
    LiveOnFlop(u, w);
    CoverHolds(w);
  }

  lemma ShortAccepted(u: Table)
    requires Betting(u) && BlindsAllIn(u, 1000, 0) && u.active == 0 && u.pending == {0}
    requires u.currentMaxBet == 100 && u.minRaise == 100 && u.players[0].currentBet == 0 && u.round == PreFlop
    ensures Outcome(u, Act(u, 0, Raise(100), false))
  {
    ShortLive(u);
    ShortRaise(u);
    hide Act, Accepts, Outcome, Live, Apply, BlindsAllIn;
    AcceptedActionOutcome(u, 0, Raise(100), false);
  }

  lemma ShortLive(u: Table)
    requires Betting(u) && BlindsAllIn(u, 1000, 0) && u.active == 0 && u.pending == {0}
    ensures Live(u)
  {
    hide Ledger, Cards, Roster;
    WhoPlays(u, 1000, 0);
  }

  lemma LiveOnFlop(u: Table, w: Table)
    requires Outcome(u, w) && w.round == Flop
    ensures Live(w) && Bank(w) == Bank(u)
  {
    hide Ledger, Cards, Bank, Total, FullDeck, Unclaimed, AllCards;
  }

  lemma CoverHolds(w: Table)
    requires BlindsAllIn(w, 800, 200) && Live(w) && w.active == 0
    ensures LoneCover(w, 0)
  {
    hide Ledger, Cards, Roster;
    WhoPlays(w, 800, 200);
  }
}
