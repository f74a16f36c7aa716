/**
  Whole hands: from start_hand through any sequence of accepted and rejected actions.
  */
module HandTheorems {
  import opened Common
  import opened HoldemTypes
  import opened HoldemEvaluator
  import opened PotManager
  import opened Settlement
  import opened TableState
  import opened HandRules
  import opened HandLedger
  import opened HandCards
  import opened HandPlay
  import opened HandStart

  datatype Event = Event(seat: int, action: Action, fromSocket: bool)

  function Step(t: Table, e: Event): Table { Act(t, e.seat, e.action, e.fromSocket) }

  /** The table after the events, in order. */
  function Run(t: Table, es: seq<Event>): Table
    decreases |es|
  {
    if es == [] then t else Run(Step(t, es[0]), es[1..])
  }

  // ----- every run keeps the outcome -----

  lemma OutcomeFrom(base: Table, t: Table, r: Table)
    requires Outcome(base, t) && Live(t) && Outcome(t, r)
    ensures Outcome(base, r)
  {
    hide Ledger, Cards, FullDeck, Bank, Unclaimed, Total;
    SameHandTrans(base, t, r);
    LiveIsNotOver(t);
  }

  lemma LiveIsNotOver(t: Table)
    requires Live(t)
    ensures forall bank :: !Settled(t, bank)
  {}

  lemma RejectedKeepsOutcome(base: Table, t: Table, r: Table)
    requires Outcome(base, t) && r == t.(lastActor := r.lastActor)
    ensures Outcome(base, r)
  {
    hide Ledger, Cards, FullDeck, Unclaimed, Bank;
    TurnChangesOnly(t, r);
    SameHandTrans(base, t, r);
    RejectedKeepsCards(t, r);
    if Live(t) {
      LedgerIgnoresTurn(t, r);
      CardsIgnoreTurn(t, r);
    } else {
      RejectedKeepsUnclaimed(t, r);
    }
  }

  lemma RejectedKeepsCards(t: Table, r: Table)
    requires r == t.(lastActor := r.lastActor)
    ensures AllCards(r) == AllCards(t)
  {}

  lemma RejectedKeepsUnclaimed(t: Table, r: Table)
    requires r == t.(lastActor := r.lastActor)
    ensures Unclaimed(r) == Unclaimed(t)
  {
    hide PotsOf, AmountSum, ClaimedSum, Best;
    TurnChangesOnly(t, r);
    assert ShowdownHands(r) == ShowdownHands(t);
  }

  lemma StepKeepsOutcome(base: Table, t: Table, e: Event)
    requires Outcome(base, t)
    ensures Outcome(base, Step(t, e))
  {
    hide Outcome, Act, Accepts;
    if Accepts(t, e.seat, e.action, e.fromSocket) {
      AcceptedOnlyLive(base, t, e);
      AcceptedActionOutcome(t, e.seat, e.action, e.fromSocket);
      OutcomeFrom(base, t, Step(t, e));
    } else {
      RejectedActionChangesNothing(t, e.seat, e.action, e.fromSocket);
      RejectedKeepsOutcome(base, t, Step(t, e));
    }
  }

  /** After HAND_OVER no action is accepted. */
  lemma AcceptedOnlyLive(base: Table, t: Table, e: Event)
    requires Outcome(base, t) && Accepts(t, e.seat, e.action, e.fromSocket)
    ensures Live(t)
  {
    hide Ledger, Cards, FullDeck, Unclaimed, Bank, Total;
  }

  lemma {:induction false} RunKeepsOutcome(base: Table, t: Table, es: seq<Event>)
    requires Outcome(base, t)
    ensures Outcome(base, Run(t, es))
    decreases |es|
  {
    hide Outcome, Act;
    if es != [] {
      StepKeepsOutcome(base, t, es[0]);
      RunKeepsOutcome(base, Step(t, es[0]), es[1..]);
    }
  }

  /** Everything the invariants say, at every point of every hand. */
  lemma HandInvariant(t: Table, shuffled: seq<Card>, es: seq<Event>)
    requires Ready(t) && Deals(t) && multiset(shuffled) == multiset(FullDeck())
    ensures Outcome(Opening(t, shuffled), Run(StartHand(t, shuffled), es))
    ensures Bank(Opening(t, shuffled)) == StartingChips(t)
  {
    hide Outcome, Act, Opening, StartHand, FullDeck;
    StartOutcome(t, shuffled);
    RunKeepsOutcome(Opening(t, shuffled), StartHand(t, shuffled), es);
    OpeningIsBetting(t, shuffled);
  }

  // ----- what the stacks hold at the end -----

  /**
    At HAND_OVER the stacks hold the starting chips less the unclaimed contributions, and
    they hold all of them exactly when one seat is left or a seat still in the hand has
    contributed at least as much as everybody else.
    */
  lemma SettledConservation(t: Table, shuffled: seq<Card>, es: seq<Event>)
    requires Ready(t) && Deals(t) && multiset(shuffled) == multiset(FullDeck())
    requires Run(StartHand(t, shuffled), es).round == HandOver
    ensures var r := Run(StartHand(t, shuffled), es);
            && r.pot == 0
            && Total(r.players, Chips, SEATS) + Unclaimed(r) == StartingChips(t)
            && 0 <= Unclaimed(r) <= Total(r.players, Contribution, SEATS)
            && (Total(r.players, Chips, SEATS) == StartingChips(t) <==> |InHand(r)| == 1 || LiveSeatCovers(r))
  {
    hide Opening, StartHand, FullDeck, Run, Cards, LiveSeatCovers, Total, Bank;
    HandInvariant(t, shuffled, es);
    var r := Run(StartHand(t, shuffled), es);
    OpeningPot(t, shuffled);
    ContributionsGrow(Opening(t, shuffled).players, r.players, SEATS);
    UnclaimedIff(r);
  }

  lemma {:induction false} ContributionsGrow(a: Players, b: Players, n: nat)
    requires a.Keys == b.Keys && forall i :: i in a ==> a[i].contribution <= b[i].contribution
    ensures Total(a, Contribution, n) <= Total(b, Contribution, n)
  {
    if n > 0 { ContributionsGrow(a, b, n - 1); }
  }

  /** The blinds put something into the pot. */
  lemma OpeningPot(t: Table, shuffled: seq<Card>)
    requires Ready(t) && Deals(t) && multiset(shuffled) == multiset(FullDeck())
    ensures Total(Opening(t, shuffled).players, Contribution, SEATS) > 0
  {
    hide FullDeck, Opening, Total;
    OpeningIsBetting(t, shuffled);
  }

  // ----- hole cards -----

  /**
    At every point of every hand a seat holds the cards it held when the first turn was asked:
    two if it had chips left after the blinds, and otherwise none.
    */
  lemma HoleCardsStay(t: Table, shuffled: seq<Card>, es: seq<Event>)
    requires Ready(t) && Deals(t) && multiset(shuffled) == multiset(FullDeck())
    ensures var r, o := Run(StartHand(t, shuffled), es), Opening(t, shuffled);
      forall i :: i in r.players ==>
        && i in o.players && r.players[i].hand == o.players[i].hand
        && |r.players[i].hand| == if i in InHand(o) && o.players[i].chips > 0 then 2 else 0
  {
    hide Opening, StartHand, FullDeck, Run, Live, Settled, AllCards;
    HandInvariant(t, shuffled, es);
    OpeningHands(t, shuffled);
  }

  // ----- cards -----

  /**
    At every point of every hand deck, board and hole cards are the 52 cards of the fresh
    deck; the board has the size of its street, and five cards at a contested settlement.
    */
  lemma CardConservation(t: Table, shuffled: seq<Card>, es: seq<Event>)
    requires Ready(t) && Deals(t) && multiset(shuffled) == multiset(FullDeck())
    ensures var r := Run(StartHand(t, shuffled), es);
            && multiset(r.deck) + multiset(r.board) + HoleCards(r.players, SEATS) == multiset(FullDeck())
            && (r.round != HandOver ==> |r.board| == BoardSize(r.round) && |r.deck| + |r.board| >= 32)
            && (r.round == HandOver && |InHand(r)| >= 2 ==> |r.board| == 5)
  {
    hide Opening, StartHand, FullDeck, Run, HoleCards, Ledger, Bank;
    HandInvariant(t, shuffled, es);
    var r := Run(StartHand(t, shuffled), es);
    if r.round != HandOver {
      DeckNeverRunsOut(r);
    }
  }

  // ----- nobody is stuck -----

  /**
    A hand that is not over waits for one seat, which is pending, has not folded and has
    chips; and that seat always has an accepted action.
    */
  lemma NoStall(t: Table, shuffled: seq<Card>, es: seq<Event>)
    requires Ready(t) && Deals(t) && multiset(shuffled) == multiset(FullDeck())
    requires Run(StartHand(t, shuffled), es).round != HandOver
    ensures var r := Run(StartHand(t, shuffled), es);
            && r.active in r.pending && r.active in r.players
            && !r.players[r.active].folded && r.players[r.active].chips > 0
            && Accepts(r, r.active, Fold, false)
  {
    hide Opening, StartHand, FullDeck, Run, Ledger, Bank, Cards;
    HandInvariant(t, shuffled, es);
    var r := Run(StartHand(t, shuffled), es);
    assert r.active in Actable(r);
  }

  /**
    Whatever the random draw, the action ai_act picks for the active seat is accepted: if it
    is a raise whose sum overflows, the comparison before it overflows alike.
    */
  lemma AiActionIsAccepted(t: Table, draw: real)
    requires Live(t) && t.minRaise <= INT_MAX
    ensures Accepts(t, t.active, AiChoice(t, t.active, draw), false)
  {
    hide Bank, Cards, Signed;
    SignedIs(t.minRaise);
    assert t.active in Actable(t);
  }

  // ----- every hand ends -----

  /** Streets left, then chips behind, then seats still to act. */
  ghost predicate Less(r: Table, t: Table) {
    || StreetsLeft(r.round) < StreetsLeft(t.round)
    || (r.round == t.round && Total(r.players, Chips, SEATS) < Total(t.players, Chips, SEATS))
    || (r.round == t.round && Total(r.players, Chips, SEATS) == Total(t.players, Chips, SEATS)
        && |r.pending| < |t.pending|)
  }

  lemma FinishIsOver(t: Table)
    ensures FinishHand(t).round == HandOver
  {
    hide PotsOf, Best, Payout;
  }

  lemma {:induction false} ProceedDescends(t: Table)
    requires StreetsLeft(t.round) > 0
    ensures StreetsLeft(ProceedToNextStreet(t).round) < StreetsLeft(t.round)
    decreases StreetsLeft(t.round), 0
  {
    hide FinishHand, Walk;
    var t1 := NextStreet(t);
    NextStreetGoesOn(t);
    NextStreetRounds(t);
    if t1.round == Showdown {
      FinishIsOver(t1);
    } else {
      RequestTurnDescends(InitPending(t1, ActiveOffset(t1, t1.dealer, 1)));
    }
  }

  lemma {:induction false} RequestTurnDescends(t: Table)
    requires StreetsLeft(t.round) > 0
    ensures StreetsLeft(RequestTurn(t).round) <= StreetsLeft(t.round)
    decreases StreetsLeft(t.round), 1
  {
    hide FinishHand, NextClockwise;
    FinishIsOver(t);
    FinishIsOver(t.(round := Showdown));
    var t1 := RemoveIneligible(t);
    var t2 := t1.(active := SeatToAsk(t1));
    if |InHand(t)| > 1 && Actable(t) != {} && t2.active < 0 {
      ProceedDescends(t2);
    }
  }

  /** An action moves the actor's chips forward or uses up its turn, unless it is a free raise. */
  lemma ActionShrinks(t: Table, seat: int, a: Action)
    requires Frame(t) && Ledger(t) && seat in t.players && !t.players[seat].folded && !t.players[seat].bankrupt
    requires Legal(t, seat, a) && seat in t.pending && !FreeRaise(t, seat, a)
    ensures Less(Apply(t, seat, a), t) && Apply(t, seat, a).round == t.round
  {
    hide Total, Signed;
    var t1 := Apply(t, seat, a);
    TotalUpdate(t.players, Chips, seat, t1.players[seat], SEATS);
    assert t1.players == t.players[seat := t1.players[seat]];
    assert t1.players[seat].chips <= t.players[seat].chips;
    if t1.players[seat].chips == t.players[seat].chips {
      assert t1.pending == t.pending - {seat};
    }
  }

  /** A free raise uses up a turn exactly when nobody who can act has acted yet. */
  lemma FreeRaiseShrinksIff(t: Table, seat: int, a: Action)
    requires Ledger(t) && seat in t.pending && t.pending <= Actable(t) && FreeRaise(t, seat, a)
    ensures var t1 := Apply(t, seat, a);
      && t1.players == t.players && t1.round == t.round && |t1.pending| == |Actable(t)| - 1
      && (Less(t1, t) <==> t.pending == Actable(t))
  {
    hide Total, Apply, Ledger, FreeRaise, Actable;
    SeatHasChips(t, seat);
    FreeRaiseEffect(t, seat, a);
    assert Actable(t) == (Actable(t) - {seat}) + {seat};
    SubsetIsSmaller(t.pending, Actable(t));
  }

  lemma SeatHasChips(t: Table, seat: int)
    requires seat in Actable(t)
    ensures seat in t.players && t.players[seat].chips > 0
  {}

  /** The next seat asked on the same street finds the table as the action left it. */
  lemma AdvanceDescends(t: Table, seat: int)
    requires Betting(t) && 0 <= seat
    ensures StreetsLeft(Advance(t, seat).round) < StreetsLeft(t.round)
         || Advance(t, seat) == t.(active := Advance(t, seat).active)
    ensures |InHand(t)| > 1 && t.pending != {} ==> Advance(t, seat) == t.(active := Advance(t, seat).active)
  {
    hide FinishHand, NextClockwise, Ledger, Cards;
    FinishIsOver(t);
    PruningChangesNothing(t);
    if |InHand(t)| > 1 {
      if t.pending == {} {
        ProceedDescends(t);
      } else {
        NextActorFound(t, seat);
        var t1 := t.(active := NextActor(t, seat));
        TurnChangesOnly(t, t1);
        PruneAgain(t, t1);
      }
    }
  }

  lemma PruneAgain(t: Table, t1: Table)
    requires Betting(t) && t.pending != {} && t1 == t.(active := t1.active)
    ensures RemoveIneligible(t1) == t1 && Actable(t1) != {}
  {
    hide Ledger, Cards;
    assert RemoveIneligible(t1).pending == t1.pending;
    var i := Member(t.pending);
    assert i in Actable(t1);
  }

  /**
    An accepted action decreases the measure, unless it is a free raise that reopens the
    betting for a seat that has acted; and then it does not.
    */
  lemma AcceptedActionDescends(t: Table, e: Event)
    requires Live(t) && Accepts(t, e.seat, e.action, e.fromSocket)
    ensures Less(Step(t, e), t) <==> !FreeRaise(t, e.seat, e.action) || t.pending == Actable(t)
  {
    hide Ledger, Cards, Total, Apply, Advance, Signed;
    var t1 := t.(lastActor := e.seat);
    TurnChangesOnly(t, t1);
    LedgerIgnoresTurn(t, t1);
    CardsIgnoreTurn(t, t1);
    assert e.seat in Actable(t1);
    ActionKeepsBetting(t1, e.seat, e.action);
    FreeIgnoresActor(t, t1, e.seat, e.action);
    if FreeRaise(t, e.seat, e.action) {
      FreeRaiseShrinksIff(t1, e.seat, e.action);
      InHandAfter(t1, e.seat, e.action);
    } else {
      ActionShrinks(t1, e.seat, e.action);
    }
    AdvanceDescends(Apply(t1, e.seat, e.action), e.seat);
  }

  lemma FreeIgnoresActor(t: Table, t1: Table, seat: int, a: Action)
    requires seat in t.players && t1 == t.(lastActor := t1.lastActor)
    ensures FreeRaise(t1, seat, a) <==> FreeRaise(t, seat, a)
  {}

  // ----- a bound on the length of a hand -----

  /** How many of the events are accepted along the run. */
  function AcceptedCount(t: Table, es: seq<Event>): nat
    decreases |es|
  {
    if es == [] then 0
    else
      (if Accepts(t, es[0].seat, es[0].action, es[0].fromSocket) then 1 else 0) + AcceptedCount(Step(t, es[0]), es[1..])
  }

  /** How many of the accepted events are free raises. */
  ghost function FreeCount(t: Table, es: seq<Event>): nat
    decreases |es|
  {
    if es == [] then 0 else (if FreelyRaised(t, es[0]) then 1 else 0) + FreeCount(Step(t, es[0]), es[1..])
  }

  ghost predicate FreelyRaised(t: Table, e: Event) {
    Accepts(t, e.seat, e.action, e.fromSocket) && FreeRaise(t, e.seat, e.action)
  }

  /** The measure as one number, for a table with `bank` chips. */
  function Size(t: Table, bank: nat): int {
    StreetsLeft(t.round) * (11 * (bank + 1)) + 11 * Total(t.players, Chips, SEATS) + |t.pending|
  }

  lemma LiveSizes(t: Table)
    requires Live(t)
    ensures 0 <= Total(t.players, Chips, SEATS) <= Bank(t) && |t.pending| <= 10
  {
    hide Cards, Actable, InHand;
    TotalNotNegative(t.players, Chips, SEATS);
    TotalNotNegative(t.players, Contribution, SEATS);
    PendingIsSmall(t);
  }

  lemma PendingIsSmall(t: Table)
    requires Frame(t) && t.pending <= Actable(t)
    ensures |t.pending| <= 10
  {
    assert forall i :: i in t.pending ==> i in Actable(t);
    SizeBelow(t.pending, SEATS);
  }

  /** On tables within the bounds, the lexicographic measure and the number agree. */
  lemma LessIsSmaller(r: Table, t: Table, bank: nat)
    requires Less(r, t)
    requires 0 <= Total(r.players, Chips, SEATS) <= bank && |r.pending| <= 10
    requires 0 <= Total(t.players, Chips, SEATS)
    ensures 0 <= Size(r, bank) < Size(t, bank)
  {
    hide Total;
    var a, b, w := StreetsLeft(r.round), StreetsLeft(t.round), 11 * (bank + 1);
    assert a * w >= 0;
    if a < b {
      assert b * w == a * w + (b - a) * w;
      assert (b - a) * w >= w;
    }
  }

  lemma SettledSizes(base: Table, r: Table)
    requires Outcome(base, r) && r.round == HandOver
    requires forall i :: i in base.players ==> base.players[i].chips >= 0 && base.players[i].contribution >= 0
    requires Total(base.players, Contribution, SEATS) > 0
    ensures 0 <= Total(r.players, Chips, SEATS) <= Bank(base) && r.pending == {}
  {
    hide Cards, Unclaimed, FullDeck, InHand, Ledger;
    TotalNotNegative(r.players, Chips, SEATS);
    ContributionsGrow(base.players, r.players, SEATS);
    UnclaimedIff(r);
  }

  lemma FreeRaiseKeepsChips(t: Table, e: Event)
    requires Live(t) && FreelyRaised(t, e) && Step(t, e).round == t.round
    ensures Total(Step(t, e).players, Chips, SEATS) == Total(t.players, Chips, SEATS)
  {
    hide Ledger, Cards, Total, Apply, Advance, Signed;
    var t1 := t.(lastActor := e.seat);
    TurnChangesOnly(t, t1);
    LedgerIgnoresTurn(t, t1);
    CardsIgnoreTurn(t, t1);
    assert e.seat in Actable(t1);
    ActionKeepsBetting(t1, e.seat, e.action);
    FreeIgnoresActor(t, t1, e.seat, e.action);
    FreeRaiseShrinksIff(t1, e.seat, e.action);
    AdvanceDescends(Apply(t1, e.seat, e.action), e.seat);
  }

  lemma StreetsNeverReturn(t: Table, e: Event)
    requires Live(t) && Accepts(t, e.seat, e.action, e.fromSocket)
    ensures StreetsLeft(Step(t, e).round) < StreetsLeft(t.round) || Step(t, e).round == t.round
  {
    hide Ledger, Cards, Total, Apply, Advance, Signed;
    var t1 := t.(lastActor := e.seat);
    TurnChangesOnly(t, t1);
    LedgerIgnoresTurn(t, t1);
    CardsIgnoreTurn(t, t1);
    assert e.seat in Actable(t1);
    ActionKeepsBetting(t1, e.seat, e.action);
    SameStreet(t1, e.seat, e.action);
    AdvanceDescends(Apply(t1, e.seat, e.action), e.seat);
  }

  /** An accepted action lowers the number by one at least; a free raise adds nine at most. */
  lemma AcceptedSize(t: Table, e: Event, bank: nat)
    requires Live(t) && Accepts(t, e.seat, e.action, e.fromSocket)
    requires 0 <= Total(t.players, Chips, SEATS) <= bank && |t.pending| <= 10
    requires 0 <= Total(Step(t, e).players, Chips, SEATS) <= bank && |Step(t, e).pending| <= 10
    ensures Size(Step(t, e), bank) + 1 <= Size(t, bank) + if FreelyRaised(t, e) then 10 else 0
  {
    hide Live, Act, Accepts, Total, Size, FreeRaise, Less;
    AcceptedActionDescends(t, e);
    if Less(Step(t, e), t) {
      LessIsSmaller(Step(t, e), t, bank);
    } else {
      StreetsNeverReturn(t, e);
      NotLessSize(t, e, bank);
    }
  }

  lemma NotLessSize(t: Table, e: Event, bank: nat)
    requires Live(t) && FreelyRaised(t, e) && !Less(Step(t, e), t) && |Step(t, e).pending| <= 10
    requires StreetsLeft(Step(t, e).round) < StreetsLeft(t.round) || Step(t, e).round == t.round
    ensures Size(Step(t, e), bank) <= Size(t, bank) + 9
  {
    hide Act, Accepts, FreeRaise, Total, Betting;
    FreeRaiseKeepsChips(t, e);
    assert |t.pending - {t.active}| == |t.pending| - 1;
  }

  /** A hand accepts at most as many actions as its size, and ten more for each free raise. */
  lemma {:induction false} AcceptedAtMostSize(base: Table, t: Table, es: seq<Event>)
    requires Outcome(base, t) && Total(base.players, Contribution, SEATS) > 0 && Bank(base) >= 0
    requires forall i :: i in base.players ==> base.players[i].chips >= 0 && base.players[i].contribution >= 0
    ensures AcceptedCount(t, es) <= Size(t, Bank(base)) + 10 * FreeCount(t, es)
    decreases |es|
  {
    hide Outcome, Act, Accepts, Size, Total, Bank, FreeRaise;
    if es == [] {
      SizeNotNegative(base, t);
    } else {
      var e := es[0];
      StepKeepsOutcome(base, t, e);
      AcceptedAtMostSize(base, Step(t, e), es[1..]);
      if Accepts(t, e.seat, e.action, e.fromSocket) {
        AcceptedOnlyLive(base, t, e);
        SizesOf(base, t);
        SizesOf(base, Step(t, e));
        AcceptedSize(t, e, Bank(base));
      } else {
        RejectedActionChangesNothing(t, e.seat, e.action, e.fromSocket);
        SameSize(Step(t, e), t, Bank(base));
      }
    }
  }

  lemma SameSize(r: Table, t: Table, bank: nat)
    requires r == t.(lastActor := r.lastActor)
    ensures Size(r, bank) == Size(t, bank)
  {}

  lemma SizesOf(base: Table, t: Table)
    requires Outcome(base, t) && Total(base.players, Contribution, SEATS) > 0
    requires forall i :: i in base.players ==> base.players[i].chips >= 0 && base.players[i].contribution >= 0
    ensures 0 <= Total(t.players, Chips, SEATS) <= Bank(base) && |t.pending| <= 10
  {
    hide Cards, Unclaimed, FullDeck, InHand, Ledger, Bank, Total;
    if Live(t) {
      LiveSizes(t);
    } else {
      SettledSizes(base, t);
    }
  }

  lemma SizeNotNegative(base: Table, t: Table)
    requires Outcome(base, t) && Total(base.players, Contribution, SEATS) > 0 && Bank(base) >= 0
    requires forall i :: i in base.players ==> base.players[i].chips >= 0 && base.players[i].contribution >= 0
    ensures Size(t, Bank(base)) >= 0
  {
    hide Outcome, Bank, Total;
    SizesOf(base, t);
    assert StreetsLeft(t.round) * (11 * (Bank(base) + 1)) >= 0;
  }

  /**
    At most 55 * (chips + 1) actions are accepted in a hand, and ten more for each raise whose
    sum overflows; by NoStall a hand that is not over can always accept one more.
    */
  lemma EveryHandEnds(t: Table, shuffled: seq<Card>, es: seq<Event>)
    requires Ready(t) && Deals(t) && multiset(shuffled) == multiset(FullDeck())
    ensures AcceptedCount(StartHand(t, shuffled), es) <=
            55 * (StartingChips(t) + 1) + 10 * FreeCount(StartHand(t, shuffled), es)
  {
    hide Opening, StartHand, FullDeck, Outcome, Total, Ledger, Act, FreeCount;
    StartOutcome(t, shuffled);
    var base, s := Opening(t, shuffled), StartHand(t, shuffled);
    OpeningIsBetting(t, shuffled);
    OpeningPot(t, shuffled);
    StacksAreSound(base);
    SizesOf(base, s);
    AcceptedAtMostSize(base, s, es);
    SizeAtMost(s, Bank(base));
  }

  lemma StacksAreSound(t: Table)
    requires Betting(t)
    ensures forall i :: i in t.players ==> t.players[i].chips >= 0 && t.players[i].contribution >= 0
  {}

  lemma SizeAtMost(t: Table, bank: nat)
    requires 0 <= Total(t.players, Chips, SEATS) <= bank && |t.pending| <= 10
    ensures Size(t, bank) <= 55 * (bank + 1)
  {
    hide Total;
    var k := StreetsLeft(t.round);
    assert k <= 4;
    assert k * (11 * (bank + 1)) <= 4 * (11 * (bank + 1));
  }

  // ----- bets are matched when a street closes -----

  /** Every seat in the hand that has acted and has chips left owes nothing. */
  ghost predicate Matched(t: Table) {
    forall i :: i in Actable(t) && i !in t.pending ==> t.players[i].currentBet >= t.currentMaxBet
  }

  /** Every such seat has bet exactly the current maximum. */
  ghost predicate MatchedExactly(t: Table) {
    forall i :: i in Actable(t) && i !in t.pending ==> t.players[i].currentBet == t.currentMaxBet
  }

  lemma CappedIsExact(t: Table)
    requires Matched(t) && Capped(t)
    ensures MatchedExactly(t)
  {}

  /** An all-in above the current bet by less than the minimum raise. */
  ghost predicate ShortAllIn(t: Table, seat: int, a: Action)
    requires seat in t.players
  {
    a == AllIn && 0 < t.players[seat].currentBet + t.players[seat].chips - t.currentMaxBet < t.minRaise
  }

  /** Every action but a short all-in keeps the bets matched. */
  lemma ActionKeepsMatched(t: Table, seat: int, a: Action)
    requires Frame(t) && Ledger(t) && Matched(t) && seat in InHand(t) && Legal(t, seat, a)
    requires !ShortAllIn(t, seat, a)
    ensures Matched(Apply(t, seat, a))
  {
    hide Total, Signed;
    var t1 := Apply(t, seat, a);
    forall i | i in Actable(t1) && i !in t1.pending ensures t1.players[i].currentBet >= t1.currentMaxBet {
      if i != seat {
        OthersUntouched(t, seat, a, i);
        assert i in Actable(t);
      }
    }
  }

  /** A short all-in leaves the bets matched exactly when every seat with chips is still to act. */
  lemma ShortAllInUnmatches(t: Table, seat: int)
    requires Frame(t) && Ledger(t) && Capped(t) && seat in InHand(t) && ShortAllIn(t, seat, AllIn)
    requires t.players[seat].chips > 0
    ensures Matched(Apply(t, seat, AllIn)) <==> Actable(Apply(t, seat, AllIn)) <= Apply(t, seat, AllIn).pending
  {
    hide Total;
    var t1 := Apply(t, seat, AllIn);
    if i :| i in Actable(t1) && i !in t1.pending {
      assert i != seat;
      OthersUntouched(t, seat, AllIn, i);
      assert t1.players[i].currentBet < t1.currentMaxBet;
    }
  }

  /** A street starts with every seat that can act still to act, and no bet above the maximum. */
  ghost predicate StreetStart(t: Table) { t.pending == Actable(t) && Capped(t) }

  lemma StartIsMatched(t: Table)
    requires StreetStart(t)
    ensures Matched(t)
  {}

  lemma {:induction false} ProceedStartsStreet(t: Table)
    requires Betting(t) && |InHand(t)| >= 2 && ProceedToNextStreet(t).round != HandOver
    ensures StreetStart(ProceedToNextStreet(t))
    decreases StreetsLeft(t.round), 0
  {
    hide Ledger, Cards, FinishHand, Walk;
    var t1 := NextStreet(t);
    var start := ActiveOffset(t1, t1.dealer, 1);
    NextStreetGoesOn(t);
    NextStreetKeepsLedger(t);
    NextStreetKeepsBetting(t, start);
    FinishIsOver(t1);
    if t1.round != Showdown {
      TurnChangesOnly(t1, InitPending(t1, start));
      RequestKeepsStart(InitPending(t1, start));
    }
  }

  lemma {:induction false} RequestKeepsStart(t: Table)
    requires Betting(t) && |InHand(t)| >= 2 && StreetStart(t) && RequestTurn(t).round != HandOver
    ensures StreetStart(RequestTurn(t))
    decreases StreetsLeft(t.round), 1
  {
    hide Ledger, Cards, FinishHand, NextClockwise, Walk;
    FinishIsOver(t.(round := Showdown));
    if Actable(t) != {} {
      PruningChangesNothing(t);
      var t2 := t.(active := SeatToAsk(t));
      TurnChangesOnly(t, t2);
      if t2.active < 0 {
        LedgerIgnoresTurn(t, t2);
        CardsIgnoreTurn(t, t2);
        ProceedStartsStreet(t2);
      }
    }
  }

  lemma AdvanceKeepsMatched(t: Table, seat: int)
    requires Betting(t) && 0 <= seat && Advance(t, seat).round != HandOver
    ensures Advance(t, seat).round == t.round ==> Advance(t, seat) == t.(active := Advance(t, seat).active)
    ensures Advance(t, seat).round != t.round ==> StreetStart(Advance(t, seat))
  {
    hide Ledger, Cards, FinishHand, NextClockwise;
    AdvanceDescends(t, seat);
    FinishIsOver(t);
    PruningChangesNothing(t);
    if |InHand(t)| > 1 && t.pending == {} {
      ProceedStartsStreet(t);
    }
  }

  /** An accepted event leaves the table as its action did, or starts a new street. */
  lemma StepStaysOrStarts(t: Table, e: Event)
    requires Live(t) && Accepts(t, e.seat, e.action, e.fromSocket) && Step(t, e).round != HandOver
    ensures var t1 := t.(lastActor := e.seat);
      && Betting(t1) && e.seat in InHand(t1) && Legal(t1, e.seat, e.action)
      && if Step(t, e).round == t.round
         then Step(t, e) == Apply(t1, e.seat, e.action).(active := Step(t, e).active)
         else StreetStart(Step(t, e))
  {
    hide Ledger, Cards, Apply, Advance, Signed, StreetStart;
    var t1 := t.(lastActor := e.seat);
    TurnChangesOnly(t, t1);
    LedgerIgnoresTurn(t, t1);
    CardsIgnoreTurn(t, t1);
    assert e.seat in Actable(t1);
    ActionKeepsBetting(t1, e.seat, e.action);
    AdvanceKeepsMatched(Apply(t1, e.seat, e.action), e.seat);
    SameStreet(t1, e.seat, e.action);
  }

  /** One event: bets stay matched on a street free of short all-ins, and every new street starts matched. */
  lemma StepKeepsMatched(t: Table, e: Event)
    requires Live(t) && Accepts(t, e.seat, e.action, e.fromSocket) && Step(t, e).round != HandOver
    ensures Step(t, e).round != t.round ==> Matched(Step(t, e))
    ensures Matched(t) && !ShortAllIn(t, e.seat, e.action) ==> Matched(Step(t, e))
  {
    hide Ledger, Cards, Roster, Apply, Step, Signed, Legal, Accepts;
    StepStaysOrStarts(t, e);
    if Step(t, e).round == t.round && Matched(t) && !ShortAllIn(t, e.seat, e.action) {
      var t1 := t.(lastActor := e.seat);
      TurnChangesOnly(t, t1);
      ActionKeepsMatched(t1, e.seat, e.action);
      TurnChangesOnly(Apply(t1, e.seat, e.action), Step(t, e));
    }
  }

  /** The same for the maximum, unless a raise takes it below somebody's bet. */
  lemma StepKeepsCap(t: Table, e: Event)
    requires Live(t) && Accepts(t, e.seat, e.action, e.fromSocket) && Step(t, e).round != HandOver
    ensures Step(t, e).round != t.round ==> Capped(Step(t, e))
    ensures Capped(t) && !LowersBelowBet(t, e.seat, e.action) ==> Capped(Step(t, e))
  {
    hide Ledger, Cards, Roster, Apply, Step, Signed, Legal, Accepts;
    StepStaysOrStarts(t, e);
    if Step(t, e).round == t.round && Capped(t) && !LowersBelowBet(t, e.seat, e.action) {
      var t1 := t.(lastActor := e.seat);
      KeepsCapAnyhow(t1, e.seat, e.action);
    }
  }

  /** Whatever the fields hold, a raise that does not take the maximum below a bet keeps it above all. */
  lemma KeepsCapAnyhow(t: Table, seat: int, a: Action)
    requires Ledger(t) && Capped(t) && seat in InHand(t) && Legal(t, seat, a) && !LowersBelowBet(t, seat, a)
    ensures Capped(Apply(t, seat, a))
  {
    if a.Raise? {
      hide Signed, Actable, InHand;
      SignedIs(CallAmount(t, seat) + a.raiseBy);
    }
  }

  lemma SameStreet(t: Table, seat: int, a: Action)
    requires seat in t.players
    ensures Apply(t, seat, a).round == t.round
  {}

  /** What can spoil a street: a short all-in, or a raise that takes the maximum below a bet. */
  datatype Blemish = ShortAllIns | LoweredBets

  ghost predicate Shows(b: Blemish, t: Table, e: Event) {
    && Accepts(t, e.seat, e.action, e.fromSocket)
    && if b == ShortAllIns then ShortAllIn(t, e.seat, e.action) else LowersBelowBet(t, e.seat, e.action)
  }

  /** Whether the current street has seen nothing of the kind, tracked along the run. */
  ghost function Clean(b: Blemish, t: Table, clean: bool, es: seq<Event>): bool
    decreases |es|
  {
    if es == [] then clean
    else
      var r := Step(t, es[0]);
      Clean(b, r, r.round != t.round || (clean && !Shows(b, t, es[0])), es[1..])
  }

  /** What a street keeps while it is clean. */
  ghost predicate Keeps(b: Blemish, t: Table) {
    if b == ShortAllIns then Matched(t) else Capped(t)
  }

  lemma StepKeeps(b: Blemish, base: Table, t: Table, e: Event)
    requires Outcome(base, t) && t.round != HandOver && Step(t, e).round != HandOver
    ensures Step(t, e).round != t.round ==> Keeps(b, Step(t, e))
    ensures Keeps(b, t) && !Shows(b, t, e) ==> Keeps(b, Step(t, e))
  {
    hide Outcome, Act, Accepts, Matched, Capped, ShortAllIn, LowersBelowBet;
    if Accepts(t, e.seat, e.action, e.fromSocket) {
      AcceptedOnlyLive(base, t, e);
      StepKeepsMatched(t, e);
      StepKeepsCap(t, e);
    } else {
      RejectedActionChangesNothing(t, e.seat, e.action, e.fromSocket);
      BetsIgnoreActor(t, Step(t, e));
    }
  }

  lemma BetsIgnoreActor(t: Table, r: Table)
    requires r == t.(lastActor := r.lastActor)
    ensures (Matched(r) <==> Matched(t)) && (Capped(r) <==> Capped(t))
  {
    TurnChangesOnly(t, r);
  }

  lemma {:induction false} RunKeeps(b: Blemish, base: Table, t: Table, clean: bool, es: seq<Event>)
    requires Outcome(base, t) && (t.round != HandOver && clean ==> Keeps(b, t))
    requires Run(t, es).round != HandOver && Clean(b, t, clean, es)
    ensures Keeps(b, Run(t, es))
    decreases |es|
  {
    hide Outcome, Act, Keeps, Shows;
    if es != [] {
      var e := es[0];
      var r := Step(t, e);
      StepKeepsOutcome(base, t, e);
      if t.round == HandOver {
        OverForGood(base, t, e);
      } else if r.round != HandOver {
        StepKeeps(b, base, t, e);
      }
      RunKeeps(b, base, r, r.round != t.round || (clean && !Shows(b, t, e)), es[1..]);
    }
  }

  lemma OverForGood(base: Table, t: Table, e: Event)
    requires Outcome(base, t) && t.round == HandOver
    ensures Step(t, e).round == HandOver
  {
    hide Outcome, Act, Accepts;
    if Accepts(t, e.seat, e.action, e.fromSocket) {
      AcceptedOnlyLive(base, t, e);
    } else {
      RejectedActionChangesNothing(t, e.seat, e.action, e.fromSocket);
    }
  }

  lemma CleanStreetKeeps(b: Blemish, t: Table, shuffled: seq<Card>, es: seq<Event>)
    requires Ready(t) && Deals(t) && multiset(shuffled) == multiset(FullDeck())
    requires var s := StartHand(t, shuffled); Run(s, es).round != HandOver && Clean(b, s, true, es)
    ensures Keeps(b, Run(StartHand(t, shuffled), es))
  {
    hide Outcome, Act, Matched, Capped, FullDeck, Opening, RequestTurn, Clean;
    StartOutcome(t, shuffled);
    OpeningIsBetting(t, shuffled);
    var base, s := Opening(t, shuffled), StartHand(t, shuffled);
    if s.round != HandOver {
      StartedFromOpening(t, shuffled);
      RequestKeepsStart(base);
      StartIsMatched(s);
    }
    RunKeeps(b, base, s, true, es);
  }

  lemma StartedFromOpening(t: Table, shuffled: seq<Card>)
    requires Deals(t)
    ensures StartHand(t, shuffled) == RequestTurn(Opening(t, shuffled))
  {
    hide RequestTurn, PostAndDeal, ResetHand, Walk;
  }

  /**
    Street closing: as long as the current street has seen no short all-in, every seat in the
    hand that has acted and has chips left owes nothing, and if no raise has taken the maximum
    below a bet either, it has bet exactly the current maximum.
    */
  lemma BetsAreMatched(t: Table, shuffled: seq<Card>, es: seq<Event>)
    requires Ready(t) && Deals(t) && multiset(shuffled) == multiset(FullDeck())
    requires var s := StartHand(t, shuffled); Run(s, es).round != HandOver && Clean(ShortAllIns, s, true, es)
    ensures Matched(Run(StartHand(t, shuffled), es))
    ensures Clean(LoweredBets, StartHand(t, shuffled), true, es) ==> MatchedExactly(Run(StartHand(t, shuffled), es))
  {
    hide Run, StartHand, Matched, Capped, MatchedExactly, FullDeck, Clean;
    CleanStreetKeeps(ShortAllIns, t, shuffled, es);
    if Clean(LoweredBets, StartHand(t, shuffled), true, es) {
      CleanStreetKeeps(LoweredBets, t, shuffled, es);
      CappedIsExact(Run(StartHand(t, shuffled), es));
    }
  }

  /** When the last seat acts on a matched street, no stack still in play owes anything. */
  lemma AllMatchedWhenStreetCloses(t: Table, e: Event)
    requires Live(t) && Matched(t) && Accepts(t, e.seat, e.action, e.fromSocket) && !ShortAllIn(t, e.seat, e.action)
    requires Apply(t, e.seat, e.action).pending == {}
    ensures var u := Apply(t, e.seat, e.action);
      && (forall i :: i in Actable(u) ==> u.players[i].currentBet >= u.currentMaxBet)
      && (Capped(t) ==> forall i :: i in Actable(u) ==> u.players[i].currentBet == u.currentMaxBet)
  {
    hide Ledger, Cards, Signed;
    assert e.seat in Actable(t);
    ActionKeepsMatched(t, e.seat, e.action);
    if Capped(t) {
      ClosedExactly(t, e.seat, e.action);
    }
  }

  lemma ClosedExactly(t: Table, seat: int, a: Action)
    requires Ledger(t) && Capped(t) && seat in InHand(t) && Legal(t, seat, a)
    requires Apply(t, seat, a).pending == {} && Matched(Apply(t, seat, a))
    ensures MatchedExactly(Apply(t, seat, a))
  {
    var u := Apply(t, seat, a);
    if LowersBelowBet(t, seat, a) {
      hide Signed;
      assert Actable(u) <= {seat} by {
        assert u == Reopen(u, seat);
      }
    } else {
      KeepsCapAnyhow(t, seat, a);
      CappedIsExact(u);
    }
  }

  // ----- the ledger, in plain terms -----

  /**
    While a hand runs: the pot is the sum of the contributions, stacks plus pot are the
    starting chips, no stack is negative, and every bet is within the seat's contribution; and
    within the current maximum, unless a raise of the street took that below a bet.
    */
  lemma RunningLedger(t: Table, shuffled: seq<Card>, es: seq<Event>)
    requires Ready(t) && Deals(t) && multiset(shuffled) == multiset(FullDeck())
    requires Run(StartHand(t, shuffled), es).round != HandOver
    ensures var r := Run(StartHand(t, shuffled), es);
            && r.pot == Total(r.players, Contribution, SEATS)
            && Total(r.players, Chips, SEATS) + r.pot == StartingChips(t)
            && forall i :: i in r.players ==>
                 && r.players[i].chips >= 0
                 && 0 <= r.players[i].currentBet <= r.players[i].contribution
                 && (Clean(LoweredBets, StartHand(t, shuffled), true, es) ==> r.players[i].currentBet <= r.currentMaxBet)
  {
    hide Opening, StartHand, FullDeck, Run, Total, Cards, Clean;
    HandInvariant(t, shuffled, es);
    if Clean(LoweredBets, StartHand(t, shuffled), true, es) {
      CleanStreetKeeps(LoweredBets, t, shuffled, es);
    }
  }
}
