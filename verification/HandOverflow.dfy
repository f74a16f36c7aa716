/**
  Raises whose sum overflows.  call_amt + raise_by is an int sum of a client's number, and
  past INT_MAX it comes out negative: handle_action then lets the raise pass, moves no chip,
  and makes the raiser's own bet the current maximum.  What that breaks, and that every hand
  ends all the same.
  */
module HandOverflow {
  import opened Common
  import opened HoldemTypes
  import opened TableState
  import opened HandRules
  import opened HandLedger
  import opened HandCards
  import opened HandPlay
  import opened HandStart
  import opened HandTheorems
  import opened HandExamples

  // ----- every hand ends, whatever is raised -----

  /** The seats whose bet is below the current maximum. */
  ghost function Behind(t: Table): set<int> {
    set i | i in t.players && t.players[i].currentBet < t.currentMaxBet
  }

  /** Streets left, then chips behind, then seats below the maximum, then seats still to act. */
  ghost predicate Lower(r: Table, t: Table) {
    || StreetsLeft(r.round) < StreetsLeft(t.round)
    || (r.round == t.round && Total(r.players, Chips, SEATS) < Total(t.players, Chips, SEATS))
    || (r.round == t.round && Total(r.players, Chips, SEATS) == Total(t.players, Chips, SEATS)
        && (|Behind(r)| < |Behind(t)| || (|Behind(r)| == |Behind(t)| && |r.pending| < |t.pending|)))
  }

  /** Without chips moving, only a free raise touches bets and maximum. */
  lemma BehindStays(t: Table, seat: int, a: Action)
    requires Ledger(t) && seat in t.players && !t.players[seat].folded && !t.players[seat].bankrupt
    requires Legal(t, seat, a) && !FreeRaise(t, seat, a) && t.players[seat].chips > 0
    requires Apply(t, seat, a).players[seat].chips == t.players[seat].chips
    ensures Behind(Apply(t, seat, a)) == Behind(t)
  {
    hide Signed, Actable;
    var u := Apply(t, seat, a);
    assert u.currentMaxBet == t.currentMaxBet;
    forall i ensures i in Behind(u) <==> i in Behind(t) {
      if i in t.players && i != seat { OthersUntouched(t, seat, a, i); }
    }
  }

  /** A free raise takes at least the raiser out of those below the maximum. */
  lemma FreeRaiseCatchesUp(t: Table, seat: int, a: Action)
    requires seat in t.players && t.players[seat].chips >= 0 && a.Raise? && a.raiseBy > 0 && FreeRaise(t, seat, a)
    ensures |Behind(Apply(t, seat, a))| < |Behind(t)|
  {
    hide FreeRaise, Apply, Actable;
    FreeRaiseEffect(t, seat, a);
    FreeRaiseFacesBet(t, seat, a.raiseBy);
    var u := Apply(t, seat, a);
    assert seat in Behind(t) && seat !in Behind(u);
    assert Behind(u) <= Behind(t);
    SubsetIsSmaller(Behind(u), Behind(t));
  }

  lemma ChipsOfOthersStay(t: Table, seat: int, a: Action)
    requires seat in t.players && 0 <= seat < SEATS
    ensures seat in Apply(t, seat, a).players && Apply(t, seat, a).round == t.round
    ensures Total(Apply(t, seat, a).players, Chips, SEATS) ==
            Total(t.players, Chips, SEATS) + Apply(t, seat, a).players[seat].chips - t.players[seat].chips
  {
    hide Total, Signed, Actable;
    var u := Apply(t, seat, a);
    TotalUpdate(t.players, Chips, seat, u.players[seat], SEATS);
    assert u.players == t.players[seat := u.players[seat]];
  }

  lemma ActionLowers(t: Table, seat: int, a: Action)
    requires Frame(t) && Ledger(t) && seat in t.pending && t.pending <= Actable(t) && Legal(t, seat, a)
    requires seat in t.players && !t.players[seat].folded && !t.players[seat].bankrupt
    ensures Lower(Apply(t, seat, a), t) && Apply(t, seat, a).round == t.round
  {
    hide Total, Signed, Apply, Behind, Actable, FreeRaise;
    SeatHasChips(t, seat);
    ChipsOfOthersStay(t, seat, a);
    if FreeRaise(t, seat, a) {
      FreeRaiseShrinksIff(t, seat, a);
      FreeRaiseIsRaise(t, seat, a);
      FreeRaiseCatchesUp(t, seat, a);
    } else {
      ActionShrinks(t, seat, a);
      if Apply(t, seat, a).players[seat].chips == t.players[seat].chips {
        BehindStays(t, seat, a);
      }
    }
  }

  lemma FreeRaiseIsRaise(t: Table, seat: int, a: Action)
    requires Ledger(t) && seat in t.players && FreeRaise(t, seat, a) && Legal(t, seat, a)
    ensures a.Raise? && a.raiseBy > 0
  {}

  /** Every accepted action, overflowing or not, decreases this measure. */
  lemma AcceptedActionLowers(t: Table, e: Event)
    requires Live(t) && Accepts(t, e.seat, e.action, e.fromSocket)
    ensures Lower(Step(t, e), t)
  {
    hide Ledger, Cards, Total, Apply, Advance, Signed;
    var t1 := t.(lastActor := e.seat);
    TurnChangesOnly(t, t1);
    LedgerIgnoresTurn(t, t1);
    CardsIgnoreTurn(t, t1);
    assert e.seat in Actable(t1);
    ActionKeepsBetting(t1, e.seat, e.action);
    ActionLowers(t1, e.seat, e.action);
    AdvanceDescends(Apply(t1, e.seat, e.action), e.seat);
    SameBehind(t, t1);
    SameBehind(Apply(t1, e.seat, e.action), Step(t, e));
  }

  lemma SameBehind(a: Table, b: Table)
    ensures b == a.(active := b.active, lastActor := b.lastActor) ==> Behind(b) == Behind(a)
  {}

  /** The measure as one number, for a table with `bank` chips. */
  ghost function Measure(t: Table, bank: nat): int {
    StreetsLeft(t.round) * (121 * (bank + 1)) + 121 * Total(t.players, Chips, SEATS) + 11 * |Behind(t)| + |t.pending|
  }

  lemma FewBehind(t: Table)
    requires Frame(t)
    ensures |Behind(t)| <= 10
  {
    SizeBelow(Behind(t), SEATS);
  }

  lemma LowerIsSmaller(r: Table, t: Table, bank: nat)
    requires Lower(r, t) && Frame(r) && Frame(t)
    requires 0 <= Total(r.players, Chips, SEATS) <= bank && |r.pending| <= 10
    requires 0 <= Total(t.players, Chips, SEATS)
    ensures 0 <= Measure(r, bank) < Measure(t, bank)
  {
    FewBehind(r);
    FewBehind(t);
    hide Total, Behind, Frame;
    var a, b, w := StreetsLeft(r.round), StreetsLeft(t.round), 121 * (bank + 1);
    assert a * w >= 0;
    if a < b {
      assert b * w == a * w + (b - a) * w;
      assert (b - a) * w >= w;
    }
  }

  /** The chips and contributions the hand starts from. */
  ghost predicate SoundBase(base: Table) {
    && Total(base.players, Contribution, SEATS) > 0 && Bank(base) >= 0
    && forall i :: i in base.players ==> base.players[i].chips >= 0 && base.players[i].contribution >= 0
  }

  lemma OutcomeFrame(base: Table, t: Table)
    requires Outcome(base, t)
    ensures Frame(t)
  {}

  lemma {:induction false} AcceptedAtMostMeasure(base: Table, t: Table, es: seq<Event>)
    requires Outcome(base, t) && SoundBase(base)
    ensures AcceptedCount(t, es) <= Measure(t, Bank(base))
    decreases |es|
  {
    hide Outcome, Act, Accepts, Measure, Total, Bank, Lower, Frame;
    OutcomeFrame(base, t);
    SizesOf(base, t);
    if es == [] {
      MeasureNotNegative(t, Bank(base));
    } else {
      var e := es[0];
      StepKeepsOutcome(base, t, e);
      AcceptedAtMostMeasure(base, Step(t, e), es[1..]);
      if Accepts(t, e.seat, e.action, e.fromSocket) {
        AcceptedOnlyLive(base, t, e);
        AcceptedActionLowers(t, e);
        OutcomeFrame(base, Step(t, e));
        SizesOf(base, Step(t, e));
        LowerIsSmaller(Step(t, e), t, Bank(base));
      } else {
        RejectedActionChangesNothing(t, e.seat, e.action, e.fromSocket);
        SameBehind(t, Step(t, e));
        SameMeasure(t, Step(t, e), Bank(base));
      }
    }
  }

  lemma SameMeasure(t: Table, r: Table, bank: nat)
    requires r == t.(lastActor := r.lastActor) && Behind(r) == Behind(t)
    ensures Measure(r, bank) == Measure(t, bank)
  {}

  lemma MeasureNotNegative(t: Table, bank: nat)
    requires 0 <= Total(t.players, Chips, SEATS)
    ensures Measure(t, bank) >= 0
  {
    hide Total, Behind;
    assert StreetsLeft(t.round) * (121 * (bank + 1)) >= 0;
  }

  lemma MeasureAtMost(t: Table, bank: nat)
    requires Frame(t) && 0 <= Total(t.players, Chips, SEATS) <= bank && |t.pending| <= 10
    ensures Measure(t, bank) <= 605 * (bank + 1)
  {
    FewBehind(t);
    hide Total, Behind, Frame;
    var k := StreetsLeft(t.round);
    assert k <= 4;
    assert k * (121 * (bank + 1)) <= 4 * (121 * (bank + 1));
  }

  /**
    Every hand ends: whatever is sent, overflowing raises among it, at most 605 * (chips + 1)
    actions are accepted.
    */
  lemma EveryHandEndsAnyway(t: Table, shuffled: seq<Card>, es: seq<Event>)
    requires Ready(t) && Deals(t) && multiset(shuffled) == multiset(FullDeck())
    ensures AcceptedCount(StartHand(t, shuffled), es) <= 605 * (StartingChips(t) + 1)
  {
    hide Opening, StartHand, FullDeck, Outcome, Total, Ledger, Act, Measure, Frame;
    StartOutcome(t, shuffled);
    var base, s := Opening(t, shuffled), StartHand(t, shuffled);
    OpeningIsBetting(t, shuffled);
    OpeningPot(t, shuffled);
    StacksAreSound(base);
    SizesOf(base, s);
    OutcomeFrame(base, s);
    AcceptedAtMostMeasure(base, s, es);
    MeasureAtMost(s, Bank(base));
  }

  // ----- the exact condition, in every hand -----

  lemma {:induction false} ProceedKeepsLimits(t: Table)
    requires LimitsFit(t) && StreetsLeft(t.round) > 0
    ensures ProceedToNextStreet(t).round != HandOver ==> LimitsFit(ProceedToNextStreet(t))
    decreases StreetsLeft(t.round), 0
  {
    hide FinishHand, NextStreet, Walk;
    var t1 := NextStreet(t);
    NextStreetGoesOn(t);
    NextStreetTouches(t);
    FinishIsOver(t1);
    if t1.round != Showdown {
      RequestKeepsLimits(InitPending(t1, ActiveOffset(t1, t1.dealer, 1)));
    }
  }

  lemma {:induction false} RequestKeepsLimits(t: Table)
    requires LimitsFit(t) && StreetsLeft(t.round) > 0
    ensures RequestTurn(t).round != HandOver ==> LimitsFit(RequestTurn(t))
    decreases StreetsLeft(t.round), 1
  {
    hide FinishHand, NextClockwise, InHand, Actable;
    FinishIsOver(t);
    FinishIsOver(t.(round := Showdown));
    var t1 := RemoveIneligible(t);
    var t2 := t1.(active := SeatToAsk(t1));
    if |InHand(t)| > 1 && Actable(t) != {} && t2.active < 0 {
      ProceedKeepsLimits(t2);
    }
  }

  lemma AdvanceKeepsLimits(t: Table, seat: int)
    requires LimitsFit(t) && StreetsLeft(t.round) > 0
    ensures Advance(t, seat).round != HandOver ==> LimitsFit(Advance(t, seat))
  {
    hide FinishHand, NextClockwise, InHand, Actable, RequestTurn, ProceedToNextStreet;
    FinishIsOver(t);
    var t1 := RemoveIneligible(t);
    if |InHand(t)| > 1 {
      if t1.pending == {} {
        ProceedKeepsLimits(t1);
      } else {
        RequestKeepsLimits(t1.(active := NextActor(t1, seat)));
      }
    }
  }

  /** No bet is more than the chips on the table. */
  lemma BetsWithinBank(t: Table)
    requires Frame(t) && Ledger(t)
    ensures forall i :: i in t.players ==> t.players[i].currentBet <= Bank(t)
  {
    TotalNotNegative(t.players, Chips, SEATS);
    TotalNotNegative(t.players, Contribution, SEATS);
  }

  lemma ActionKeepsLimits(t: Table, seat: int, a: Action)
    requires Frame(t) && Ledger(t) && LimitsFit(t) && Bank(t) <= INT_MAX
    requires seat in t.players && !t.players[seat].folded && !t.players[seat].bankrupt && Legal(t, seat, a)
    ensures LimitsFit(Apply(t, seat, a))
  {
    ActionKeepsLedger(t, seat, a);
    BetsWithinBank(Apply(t, seat, a));
    hide Total, Signed, Bank, Actable;
  }

  lemma StepKeepsLimits(t: Table, e: Event)
    requires Live(t) && LimitsFit(t) && Bank(t) <= INT_MAX && Accepts(t, e.seat, e.action, e.fromSocket)
    ensures Step(t, e).round != HandOver ==> LimitsFit(Step(t, e))
  {
    hide Ledger, Cards, Bank, Apply, Advance, Signed;
    var t1 := t.(lastActor := e.seat);
    TurnChangesOnly(t, t1);
    LedgerIgnoresTurn(t, t1);
    CardsIgnoreTurn(t, t1);
    assert e.seat in Actable(t1);
    ActionKeepsBetting(t1, e.seat, e.action);
    ActionKeepsLimits(t1, e.seat, e.action);
    AdvanceKeepsLimits(Apply(t1, e.seat, e.action), e.seat);
  }

  lemma {:induction false} RunKeepsLimits(base: Table, t: Table, es: seq<Event>)
    requires Outcome(base, t) && Bank(base) <= INT_MAX && (t.round != HandOver ==> LimitsFit(t))
    ensures Run(t, es).round != HandOver ==> LimitsFit(Run(t, es))
    decreases |es|
  {
    hide Outcome, Act, LimitsFit, Bank, Accepts;
    if es != [] {
      var e := es[0];
      StepKeepsOutcome(base, t, e);
      if t.round == HandOver {
        OverForGood(base, t, e);
      } else if Accepts(t, e.seat, e.action, e.fromSocket) {
        AcceptedOnlyLive(base, t, e);
        LiveBank(base, t);
        StepKeepsLimits(t, e);
      } else {
        RejectedActionChangesNothing(t, e.seat, e.action, e.fromSocket);
        LimitsIgnoreActor(t, Step(t, e));
      }
      RunKeepsLimits(base, Step(t, e), es[1..]);
    }
  }

  lemma LiveBank(base: Table, t: Table)
    requires Outcome(base, t) && Live(t)
    ensures Bank(t) == Bank(base)
  {
    hide Ledger, Cards, Bank, AllCards, FullDeck, Unclaimed, Total;
  }

  lemma LimitsIgnoreActor(t: Table, r: Table)
    requires r == t.(lastActor := r.lastActor)
    ensures LimitsFit(r) <==> LimitsFit(t)
  {}

  /** A hand whose chips and big blind an int can hold. */
  ghost predicate Fits(t: Table) {
    StartingChips(t) <= INT_MAX && t.bigBlind <= INT_MAX
  }

  /** In such a hand the current maximum and the minimum raise fit at every point. */
  lemma LimitsStayInts(t: Table, shuffled: seq<Card>, es: seq<Event>)
    requires Ready(t) && Deals(t) && multiset(shuffled) == multiset(FullDeck()) && Fits(t)
    requires Run(StartHand(t, shuffled), es).round != HandOver
    ensures LimitsFit(Run(StartHand(t, shuffled), es))
  {
    hide Opening, StartHand, RequestTurn, FullDeck, Outcome, Act, Ledger, Total;
    OpeningIsBetting(t, shuffled);
    StartOutcome(t, shuffled);
    StartedFromOpening(t, shuffled);
    BettingStreets(Opening(t, shuffled));
    RequestKeepsLimits(Opening(t, shuffled));
    RunKeepsLimits(Opening(t, shuffled), StartHand(t, shuffled), es);
  }

  /**
    At every point of every hand: an accepted raise brings the hand forward exactly when its
    sum fits an int, or nobody who can act has acted yet; and it keeps the maximum above all
    bets exactly when its sum fits, or nobody has bet more than the raiser.
    */
  lemma RaiseIsSoundIff(t: Table, shuffled: seq<Card>, es: seq<Event>, e: Event)
    requires Ready(t) && Deals(t) && multiset(shuffled) == multiset(FullDeck()) && Fits(t)
    requires var r := Run(StartHand(t, shuffled), es);
      r.round != HandOver && Accepts(r, e.seat, e.action, e.fromSocket) && e.action.Raise?
    ensures var r := Run(StartHand(t, shuffled), es);
      && (Less(Step(r, e), r) <==> !Overflows(r, e.seat, e.action.raiseBy) || r.pending == Actable(r))
      && (Capped(r) ==> (Capped(Apply(r, e.seat, e.action)) <==> !LowersBelowBet(r, e.seat, e.action)))
  {
    hide Opening, StartHand, FullDeck, Outcome, Act, Run, Less, Capped, LowersBelowBet, Apply, LimitsFit, Overflows, FreeRaise;
    var r := Run(StartHand(t, shuffled), es);
    HandInvariant(t, shuffled, es);
    AcceptedOnlyLive(Opening(t, shuffled), r, e);
    LimitsStayInts(t, shuffled, es);
    AcceptedActionDescends(r, e);
    RaiseFacts(r, e);
  }

  lemma RaiseFacts(r: Table, e: Event)
    requires Live(r) && LimitsFit(r) && Accepts(r, e.seat, e.action, e.fromSocket) && e.action.Raise?
    ensures FreeRaise(r, e.seat, e.action) <==> Overflows(r, e.seat, e.action.raiseBy)
    ensures Capped(r) ==> (Capped(Apply(r, e.seat, e.action)) <==> !LowersBelowBet(r, e.seat, e.action))
  {
    hide Cards, Roster, Signed, Apply, FreeRaise, Overflows, LowersBelowBet, Actable, InHand, Capped;
    FreeIffOverflows(r, e.seat, e.action.raiseBy);
    if Capped(r) {
      ActionKeepsCap(r, e.seat, e.action);
    }
  }

  /** In such a hand the AI is never refused. */
  lemma AiIsNeverRefused(t: Table, shuffled: seq<Card>, es: seq<Event>, draw: real)
    requires Ready(t) && Deals(t) && multiset(shuffled) == multiset(FullDeck()) && Fits(t)
    requires Run(StartHand(t, shuffled), es).round != HandOver
    ensures var r := Run(StartHand(t, shuffled), es);
      r.active in r.players && Accepts(r, r.active, AiChoice(r, r.active, draw), false)
  {
    hide Opening, StartHand, FullDeck, Run, AiChoice, Accepts, Ledger, Cards;
    var r := Run(StartHand(t, shuffled), es);
    NoStall(t, shuffled, es);
    LimitsStayInts(t, shuffled, es);
    RunningIsLive(t, shuffled, es);
    AiActionIsAccepted(r, draw);
  }

  lemma RunningIsLive(t: Table, shuffled: seq<Card>, es: seq<Event>)
    requires Ready(t) && Deals(t) && multiset(shuffled) == multiset(FullDeck())
    requires Run(StartHand(t, shuffled), es).round != HandOver
    ensures Live(Run(StartHand(t, shuffled), es))
  {
    hide Opening, StartHand, FullDeck, Run, Ledger, Cards, Total, AllCards, Unclaimed;
    HandInvariant(t, shuffled, es);
  }

  // ----- a hand where it happens -----

  /** Three seats with a thousand chips each. */
  function EvenTable(): Table { ThreeSeats(1000, 1000, 1000) }

  /** The bets of the three seats, nobody having folded, before the flop. */
  ghost predicate Bets(t: Table, b0: int, b1: int, b2: int) {
    && ThreePlay(t) && t.round == PreFlop
    && Holds(t, 0, 1000 - b0, b0) && Holds(t, 1, 1000 - b1, b1) && Holds(t, 2, 1000 - b2, b2)
  }

  ghost predicate Waits(t: Table, active: int, pending: set<int>, maxBet: int) {
    t.active == active && t.pending == pending && t.currentMaxBet == maxBet
  }

  lemma AllCanAct(t: Table, b0: int, b1: int, b2: int)
    requires Bets(t, b0, b1, b2) && b0 < 1000 && b1 < 1000 && b2 < 1000
    ensures Actable(t) == {0, 1, 2} && InHand(t) == {0, 1, 2}
  {
    WhoIsIn(t);
  }

  lemma TurnOnly(s: Table, t: Table, b0: int, b1: int, b2: int)
    requires Bets(s, b0, b1, b2)
    requires t == s.(active := t.active, pending := t.pending, lastActor := t.lastActor, currentMaxBet := t.currentMaxBet,
                     minRaise := t.minRaise)
    ensures Bets(t, b0, b1, b2)
  {}

  lemma CallPaysHundred(t: Table)
    requires Bets(t, 0, 50, 100) && Waits(t, 0, {0, 1, 2}, 100)
    ensures Accepts(t, 0, Call, true)
    ensures var v := Apply(t.(lastActor := 0), 0, Call);
      && Bets(v, 100, 50, 100) && v.pending == {1, 2} && v.currentMaxBet == 100 && v.minRaise == t.minRaise
  {}

  /** Seat 0 calls the big blind, and seat 1 is asked. */
  lemma SeatZeroCalls(t: Table)
    requires Bets(t, 0, 50, 100) && Waits(t, 0, {0, 1, 2}, 100)
    ensures Accepts(t, 0, Call, true)
    ensures var u := Act(t, 0, Call, true); Bets(u, 100, 50, 100) && Waits(u, 1, {1, 2}, 100) && u.minRaise == t.minRaise
  {
    hide Apply, Actable, InHand, Advance, Bets;
    CallPaysHundred(t);
    var v := Apply(t.(lastActor := 0), 0, Call);
    AllCanAct(v, 100, 50, 100);
    AdvanceAsks(v, 0);
    assert NextActor(v, 0) == 1;
    TurnOnly(v, Act(t, 0, Call, true), 100, 50, 100);
  }

  lemma RaisePaysNothing(t: Table)
    requires Bets(t, 100, 50, 100) && Waits(t, 1, {1, 2}, 100) && t.minRaise == 100
    ensures Accepts(t, 1, Raise(INT_MAX), true) && Overflows(t, 1, INT_MAX)
    ensures Apply(t.(lastActor := 1), 1, Raise(INT_MAX)) ==
      t.(lastActor := 1, currentMaxBet := 50, minRaise := INT_MAX, pending := {0, 2})
  {
    var t1 := t.(lastActor := 1);
    TurnOnly(t, t1, 100, 50, 100);
    AllCanAct(t1, 100, 50, 100);
    hide Actable, InHand, Apply, Signed;
    SignedIs(CallAmount(t1, 1) + INT_MAX);
    FreeRaiseEffect(t1, 1, Raise(INT_MAX));
    assert {0, 1, 2} - {1} == {0, 2};
  }

  /** Seat 1 raises by INT_MAX: nothing is paid, and its own bet is the maximum. */
  lemma SeatOneRaises(t: Table)
    requires Bets(t, 100, 50, 100) && Waits(t, 1, {1, 2}, 100) && t.minRaise == 100
    ensures Accepts(t, 1, Raise(INT_MAX), true) && Overflows(t, 1, INT_MAX) && !Less(Act(t, 1, Raise(INT_MAX), true), t)
    ensures var u := Act(t, 1, Raise(INT_MAX), true); Bets(u, 100, 50, 100) && Waits(u, 2, {0, 2}, 50)
  {
    hide Apply, Actable, InHand, Advance, Signed, Total, Bets;
    RaisePaysNothing(t);
    var v := Apply(t.(lastActor := 1), 1, Raise(INT_MAX));
    TurnOnly(t, v, 100, 50, 100);
    AllCanAct(v, 100, 50, 100);
    AdvanceAsks(v, 1);
    assert NextActor(v, 1) == 2;
    TurnOnly(v, Act(t, 1, Raise(INT_MAX), true), 100, 50, 100);
  }

  /** Seat 2 checks with more bet than the maximum. */
  lemma SeatTwoChecks(t: Table)
    requires Bets(t, 100, 50, 100) && Waits(t, 2, {0, 2}, 50)
    ensures Accepts(t, 2, Check, true)
    ensures var u := Act(t, 2, Check, true); Bets(u, 100, 50, 100) && Waits(u, 0, {0}, 50)
  {
    AllCanAct(t, 100, 50, 100);
    var v := Apply(t.(lastActor := 2), 2, Check);
    TurnOnly(t, v, 100, 50, 100);
    AllCanAct(v, 100, 50, 100);
    assert v.pending == {0};
    hide Apply, Actable, InHand, Advance, NextActor;
    AdvanceAsks(v, 2);
    TurnOnly(v, Act(t, 2, Check, true), 100, 50, 100);
  }

  /** Seat 0 calls, seat 1 raises by INT_MAX, seat 2 checks. */
  const CALL_AND_OVERFLOW := [Event(0, Call, true), Event(1, Raise(INT_MAX), true)]
  const OVERFLOW_AND_CHECK := CALL_AND_OVERFLOW + [Event(2, Check, true)]

  lemma TwoThenThree(t: Table, e: Event, f: Event, g: Event)
    ensures Run(t, [e]) == Step(t, e) && Run(t, [e, f]) == Step(Step(t, e), f)
    ensures Run(t, [e, f] + [g]) == Step(Step(Step(t, e), f), g)
  {
    hide Step;
    var a, b := Step(t, e), Step(Step(t, e), f);
    assert [e][1..] == [] && [e, f][1..] == [f] && [f][1..] == [];
    assert ([e, f] + [g])[1..] == [f, g] && [f, g][1..] == [g] && [g][1..] == [];
    assert Run(a, []) == a && Run(b, [g]) == Run(Step(b, g), []) && Run(b, []) == b;
    assert Run(a, [f]) == Run(b, []) && Run(a, [f, g]) == Run(b, [g]);
  }

  /**
    For every shuffle: seat 1 raises by INT_MAX facing a bet of 50.  The raise is accepted,
    moves no chip, reopens the betting, and leaves the current maximum at 50 with bets of 100
    on the table; seat 2 then checks without having matched it.
    */
  lemma OverflowBreaksTheBets(shuffled: seq<Card>)
    ensures Ready(EvenTable()) && Deals(EvenTable()) && Fits(EvenTable())
    ensures var s := StartHand(EvenTable(), shuffled);
      var called, raised := Run(s, [Event(0, Call, true)]), Run(s, CALL_AND_OVERFLOW);
      && Accepts(called, 1, Raise(INT_MAX), true) && Overflows(called, 1, INT_MAX)
      && raised.round == PreFlop && !Less(raised, called) && !Capped(raised)
    ensures !MatchedExactly(Run(StartHand(EvenTable(), shuffled), OVERFLOW_AND_CHECK))
  {
    ThreeAreReady(1000, 1000, 1000);
    ThreeStart(1000, 1000, 1000, shuffled);
    ThreeOpening(1000, 1000, 1000, shuffled);
    hide Opening, StartHand, Act, Accepts, Overflows, Less, Ready, Deals, StartingChips;
    var s := StartHand(EvenTable(), shuffled);
    AllCanAct(s, 0, 50, 100);
    SeatZeroCalls(s);
    var called := Step(s, Event(0, Call, true));
    SeatOneRaises(called);
    var raised := Step(called, Event(1, Raise(INT_MAX), true));
    SeatTwoChecks(raised);
    TwoThenThree(s, Event(0, Call, true), Event(1, Raise(INT_MAX), true), Event(2, Check, true));
    NotMatched(Step(raised, Event(2, Check, true)));
    assert raised.players[0].currentBet > raised.currentMaxBet;
  }

  lemma NotMatched(t: Table)
    requires Bets(t, 100, 50, 100) && Waits(t, 0, {0}, 50)
    ensures !MatchedExactly(t)
  {
    AllCanAct(t, 100, 50, 100);
    assert 2 in Actable(t) && 2 !in t.pending;
  }
}
