/**
  Raises over a whole hand: the minimum raise is always the most that any action so far has
  lifted the bet above the maximum, the big blind counting as the first of them.
  */
module HandRaises {
  import opened Common
  import opened HoldemTypes
  import opened Settlement
  import opened TableState
  import opened HandRules
  import opened HandLedger
  import opened HandCards
  import opened HandPlay
  import opened HandStart
  import opened HandTheorems
  import opened HandTurns
  import opened HandMoves
  import opened HandOpening
  import opened HandOverflow

  // ----- how far an action lifted the bet -----

  /** The bet of seat i before the action and what it put in, above the maximum before it. */
  ghost function LiftOf(a: Table, b: Table, i: int): int {
    if i in a.players && i in b.players
    then a.players[i].currentBet + (b.players[i].contribution - a.players[i].contribution) - a.currentMaxBet
    else 0
  }

  /** What event k of the run lifted the bet by. */
  ghost function LiftAt(s: Table, es: seq<Event>, k: nat): int
    requires k < |es|
  {
    LiftOf(Run(s, es[..k]), Run(s, es[..k + 1]), es[k].seat)
  }

  /** The largest of the lifts so far and the given floor. */
  ghost function Largest(s: Table, es: seq<Event>, floor: int): int {
    if es == [] then floor else Max(Largest(s, es[..|es| - 1], floor), LiftAt(s, es, |es| - 1))
  }

  lemma {:induction false} LargestCovers(s: Table, es: seq<Event>, floor: int)
    ensures Largest(s, es, floor) >= floor
    ensures forall k: nat :: k < |es| ==> Largest(s, es, floor) >= LiftAt(s, es, k)
    ensures Largest(s, es, floor) == floor || exists k: nat :: k < |es| && Largest(s, es, floor) == LiftAt(s, es, k)
  {
    hide LiftOf, Run;
    if es != [] {
      var init := es[..|es| - 1];
      LargestCovers(s, init, floor);
      forall k: nat | k < |init| ensures LiftAt(s, init, k) == LiftAt(s, es, k) {
        assert init[..k] == es[..k] && init[..k + 1] == es[..k + 1];
      }
    }
  }

  /** No accepted raise so far came to more than an int holds. */
  ghost predicate SumsFit(s: Table, es: seq<Event>) {
    forall k: nat :: k < |es| ==> RaiseFits(Run(s, es[..k]), es[k])
  }

  ghost predicate RaiseFits(a: Table, e: Event) {
    Accepts(a, e.seat, e.action, e.fromSocket) && e.action.Raise? ==> !TooLarge(a, e.seat, e.action.raiseBy)
  }

  lemma {:induction false} RunLast(t: Table, es: seq<Event>)
    requires es != []
    ensures Run(t, es) == Step(Run(t, es[..|es| - 1]), es[|es| - 1])
    decreases |es|
  {
    hide Step;
    if |es| == 1 {
      assert es[1..] == [];
      assert Run(t, es) == Run(Step(t, es[0]), []);
    } else {
      RunLast(Step(t, es[0]), es[1..]);
      assert es[1..][..|es| - 2] == es[..|es| - 1][1..];
    }
  }

  // ----- one event -----

  /** What the invariant says while the hand runs. */
  ghost predicate Raised(t: Table, largest: int) {
    t.minRaise == largest && Capped(t) && LimitsFit(t)
  }

  lemma AcceptedLift(t: Table, e: Event)
    requires Live(t) && Capped(t) && LimitsFit(t) && Accepts(t, e.seat, e.action, e.fromSocket) && RaiseFits(t, e)
    ensures var u := Step(t, e);
      && u.minRaise == Max(t.minRaise, LiftOf(t, u, e.seat))
      && (e.action.Raise? ==> LiftOf(t, u, e.seat) == e.action.raiseBy)
  {
    ActorIsIn(t, t.active);
    AcceptedIff(t, e);
    hide Ledger, Cards, Roster, Act, Accepts, GoesOn, InHand, Actable;
    var v := ActionMeaning(t, e);
    LiveStreets(t);
    ActorKeeps(v, e.seat, Step(t, e));
  }

  lemma LiveStreets(t: Table)
    requires Live(t)
    ensures StreetsLeft(t.round) > 0
  {}

  lemma RejectedLift(t: Table, u: Table, i: int)
    requires Capped(t) && t.minRaise > 0 && u == t.(lastActor := u.lastActor)
    ensures u.minRaise == Max(t.minRaise, LiftOf(t, u, i)) && Capped(u)
  {}

  lemma EventKeepsRaised(base: Table, t: Table, e: Event, largest: int)
    requires Outcome(base, t) && t.round != HandOver && Step(t, e).round != HandOver && RaiseFits(t, e)
    requires Raised(t, largest) && LimitsFit(Step(t, e))
    ensures Raised(Step(t, e), Max(largest, LiftOf(t, Step(t, e), e.seat)))
  {
    hide Outcome, Act, Accepts, LiftOf, LimitsFit, Capped, LowersBelowBet;
    if Accepts(t, e.seat, e.action, e.fromSocket) {
      AcceptedOnlyLive(base, t, e);
      AcceptedLift(t, e);
      StepKeepsCap(t, e);
      FittingNeverLowers(t, e);
      StepKeepsRound(t, e);
    } else {
      RejectedActionChangesNothing(t, e.seat, e.action, e.fromSocket);
      PositiveMinRaise(t);
      RejectedLift(t, Step(t, e), e.seat);
    }
  }

  lemma PositiveMinRaise(t: Table)
    requires LimitsFit(t)
    ensures t.minRaise > 0
  {}

  lemma FittingNeverLowers(t: Table, e: Event)
    requires Accepts(t, e.seat, e.action, e.fromSocket) && RaiseFits(t, e)
    ensures !LowersBelowBet(t, e.seat, e.action)
  {
    hide Signed;
  }

  lemma StepKeepsRound(t: Table, e: Event)
    requires Live(t) && Capped(t) && Accepts(t, e.seat, e.action, e.fromSocket) && Step(t, e).round != HandOver
    requires !LowersBelowBet(t, e.seat, e.action)
    ensures Capped(Step(t, e))
  {
    hide Ledger, Cards, Roster, Act, Accepts, Capped, LowersBelowBet;
    StepKeepsCap(t, e);
  }

  // ----- the whole hand -----

  lemma StartRaised(t: Table, shuffled: seq<Card>)
    requires Ready(t) && Deals(t) && multiset(shuffled) == multiset(FullDeck()) && Fits(t)
    requires StartHand(t, shuffled).round != HandOver
    ensures Raised(StartHand(t, shuffled), t.bigBlind)
  {
    StartMeaning(t, shuffled);
    NothingRun(StartHand(t, shuffled));
    LimitsStayInts(t, shuffled, []);
    hide StartHand, Opened, Fits, FullDeck;
    ReadyBlinds(t);
    BlindsAreCapped(t, StartHand(t, shuffled));
  }

  lemma ReadyBlinds(t: Table)
    requires Ready(t)
    ensures 0 < t.smallBlind <= t.bigBlind
  {}

  lemma BlindsAreCapped(t: Table, u: Table)
    requires Opened(t, u) && BlindsAreBets(t, u) && 0 < t.smallBlind <= t.bigBlind
    ensures Capped(u)
  {
    hide Nearest, DealtIn, SitsDownWith, Taken;
  }

  /** The minimum raise is the largest lift so far, and no bet is above the maximum. */
  lemma {:induction false} MinRaiseIsLargest(t: Table, shuffled: seq<Card>, es: seq<Event>)
    requires Ready(t) && Deals(t) && multiset(shuffled) == multiset(FullDeck()) && Fits(t)
    requires SumsFit(StartHand(t, shuffled), es) && Run(StartHand(t, shuffled), es).round != HandOver
    ensures Raised(Run(StartHand(t, shuffled), es), Largest(StartHand(t, shuffled), es, t.bigBlind))
    decreases |es|
  {
    hide Opening, StartHand, FullDeck, Outcome, Act, LiftOf, Ready, Deals, Fits, Raised, RaiseFits, Run;
    var s := StartHand(t, shuffled);
    if es == [] {
      NothingRun(s);
      StartRaised(t, shuffled);
    } else {
      var init, e := es[..|es| - 1], es[|es| - 1];
      var before := Run(s, init);
      RunLast(s, es);
      HandInvariant(t, shuffled, init);
      if before.round == HandOver {
        OverForGood(Opening(t, shuffled), before, e);
      } else {
        PrefixFits(s, es);
        MinRaiseIsLargest(t, shuffled, init);
        LimitsStayInts(t, shuffled, es);
        EventKeepsRaised(Opening(t, shuffled), before, e, Largest(s, init, t.bigBlind));
        assert es[..|es|] == es;
      }
    }
  }

  lemma NothingRun(s: Table)
    ensures Run(s, []) == s
  {}

  lemma PrefixFits(s: Table, es: seq<Event>)
    requires es != [] && SumsFit(s, es)
    ensures SumsFit(s, es[..|es| - 1]) && RaiseFits(Run(s, es[..|es| - 1]), es[|es| - 1])
  {
    hide RaiseFits, Run;
    var init := es[..|es| - 1];
    forall k: nat | k < |init| ensures RaiseFits(Run(s, init[..k]), init[k]) {
      assert init[..k] == es[..k];
    }
  }

  /** At least the big blind, and no less than any raise or all-in of the hand so far has lifted the bet by. */
  ghost predicate EnoughToRaise(s: Table, es: seq<Event>, bigBlind: int, raiseBy: int) {
    raiseBy >= bigBlind && forall k: nat :: k < |es| ==> raiseBy >= LiftAt(s, es, k)
  }

  /** The seat is on turn, the amount is enough, and it has the chips, or the sum does not fit. */
  ghost predicate MayRaise(s: Table, es: seq<Event>, bigBlind: int, r: Table, e: Event)
    requires e.action.Raise?
  {
    && e.seat == r.active && e.seat in r.players && (e.fromSocket ==> HumanAt(r, e.seat))
    && EnoughToRaise(s, es, bigBlind, e.action.raiseBy)
    && (r.players[e.seat].chips >= Owes(r, e.seat) + e.action.raiseBy || TooLarge(r, e.seat, e.action.raiseBy))
  }

  /**
    At every point of every hand whose raises have fitted an int so far: a raise is accepted
    exactly when the seat is on turn, the amount is enough, and the seat has the chips or the
    sum does not fit.
    */
  lemma RaiseAcceptedIff(t: Table, shuffled: seq<Card>, es: seq<Event>, e: Event)
    requires Ready(t) && Deals(t) && multiset(shuffled) == multiset(FullDeck()) && Fits(t) && e.action.Raise?
    requires SumsFit(StartHand(t, shuffled), es) && Run(StartHand(t, shuffled), es).round != HandOver
    ensures Accepts(Run(StartHand(t, shuffled), es), e.seat, e.action, e.fromSocket) <==>
      MayRaise(StartHand(t, shuffled), es, t.bigBlind, Run(StartHand(t, shuffled), es), e)
  {
    MinRaiseIsLargest(t, shuffled, es);
    RunningIsLive(t, shuffled, es);
    hide Live, StartHand, Run, FullDeck, Ready, Deals, Fits, SumsFit, Largest, EnoughToRaise;
    RaiseAllowed(StartHand(t, shuffled), es, t.bigBlind, Run(StartHand(t, shuffled), es), e);
  }

  lemma RaiseAllowed(s: Table, es: seq<Event>, bigBlind: int, r: Table, e: Event)
    requires Live(r) && Raised(r, Largest(s, es, bigBlind)) && e.action.Raise?
    ensures Accepts(r, e.seat, e.action, e.fromSocket) <==> MayRaise(s, es, bigBlind, r, e)
  {
    AcceptedIff(r, e);
    EnoughIff(s, es, bigBlind, e.action.raiseBy);
    hide Live, Accepts, Largest, EnoughToRaise, Capped, LimitsFit;
  }

  /**
    A refused raise moves nothing.  An accepted one whose sum fits lifts the bet by its amount
    above the maximum: at least the big blind, and no less than anything before it.
    */
  lemma RaiseLifts(t: Table, shuffled: seq<Card>, es: seq<Event>, e: Event)
    requires Ready(t) && Deals(t) && multiset(shuffled) == multiset(FullDeck()) && Fits(t) && e.action.Raise?
    requires SumsFit(StartHand(t, shuffled), es) && Run(StartHand(t, shuffled), es).round != HandOver
    ensures var s, r := StartHand(t, shuffled), Run(StartHand(t, shuffled), es);
      var u := Step(r, e);
      if Accepts(r, e.seat, e.action, e.fromSocket)
      then RaiseFits(r, e) ==> LiftOf(r, u, e.seat) == e.action.raiseBy && EnoughToRaise(s, es, t.bigBlind, e.action.raiseBy)
      else u == r.(lastActor := u.lastActor)
  {
    MinRaiseIsLargest(t, shuffled, es);
    RunningIsLive(t, shuffled, es);
    RaiseAcceptedIff(t, shuffled, es, e);
    hide Live, StartHand, Run, FullDeck, Ready, Deals, Fits, SumsFit, Largest, EnoughToRaise, Act, Accepts, LiftOf;
    hide LimitsFit, Capped;
    var r := Run(StartHand(t, shuffled), es);
    if Accepts(r, e.seat, e.action, e.fromSocket) {
      if RaiseFits(r, e) {
        AcceptedLift(r, e);
      }
    } else {
      RejectedActionChangesNothing(r, e.seat, e.action, e.fromSocket);
    }
  }

  lemma EnoughIff(s: Table, es: seq<Event>, floor: int, raiseBy: int)
    ensures EnoughToRaise(s, es, floor, raiseBy) <==> raiseBy >= Largest(s, es, floor)
  {
    hide LiftAt;
    LargestCovers(s, es, floor);
  }
}
