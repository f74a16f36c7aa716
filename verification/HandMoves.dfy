/**
  What one action does to the fields of a running hand: when it is accepted, what the actor
  puts in, what becomes of the bet limits and the pending seats, and who is asked next.
  */
module HandMoves {
  import opened Common
  import opened HoldemTypes
  import opened HoldemEvaluator
  import opened PotManager
  import opened Settlement
  import opened TableState
  import opened HandRules
  import opened HandLedger
  import opened HandCards
  import opened HandPlay
  import opened HandStart
  import opened HandTheorems
  import opened HandTurns

  // ----- an action, told by fields -----

  ghost function Owes(t: Table, i: int): int
    requires i in t.players
  {
    Max(0, t.currentMaxBet - t.players[i].currentBet)
  }

  /** The sum a raise comes to is more than an int holds. */
  ghost predicate TooLarge(t: Table, i: int, raiseBy: int)
    requires i in t.players
  {
    Owes(t, i) + raiseBy > INT_MAX
  }

  /** What the actor puts in. */
  ghost function Puts(t: Table, i: int, a: Action): int
    requires i in t.players
  {
    match a
    case Call => Min(Owes(t, i), t.players[i].chips)
    case Raise(raiseBy) => if TooLarge(t, i, raiseBy) then 0 else Owes(t, i) + raiseBy
    case AllIn => t.players[i].chips
    case _ => 0
  }

  /** How far the actor's bet comes to lie above the maximum. */
  ghost function Lifts(t: Table, i: int, a: Action): int
    requires i in t.players
  {
    t.players[i].currentBet + Puts(t, i, a) - t.currentMaxBet
  }

  /** A raise, or an all-in above the maximum by no less than the minimum raise. */
  ghost predicate Reopens(t: Table, i: int, a: Action)
    requires i in t.players
  {
    a.Raise? || (a == AllIn && Lifts(t, i, a) >= t.minRaise)
  }

  /** Whether the seat on turn may do this. */
  ghost predicate Allowed(t: Table, i: int, a: Action)
    requires i in t.players
  {
    match a
    case Fold => true
    case Check => t.players[i].currentBet >= t.currentMaxBet
    case Call => true
    case Raise(raiseBy) =>
      raiseBy >= t.minRaise && (t.players[i].chips >= Owes(t, i) + raiseBy || TooLarge(t, i, raiseBy))
    case AllIn => true
    case Unsupported => false
  }

  /** The actor's stack, bet and contribution, everybody else's left alone. */
  ghost predicate PaidBy(t: Table, i: int, a: Action, v: Table) {
    && i in t.players && v.players.Keys == t.players.Keys
    && (forall j :: j in t.players && j != i ==> v.players[j] == t.players[j])
    && var put := Puts(t, i, a);
      && v.players[i] == t.players[i].(chips := t.players[i].chips - put, currentBet := t.players[i].currentBet + put,
                                       contribution := t.players[i].contribution + put, folded := a == Fold)
      && v.pot == t.pot + put
  }

  /** The bet limits and the seats still to act. */
  ghost predicate LimitedBy(t: Table, i: int, a: Action, v: Table) {
    && i in t.players && i in v.players
    && v.currentMaxBet == (if a.Raise? then v.players[i].currentBet
                           else if a == AllIn then Max(t.currentMaxBet, v.players[i].currentBet) else t.currentMaxBet)
    && v.minRaise == (if a.Raise? then a.raiseBy else if Reopens(t, i, a) then Lifts(t, i, a) else t.minRaise)
    && v.pending == (if Reopens(t, i, a) then CanAct(v) else t.pending) - {i}
  }

  /** Nothing else has changed. */
  ghost predicate OnlyPlayed(t: Table, i: int, v: Table) {
    v == t.(players := v.players, pot := v.pot, currentMaxBet := v.currentMaxBet, minRaise := v.minRaise,
            pending := v.pending, lastActor := i)
  }

  /** v is t when i has acted and the turn has not moved yet. */
  ghost predicate Played(t: Table, i: int, a: Action, v: Table) {
    PaidBy(t, i, a, v) && LimitedBy(t, i, a, v) && OnlyPlayed(t, i, v)
  }

  /** Contributions, folds and cards are those of v. */
  ghost predicate SettledFrom(v: Table, u: Table) {
    && u.round == HandOver && u.players.Keys == v.players.Keys
    && u.seats == v.seats && u.handNum == v.handNum && u.dealer == v.dealer && u.sb == v.sb && u.bb == v.bb
    && u.minRaise == v.minRaise && u.smallBlind == v.smallBlind && u.bigBlind == v.bigBlind && u.initialChips == v.initialChips
    && u.turnNonce == v.turnNonce && u.lastActor == v.lastActor
    && u.pot == 0 && u.pending == {} && u.active == -1 && v.board <= u.board
    && forall j :: j in v.players ==>
         u.players[j] == v.players[j].(chips := u.players[j].chips, currentBet := u.players[j].currentBet)
  }

  /**
    How the hand goes on from v: over when one seat is left, or nobody is pending and either
    the river was played or nobody can act; otherwise the nearest pending seat is asked, or
    the next street opens with the nearest seat from the dealer.
    */
  ghost predicate GoesOn(v: Table, i: int, u: Table) {
    if |Staying(v)| <= 1 || (v.pending == {} && (CanAct(v) == {} || v.round == River)) then SettledFrom(v, u)
    else if v.pending != {} then u == v.(active := u.active) && Nearest(i, v.pending, u.active)
    else
      && u.round == Following(v.round) && BetsTakenIn(v, u)
      && u.currentMaxBet == 0 && u.minRaise == v.minRaise && u.pot == v.pot
      && u.pending == CanAct(u) == CanAct(v) && Nearest(v.dealer, CanAct(u), u.active)
  }

  // ----- acceptance -----

  predicate HumanAt(t: Table, i: int) {
    0 <= i < |t.seats| && t.seats[i].kind == Human
  }

  /** handle_action accepts exactly the allowed actions of the active seat. */
  lemma AcceptedIff(t: Table, e: Event)
    requires Live(t) && LimitsFit(t)
    ensures t.active in t.players
    ensures Accepts(t, e.seat, e.action, e.fromSocket) <==>
      && e.seat == t.active && (e.fromSocket ==> HumanAt(t, e.seat))
      && Allowed(t, e.seat, e.action)
  {
    hide Ledger, Cards, Signed;
    assert t.active in Actable(t);
    if e.action.Raise? {
      SoundStack(t, t.active);
      SignedIs(Owes(t, t.active) + e.action.raiseBy);
    }
  }

  lemma SoundStack(t: Table, i: int)
    requires Ledger(t) && i in t.players
    ensures StackOk(t.players[i])
  {}

  // ----- what the action does -----

  lemma RaisePaid(t: Table, i: int, raiseBy: int32)
    requires LimitsFit(t) && i in t.players && StackOk(t.players[i]) && raiseBy >= t.minRaise
    requires !t.players[i].folded && !t.players[i].bankrupt && Allowed(t, i, Raise(raiseBy))
    ensures PaidBy(t, i, Raise(raiseBy), ApplyRaise(t, i, raiseBy))
  {
    hide Signed, Actable;
    SignedIs(Owes(t, i) + raiseBy);
  }

  lemma ActionPays(t: Table, i: int, a: Action)
    requires LimitsFit(t) && i in t.players && StackOk(t.players[i]) && Legal(t, i, a) && Allowed(t, i, a)
    requires !t.players[i].folded && !t.players[i].bankrupt
    ensures PaidBy(t, i, a, Apply(t, i, a))
  {
    hide Signed, Actable, ApplyRaise;
    if a.Raise? {
      RaisePaid(t, i, a.raiseBy);
      hide PaidBy;
    }
  }

  lemma ActionLimits(t: Table, i: int, a: Action)
    requires i in t.players && StackOk(t.players[i]) && Legal(t, i, a) && t.minRaise > 0
    requires !t.players[i].folded && !t.players[i].bankrupt
    requires Roster(Apply(t, i, a)) && PaidBy(t, i, a, Apply(t, i, a))
    ensures LimitedBy(t, i, a, Apply(t, i, a))
  {
    hide Signed, Actable;
    var v := Apply(t, i, a);
    RosterMeans(v);
    ReopenedFrom(t, i, a);
  }

  /** Bets and chips of the others do not change who can act. */
  lemma ReopenedFrom(t: Table, i: int, a: Action)
    requires i in t.players
    ensures a.Raise? ==> Apply(t, i, a).pending == Actable(Apply(t, i, a)) - {i}
    ensures
      && a == AllIn && Lifts(t, i, a) >= t.minRaise > 0
      && StackOk(t.players[i]) && !t.players[i].folded && !t.players[i].bankrupt
      ==> Apply(t, i, a).pending == Actable(Apply(t, i, a)) - {i}
  {
    hide Signed, Actable;
    var v := Apply(t, i, a);
    if a.Raise? {
      var t1 := PlaceBet(t, i, RaiseAmount(t, i, a.raiseBy));
      PendingIgnored(t1.(currentMaxBet := v.currentMaxBet, minRaise := v.minRaise), v);
    } else if a == AllIn && Lifts(t, i, a) >= t.minRaise > 0
              && StackOk(t.players[i]) && !t.players[i].folded && !t.players[i].bankrupt
    {
      var t1 := PlaceBet(t, i, t.players[i].chips);
      PendingIgnored(t1.(currentMaxBet := v.currentMaxBet, minRaise := v.minRaise), v);
    }
  }

  lemma PendingIgnored(a: Table, b: Table)
    requires b == a.(pending := b.pending)
    ensures Actable(b) == Actable(a)
  {
    TurnChangesOnly(a, b);
  }

  lemma ActionOnly(t: Table, i: int, a: Action)
    requires i in t.players && a != Unsupported
    ensures OnlyPlayed(t, t.lastActor, Apply(t, i, a))
  {
    hide Signed, Actable;
  }

  /** From a table whose last actor is already i. */
  lemma ApplyIsPlayed(t: Table, i: int, a: Action)
    requires Betting(t) && LimitsFit(t) && i in InHand(t) && Legal(t, i, a) && Allowed(t, i, a) && t.lastActor == i
    ensures Played(t, i, a, Apply(t, i, a)) && Betting(Apply(t, i, a))
  {
    ActionKeepsBetting(t, i, a);
    hide Cards, Apply, Legal, Allowed, PaidBy, LimitedBy, OnlyPlayed;
    ActionPays(t, i, a);
    ActionLimits(t, i, a);
    ActionOnly(t, i, a);
  }

  /** Recording the actor changes nothing the action reads. */
  lemma PlayedFromBefore(t: Table, i: int, a: Action, v: Table)
    requires Played(t.(lastActor := i), i, a, v)
    ensures Played(t, i, a, v)
  {}

  // ----- settling -----

  lemma FinishSettles(t: Table)
    ensures SettledFrom(t, FinishHand(t))
  {
    hide PotsOf, Payout, Best, Contributors, AmountSum;
    var t0 := t.(pending := {}, active := -1);
    BoardGrows(t0, if |t0.board| < 5 then 5 - |t0.board| else 0);
    DealCommunityKeepsRound(t0, if |t0.board| < 5 then 5 - |t0.board| else 0);
  }

  lemma {:induction false} BoardGrows(t: Table, n: nat)
    ensures t.board <= DealCommunity(t, n).board
    decreases n
  {
    if n > 0 && t.deck != [] {
      var last := |t.deck| - 1;
      BoardGrows(t.(board := t.board + [t.deck[last]], deck := t.deck[..last]), n - 1);
    }
  }

  lemma NextStreetSettles(t: Table, u: Table)
    requires SettledFrom(NextStreet(t), u)
    ensures SettledFrom(t, u)
  {
    hide DealCommunity;
    var t1 := t.(players := ClearBets(t.players), currentMaxBet := 0);
    BoardGrows(t1.(round := Flop), 3);
    BoardGrows(t1.(round := Turn), 1);
    BoardGrows(t1.(round := River), 1);
    DealCommunityKeepsRound(t1.(round := Flop), 3);
    DealCommunityKeepsRound(t1.(round := Turn), 1);
    DealCommunityKeepsRound(t1.(round := River), 1);
  }

  lemma {:induction false} ProceedSettles(t: Table)
    requires StreetsLeft(t.round) > 0 && ProceedToNextStreet(t).round == HandOver
    ensures SettledFrom(t, ProceedToNextStreet(t))
    decreases StreetsLeft(t.round), 0
  {
    hide FinishHand, NextStreet, Walk, SettledFrom;
    var t1 := NextStreet(t);
    NextStreetGoesOn(t);
    NextStreetTouches(t);
    if t1.round == Showdown {
      FinishSettles(t1);
    } else {
      RequestSettles(InitPending(t1, ActiveOffset(t1, t1.dealer, 1)));
      TurnSettles(t1, InitPending(t1, ActiveOffset(t1, t1.dealer, 1)), ProceedToNextStreet(t));
    }
    NextStreetSettles(t, ProceedToNextStreet(t));
  }

  lemma TurnSettles(a: Table, b: Table, u: Table)
    requires b == a.(pending := b.pending, active := b.active, round := b.round)
    ensures SettledFrom(a, u) <==> SettledFrom(b, u)
  {}

  lemma {:induction false} RequestSettles(t: Table)
    requires StreetsLeft(t.round) > 0 && RequestTurn(t).round == HandOver
    ensures SettledFrom(t, RequestTurn(t))
    decreases StreetsLeft(t.round), 1
  {
    hide FinishHand, NextClockwise, InHand, Actable, SettledFrom;
    var t3 := t.(round := Showdown);
    FinishSettles(t);
    FinishSettles(t3);
    TurnSettles(t, t3, RequestTurn(t));
    var t1 := RemoveIneligible(t);
    var t2 := t1.(active := SeatToAsk(t1));
    TurnSettles(t, t2, RequestTurn(t));
    if |InHand(t)| > 1 && Actable(t) != {} && t2.active < 0 {
      ProceedSettles(t2);
    }
  }

  lemma AdvanceSettles(t: Table, seat: int)
    requires StreetsLeft(t.round) > 0 && Advance(t, seat).round == HandOver
    ensures SettledFrom(t, Advance(t, seat))
  {
    hide FinishHand, NextClockwise, InHand, Actable, SettledFrom, RequestTurn, ProceedToNextStreet;
    FinishSettles(t);
    var t1 := RemoveIneligible(t);
    TurnSettles(t, t1, Advance(t, seat));
    if |InHand(t)| > 1 {
      if t1.pending == {} {
        ProceedSettles(t1);
      } else {
        var t2 := t1.(active := NextActor(t1, seat));
        TurnSettles(t1, t2, Advance(t, seat));
        RequestSettles(t2);
      }
    }
  }

  // ----- the whole step -----

  lemma AdvanceGoesOn(v: Table, seat: int)
    requires Betting(v) && 0 <= seat < SEATS
    ensures GoesOn(v, seat, Advance(v, seat))
  {
    AdvanceMeans(v, seat);
    BettingStreets(v);
    hide Betting, Advance, SettledFrom, BetsTakenIn, Nearest, CanAct, Staying;
    if Advance(v, seat).round == HandOver {
      AdvanceSettles(v, seat);
    }
    FollowingStreets(v.round);
  }

  lemma FollowingStreets(r: Round)
    ensures r != River && StreetsLeft(r) > 0 ==> Following(r) != HandOver
  {}

  /**
    Every accepted action of a running hand, by fields: v is the table once the actor has
    played, and the hand goes on from it.
    */
  lemma ActionMeaning(t: Table, e: Event) returns (v: Table)
    requires Live(t) && LimitsFit(t) && Accepts(t, e.seat, e.action, e.fromSocket)
    ensures Played(t, e.seat, e.action, v) && GoesOn(v, e.seat, Step(t, e))
  {
    hide Ledger, Cards, Apply, Advance, Signed, Played, GoesOn, Allowed, InHand;
    AcceptedIff(t, e);
    var t1 := t.(lastActor := e.seat);
    TurnChangesOnly(t, t1);
    LedgerIgnoresTurn(t, t1);
    CardsIgnoreTurn(t, t1);
    ActorIsIn(t, e.seat);
    AllowedIgnoresActor(t, e.seat, e.action);
    v := Apply(t1, e.seat, e.action);
    ApplyIsPlayed(t1, e.seat, e.action);
    PlayedFromBefore(t, e.seat, e.action, v);
    AdvanceGoesOn(v, e.seat);
  }

  lemma ActorIsIn(t: Table, i: int)
    requires Live(t) && i == t.active
    ensures i in InHand(t) && 0 <= i < SEATS
  {
    hide Ledger, Cards;
    assert i in Actable(t);
  }

  lemma AllowedIgnoresActor(t: Table, i: int, a: Action)
    requires i in t.players
    ensures Allowed(t.(lastActor := i), i, a) <==> Allowed(t, i, a)
  {}

  // ----- ai_act -----

  /** The AI raises on a draw above 0.7 with chips for more than the minimum raise, or if that sum overflows. */
  ghost predicate AiRaises(t: Table, i: int, draw: real)
    requires i in t.players
  {
    draw > 0.7 && (t.players[i].chips > Owes(t, i) + t.minRaise || TooLarge(t, i, t.minRaise))
  }

  /**
    The table after ai_act: the seat has folded exactly when it owed something and the draw was
    above 0.85; otherwise it has paid what it owed, or all it had, and a raise adds the minimum
    raise to that and to the maximum.
    */
  lemma AiMeaning(t: Table, draw: real)
    requires Live(t) && LimitsFit(t)
    ensures t.active in t.players && t.active in AiActs(t, t.active, draw).players
    ensures var i, u := t.active, AiActs(t, t.active, draw);
      var p, q, owed := t.players[i], u.players[i], Owes(t, i);
      && (q.folded <==> owed > 0 && draw > 0.85)
      && q.contribution - p.contribution ==
           (if q.folded then 0
            else if !AiRaises(t, i, draw) then Min(owed, p.chips)
            else if TooLarge(t, i, t.minRaise) then 0
            else owed + t.minRaise)
      && (u.round == t.round && (q.folded || !AiRaises(t, i, draw)) ==>
            u.currentMaxBet == t.currentMaxBet && u.minRaise == t.minRaise)
      && (u.round == t.round && !q.folded && AiRaises(t, i, draw) && !TooLarge(t, i, t.minRaise)
          && p.currentBet <= t.currentMaxBet ==>
            u.currentMaxBet == t.currentMaxBet + t.minRaise && u.minRaise == t.minRaise)
  {
    ActorIsIn(t, t.active);
    AiPicks(t, draw);
    var e := Event(t.active, AiChoice(t, t.active, draw), false);
    AiActionIsAccepted(t, draw);
    hide Live, AiChoice, Act, Accepts, Signed, InHand, GoesOn;
    var v := ActionMeaning(t, e);
    ActorKeeps(v, e.seat, Step(t, e));
  }

  lemma AiPicks(t: Table, draw: real)
    requires Live(t) && LimitsFit(t)
    ensures t.active in t.players && !t.players[t.active].folded && !t.players[t.active].bankrupt
    ensures AiChoice(t, t.active, draw) ==
      if Owes(t, t.active) > 0 && draw > 0.85 then Fold
      else if AiRaises(t, t.active, draw) then Raise(t.minRaise)
      else if Owes(t, t.active) > 0 then Call else Check
  {
    hide Cards, Signed;
    assert t.active in Actable(t);
    SignedIs(t.minRaise);
    SignedIs(Owes(t, t.active) + t.minRaise);
  }

  /** What the actor has put in, and whether it folded, is the same however the hand goes on. */
  lemma ActorKeeps(v: Table, i: int, u: Table)
    requires GoesOn(v, i, u) && StreetsLeft(v.round) > 0
    ensures u.players.Keys == v.players.Keys
    ensures forall j :: j in v.players ==>
      u.players[j].folded == v.players[j].folded && u.players[j].contribution == v.players[j].contribution
    ensures u.minRaise == v.minRaise && (u.round == v.round ==> u.currentMaxBet == v.currentMaxBet)
  {
    hide Nearest, CanAct, Staying;
  }
}
