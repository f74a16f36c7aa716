/**
  Whose turn it is: always the nearest seat clockwise that may act, counted from the seat
  that acted last, or on a new street from the dealer.
  */
module HandTurns {
  import opened Common
  import opened HoldemTypes
  import opened Settlement
  import opened TableState
  import opened HandRules
  import opened HandLedger
  import opened HandCards
  import opened HandPlay
  import opened HandStart
  import opened HandTheorems

  /** Still in the hand with chips left. */
  ghost function CanAct(t: Table): set<int> {
    set i | i in t.players && !t.players[i].folded && t.players[i].chips > 0
  }

  ghost function Staying(t: Table): set<int> {
    set i | i in t.players && !t.players[i].folded
  }

  /** In a running hand nobody unfolded is bankrupt, gone or sitting out. */
  lemma RosterMeans(t: Table)
    requires Roster(t)
    ensures Actable(t) == CanAct(t) && InHand(t) == Staying(t)
  {
    forall i ensures i in Actable(t) <==> i in CanAct(t) {
    }
    forall i ensures i in InHand(t) <==> i in Staying(t) {
    }
  }

  // ----- next_seat_clockwise -----

  /** The scan stops at the nearest seat of s. */
  lemma {:induction false} ScanFindsNearest(from: int, s: set<int>, step: nat)
    requires 0 <= from < SEATS && 1 <= step <= SEATS + 1 && s != {}
    requires forall i :: i in s ==> 0 <= i < SEATS && Distance(from, i) >= step - 1
    ensures Nearest(from, s, NextClockwise(from, s, step))
    decreases SEATS + 1 - step
  {
    hide Distance;
    if step > SEATS {
      var i := Member(s);
      DistanceRange(from, i);
    } else {
      StepDistance(from, step);
      if (from + step) % SEATS !in s {
        forall i | i in s ensures Distance(from, i) >= step {
          if Distance(from, i) == step - 1 { SeatAtDistance(from, i, step); }
        }
        ScanFindsNearest(from, s, step + 1);
      }
    }
  }

  lemma NextIsNearest(t: Table, from: int)
    requires 0 <= from < SEATS && t.pending != {} && forall i :: i in t.pending ==> 0 <= i < SEATS
    ensures Nearest(from, t.pending, NextActor(t, from))
  {
    hide NextClockwise;
    forall i | i in t.pending ensures Distance(from, i) >= 0 { DistanceRange(from, i); }
    ScanFindsNearest(from, t.pending, 1);
  }

  // ----- get_active_offset -----

  lemma AheadDistance(from: int, m: int)
    requires 0 <= from < SEATS && 1 <= m <= SEATS
    ensures 0 <= Ahead(from, m) < SEATS && Distance(from, Ahead(from, m)) == m - 1
  {
    hide Distance;
    assert Ahead(from, m) == if from + m < SEATS then from + m else from + m - SEATS;
    DistanceIs(from, Ahead(from, m));
  }

  /** The walk goes on from the nearest eligible seat with one less to count. */
  lemma WalkToNearest(t: Table, from: int, count: nat, loops: nat) returns (e: int, left: nat)
    requires Frame(t) && 0 <= from < SEATS && count > 0 && loops >= SEATS && EligibleSeats(t) != {}
    ensures Nearest(from, EligibleSeats(t), e) && 0 <= e < SEATS && left + SEATS >= loops
    ensures Walk(t, from, count, loops) == Walk(t, e, count - 1, left)
  {
    hide Eligible, EligibleSeats, FirstAt, Distance;
    var some := Member(EligibleSeats(t));
    var m := FirstStop(t, from, some);
    WalkToFirst(t, from, count, loops, m);
    e, left := Ahead(from, m), loops - m;
    AheadDistance(from, m);
    forall j | j in EligibleSeats(t) ensures Distance(from, e) <= Distance(from, j) {
      NotMetBefore(t, from, m, j);
    }
  }

  lemma NotMetBefore(t: Table, from: int, m: nat, j: int)
    requires Frame(t) && 0 <= from < SEATS && FirstAt(t, from, m) && j in EligibleSeats(t)
    ensures Distance(from, j) >= m - 1
  {
    hide Eligible;
    SeatsInRange(t, j);
    DistanceRange(from, j);
    var l := Distance(from, j) + 1;
    SeatAtDistance(from, j, l);
    assert Ahead(from, l) == j;
    EligibleMember(t, j);
  }

  lemma SeatsInRange(t: Table, i: int)
    requires Frame(t) && i in EligibleSeats(t)
    ensures 0 <= i < SEATS
  {}

  lemma EligibleMember(t: Table, i: int)
    requires i in EligibleSeats(t)
    ensures Eligible(t, i)
  {}

  lemma WalkIsOver(t: Table, idx: int, loops: nat)
    ensures Walk(t, idx, 0, loops) == idx
  {}

  // ----- who is asked -----

  lemma PendingInRange(t: Table)
    requires Frame(t) && t.pending <= Actable(t)
    ensures forall i :: i in t.pending ==> 0 <= i < SEATS
  {
    forall i | i in t.pending ensures 0 <= i < SEATS {
      assert i in Actable(t);
    }
  }

  /** The seat request_turn asks: the active one if it is pending, or else the nearest pending one. */
  lemma AskedIsNearest(t: Table)
    requires Betting(t) && 0 <= t.active < SEATS && t.pending != {}
    ensures if t.active in t.pending then SeatToAsk(t) == t.active else Nearest(t.active, t.pending, SeatToAsk(t))
  {
    hide Ledger, Cards, Roster, NextActor;
    PendingInRange(t);
    if t.active !in t.pending {
      NextIsNearest(t, t.active);
    }
  }

  /** With somebody pending, request_turn only settles who is asked. */
  lemma RequestAsks(t: Table)
    requires Betting(t) && |InHand(t)| >= 2 && 0 <= t.active < SEATS && t.pending != {}
    ensures var a := RequestTurn(t).active;
      && RequestTurn(t) == t.(active := a)
      && if t.active in t.pending then a == t.active else Nearest(t.active, t.pending, a)
  {
    hide Ledger, Cards, Roster, InHand, Nearest;
    PruningChangesNothing(t);
    AskedIsNearest(t);
    AskedIsSeat(t);
    var i := Member(t.pending);
    assert i in Actable(t);
    hide Actable, SeatToAsk;
  }

  lemma AskedIsSeat(t: Table)
    requires Betting(t) && 0 <= t.active < SEATS && t.pending != {}
    ensures 0 <= SeatToAsk(t) < SEATS
  {
    hide Ledger, Cards, Roster, NextActor;
    AskedIsNearest(t);
    PendingInRange(t);
  }

  /** Who can act can be dealt in as well. */
  lemma ActableIsEligible(t: Table)
    requires Roster(t)
    ensures Actable(t) <= EligibleSeats(t)
  {
    forall i | i in Actable(t) ensures i in EligibleSeats(t) {
    }
  }

  /** The street after this one. */
  function Following(r: Round): Round {
    match r
    case PreFlop => Flop
    case Flop => Turn
    case Turn => River
    case _ => HandOver
  }

  /** t's players with their bets taken in. */
  ghost predicate BetsTakenIn(t: Table, u: Table) {
    && u.players.Keys == t.players.Keys
    && forall i :: i in t.players ==> u.players[i] == t.players[i].(currentBet := 0)
  }

  /** A street that closes with somebody able to act opens the next one at the nearest such seat from the dealer. */
  lemma ProceedAsks(t: Table)
    requires Betting(t) && |InHand(t)| >= 2 && CanAct(t) != {} && t.round != River
    ensures var u := ProceedToNextStreet(t);
      && u.round == Following(t.round) && BetsTakenIn(t, u)
      && u.currentMaxBet == 0 && u.minRaise == t.minRaise && u.pot == t.pot
      && u.pending == CanAct(u) == CanAct(t) && Nearest(t.dealer, CanAct(u), u.active)
  {
    hide Ledger, Cards, Nearest, RequestTurn, InHand, Actable, CanAct;
    var t1 := NextStreet(t);
    NextStreetIs(t);
    NextStreetKeepsBetting(t, ActiveOffset(t1, t1.dealer, 1));
    RosterMeans(t1);
    ActableIsEligible(t1);
    var e, left := WalkToNearest(t1, t1.dealer, 1, 30);
    WalkIsOver(t1, e, left);
    var t2 := InitPending(t1, e);
    TurnChangesOnly(t1, t2);
    EligibleInRange(t1);
    RequestAsks(t2);
    AskedFromDealer(t1, e, RequestTurn(t2).active);
    RosterSameCanAct(t1, RequestTurn(t2));
  }

  lemma AskedFromDealer(t1: Table, e: int, a: int)
    requires Frame(t1) && Nearest(t1.dealer, EligibleSeats(t1), e) && Actable(t1) <= EligibleSeats(t1) && Actable(t1) != {}
    requires if e in Actable(t1) then a == e else Nearest(e, Actable(t1), a)
    ensures Nearest(t1.dealer, Actable(t1), a)
  {
    hide Actable, EligibleSeats, Nearest;
    EligibleInRange(t1);
    NearestPast(t1.dealer, e, EligibleSeats(t1), Actable(t1), a);
  }

  lemma EligibleInRange(t: Table)
    requires Frame(t)
    ensures forall i :: i in EligibleSeats(t) ==> 0 <= i < SEATS
  {}

  lemma RosterSameCanAct(a: Table, b: Table)
    requires b.players == a.players
    ensures CanAct(b) == CanAct(a)
  {}

  lemma NextStreetIs(t: Table)
    requires StreetsLeft(t.round) > 1
    ensures var u := NextStreet(t);
      && u.round == Following(t.round) && BetsTakenIn(t, u) && CanAct(u) == CanAct(t)
      && u.currentMaxBet == 0 && u.minRaise == t.minRaise && u.pot == t.pot && u.dealer == t.dealer && u.seats == t.seats
  {
    hide DealCommunity;
    var t1 := t.(players := ClearBets(t.players), currentMaxBet := 0);
    DealCommunityKeepsRound(t1.(round := Flop), 3);
    DealCommunityKeepsRound(t1.(round := Turn), 1);
    DealCommunityKeepsRound(t1.(round := River), 1);
    forall i ensures i in CanAct(NextStreet(t)) <==> i in CanAct(t) {
    }
  }

  /** After the river, or with nobody able to act, the hand is over. */
  lemma ProceedEnds(t: Table)
    requires Betting(t) && |InHand(t)| >= 2 && (CanAct(t) == {} || t.round == River)
    ensures ProceedToNextStreet(t).round == HandOver
  {
    hide Ledger, Cards, FinishHand, Walk, InHand, CanAct, Actable;
    var t1 := NextStreet(t);
    NextStreetGoesOn(t);
    FinishIsOver(t1);
    if t.round != River {
      NextStreetIs(t);
      var t2 := InitPending(t1, ActiveOffset(t1, t1.dealer, 1));
      NextStreetKeepsBetting(t, t2.active);
      RosterMeans(t1);
      TurnChangesOnly(t1, t2);
      FinishIsOver(t2);
      FinishIsOver(t2.(round := Showdown));
    }
  }

  /** What follows an action: the nearest pending seat, the next street, or the end. */
  lemma AdvanceMeans(t: Table, seat: int)
    requires Betting(t) && 0 <= seat < SEATS
    ensures var u := Advance(t, seat);
      if |Staying(t)| <= 1 then u.round == HandOver
      else if t.pending != {} then u == t.(active := u.active) && Nearest(seat, t.pending, u.active)
      else if CanAct(t) == {} || t.round == River then u.round == HandOver
      else
        && u.round == Following(t.round) && BetsTakenIn(t, u)
        && u.currentMaxBet == 0 && u.minRaise == t.minRaise && u.pot == t.pot
        && u.pending == CanAct(u) == CanAct(t) && Nearest(t.dealer, CanAct(u), u.active)
  {
    hide Ledger, Cards, FinishHand, RequestTurn, ProceedToNextStreet, Nearest, CanAct, Staying, InHand, Actable;
    RosterMeans(t);
    FinishIsOver(t);
    PruningChangesNothing(t);
    if |InHand(t)| > 1 {
      if t.pending != {} {
        PendingInRange(t);
        NextIsNearest(t, seat);
        NearestIsMember(seat, t.pending, NextActor(t, seat));
        var t1 := t.(active := NextActor(t, seat));
        TurnChangesOnly(t, t1);
        LedgerIgnoresTurn(t, t1);
        CardsIgnoreTurn(t, t1);
        RequestAsks(t1);
      } else if CanAct(t) == {} || t.round == River {
        ProceedEnds(t);
      } else {
        ProceedAsks(t);
      }
    }
  }

  lemma NearestIsMember(from: int, s: set<int>, i: int)
    requires Nearest(from, s, i)
    ensures i in s
  {}
}
