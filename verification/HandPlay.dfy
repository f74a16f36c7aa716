/**
  What every step of a hand keeps, from the blinds to HAND_OVER, and what follows for
  whole runs: no chip or card appears or disappears, the hand never stalls, and every
  hand ends.
  */
module HandPlay {
  import opened Common
  import opened HoldemTypes
  import opened Settlement
  import opened TableState
  import opened HandRules
  import opened HandLedger
  import opened HandCards

  // ----- the invariant -----

  /** Whoever has not folded is connected, solvent and not sitting out. */
  ghost predicate Roster(t: Table) {
    forall i :: i in t.players && !t.players[i].folded ==> InHandSeat(t, i)
  }

  /** A betting street, before it is decided whose turn it is. */
  ghost predicate Betting(t: Table) {
    && Frame(t) && Ledger(t) && Cards(t) && Roster(t)
    && StreetsLeft(t.round) > 0
    && t.pending <= Actable(t)
  }

  lemma BettingStreets(t: Table)
    requires Betting(t)
    ensures StreetsLeft(t.round) > 0
  {}

  /** A hand waiting for the active seat, which is pending, has not folded and has chips. */
  ghost predicate Live(t: Table) {
    Betting(t) && t.active in t.pending && |InHand(t)| >= 2
  }

  /** What a step leaves: a live hand with the same bank, or a settled one. */
  ghost predicate Outcome(t: Table, r: Table) {
    && Frame(r) && SameHand(t, r) && |InHand(r)| >= 1 && AllCards(r) == multiset(FullDeck())
    && ((Live(r) && Bank(r) == Bank(t))
        || (Settled(r, Bank(t)) && (|InHand(r)| >= 2 ==> |r.board| == 5)))
  }

  // ----- seat walks -----

  /** The walk stops at a seat of s if one lies k steps ahead. */
  lemma {:induction false} NextClockwiseFinds(from: int, s: set<int>, step: nat, k: nat)
    requires from >= 0 && 1 <= step <= k <= SEATS && (from + k) % SEATS in s
    ensures NextClockwise(from, s, step) in s
    decreases SEATS + 1 - step
  {
    if step < k { NextClockwiseFinds(from, s, step + 1, k); }
  }

  /** Ten steps meet every seat. */
  lemma EverySeatIsMet(from: int, i: int) returns (k: nat)
    requires from >= 0 && 0 <= i < SEATS
    ensures 1 <= k <= SEATS && (from + k) % SEATS == i
  {
    k := (i - from % SEATS + SEATS) % SEATS;
    if k == 0 { k := SEATS; }
  }

  /** A pending seat is found whenever there is one. */
  lemma NextActorFound(t: Table, from: int)
    requires from >= 0 && forall i :: i in t.pending ==> 0 <= i < SEATS
    ensures t.pending == {} ==> NextActor(t, from) == -1
    ensures t.pending != {} ==> NextActor(t, from) in t.pending
  {
    if t.pending != {} {
      var i := Member(t.pending);
      var k := EverySeatIsMet(from, i);
      NextClockwiseFinds(from, t.pending, 1, k);
    }
  }

  // ----- small steps keep the invariant -----

  lemma PruningChangesNothing(t: Table)
    requires Betting(t)
    ensures RemoveIneligible(t) == t
  {
    assert RemoveIneligible(t).pending == t.pending;
  }

  lemma NextStreetKeepsBetting(t: Table, active: int)
    requires Betting(t)
    ensures SameHand(t, NextStreet(t)) && Bank(NextStreet(t)) == Bank(t) && InHand(NextStreet(t)) == InHand(t)
    ensures Frame(NextStreet(t)) && Ledger(NextStreet(t)) && Cards(NextStreet(t)) && Roster(NextStreet(t))
    ensures NextStreet(t).round != Showdown ==> Betting(InitPending(NextStreet(t), active))
  {
    hide Ledger, Cards, Bank;
    NextStreetKeepsLedger(t);
    NextStreetKeepsCards(t);
    InHandIgnoresChips(t, NextStreet(t));
    NextStreetRounds(t);
    var t1 := InitPending(NextStreet(t), active);
    assert Ledger(t1) by { LedgerIgnoresTurn(NextStreet(t), t1); }
    assert Cards(t1) by { CardsIgnoreTurn(NextStreet(t), t1); }
  }

  lemma NextStreetRounds(t: Table)
    requires StreetsLeft(t.round) > 0
    ensures NextStreet(t).round == Showdown || StreetsLeft(NextStreet(t).round) > 0
  {
    var t1 := t.(players := ClearBets(t.players), currentMaxBet := 0);
    DealCommunityKeepsRound(t1.(round := Flop), 3);
    DealCommunityKeepsRound(t1.(round := Turn), 1);
    DealCommunityKeepsRound(t1.(round := River), 1);
  }

  lemma LedgerIgnoresTurn(a: Table, b: Table)
    requires Ledger(a) && b == a.(pending := b.pending, active := b.active, round := b.round, lastActor := b.lastActor)
    ensures Ledger(b) && Bank(b) == Bank(a)
  {}

  lemma CardsIgnoreTurn(a: Table, b: Table)
    requires Cards(a) && b == a.(pending := b.pending, active := b.active, lastActor := b.lastActor)
    ensures Cards(b)
  {}

  // ----- settlement and streets -----

  lemma FinishOutcome(t: Table, since: Table)
    requires Frame(t) && Ledger(t) && |InHand(t)| >= 1
    requires AllCards(t) == multiset(FullDeck()) && AtMostTwoEach(t.players) && |t.board| <= 5
    requires SameHand(since, t) && Bank(t) == Bank(since)
    ensures Outcome(since, FinishHand(t)) && FinishHand(t).round == HandOver
  {
    hide Ledger, Bank, Settled, AllCards, FullDeck;
    if |InHand(t)| == 1 {
      SoleWinnerTakesAll(t);
      SameHandTrans(since, t, FinishHand(t));
      FinishKeepsCards(t);
    } else {
      ShowdownPaysClaimedPots(t);
      SameHandTrans(since, t, FinishHand(t));
      FinishKeepsCards(t);
    }
    SettledIsOver(FinishHand(t), Bank(t));
  }

  lemma SettledIsOver(t: Table, bank: int)
    requires Settled(t, bank)
    ensures t.round == HandOver
  {}

  lemma FinishKeepsCards(t: Table)
    requires AllCards(t) == multiset(FullDeck()) && AtMostTwoEach(t.players) && |t.board| <= 5
    requires |InHand(t)| >= 1 && SameHand(t, FinishHand(t))
    ensures AllCards(FinishHand(t)) == multiset(FullDeck())
    ensures |InHand(t)| >= 2 ==> |FinishHand(t).board| == 5
  {
    hide FullDeck, HoleCards;
    var t0 := t.(pending := {}, active := -1);
    assert InHand(t0) == InHand(t) by { InHandIgnoresChips(t, t0); }
    HoleCardsSame(t.players, FinishHand(t).players, SEATS);
    if |InHand(t)| >= 2 {
      RunoutCompletesBoard(t0);
      FinishIsPaidOut(t);
    }
  }

  lemma {:induction false} ProceedOutcome(t: Table, since: Table)
    requires Betting(t) && |InHand(t)| >= 2 && SameHand(since, t) && Bank(t) == Bank(since)
    ensures Outcome(since, ProceedToNextStreet(t))
    decreases StreetsLeft(t.round), 0
  {
    hide Ledger, Bank, Cards, Outcome, FinishHand, Actable, InHand;
    var t1 := NextStreet(t);
    NextStreetGoesOn(t);
    NextStreetKeepsBetting(t, ActiveOffset(t1, t1.dealer, 1));
    SameHandTrans(since, t, t1);
    if t1.round == Showdown {
      CardsOf(t1);
      FinishOutcome(t1, since);
    } else {
      var t2 := InitPending(t1, ActiveOffset(t1, t1.dealer, 1));
      TurnChangesOnly(t1, t2);
      SameHandTrans(since, t1, t2);
      RequestTurnOutcome(t2, since);
    }
  }

  lemma CardsOf(t: Table)
    requires Cards(t)
    ensures AllCards(t) == multiset(FullDeck()) && AtMostTwoEach(t.players) && |t.board| <= 5
  {}

  /** Turn bookkeeping leaves hand, bank and live seats alone. */
  lemma TurnChangesOnly(a: Table, b: Table)
    requires b == a.(pending := b.pending, active := b.active, round := b.round, lastActor := b.lastActor)
    ensures SameHand(a, b) && Bank(b) == Bank(a) && InHand(b) == InHand(a) && Actable(b) == Actable(a)
  {
    InHandIgnoresChips(a, b);
    forall i ensures i in Actable(a) <==> i in Actable(b) {
    }
  }

  lemma {:induction false} RequestTurnOutcome(t: Table, since: Table)
    requires Betting(t) && |InHand(t)| >= 2 && SameHand(since, t) && Bank(t) == Bank(since)
    ensures Outcome(since, RequestTurn(t))
    decreases StreetsLeft(t.round), 1
  {
    hide Ledger, Bank, Cards, FinishHand, Settled;
    if Actable(t) == {} {
      var t1 := t.(round := Showdown);
      TurnChangesOnly(t, t1);
      SameHandTrans(since, t, t1);
      LedgerIgnoresTurn(t, t1);
      CardsOf(t);
      FinishOutcome(t1, since);
    } else {
      PruningChangesNothing(t);
      var t2 := t.(active := SeatToAsk(t));
      TurnChangesOnly(t, t2);
      SameHandTrans(since, t, t2);
      LedgerIgnoresTurn(t, t2);
      CardsIgnoreTurn(t, t2);
      AskedSeatIsPending(t);
      if t2.active < 0 {
        ProceedOutcome(t2, since);
      } else {
        CardsOf(t2);
      }
    }
  }

  lemma AskedSeatIsPending(t: Table)
    requires Betting(t)
    ensures SeatToAsk(t) >= 0 ==> SeatToAsk(t) in t.pending
  {
    if t.active < 0 {
      NextActorFound(t, t.dealer);
    } else if t.active !in t.pending {
      NextActorFound(t, t.active);
    }
  }

  // ----- actions -----

  /** Other seats keep their status; the actor may fold or spend chips. */
  lemma OthersUntouched(t: Table, seat: int, a: Action, i: int)
    requires seat in t.players && i in t.players && i != seat
    ensures i in Apply(t, seat, a).players && Apply(t, seat, a).players[i] == t.players[i]
  {}

  lemma ActionKeepsTable(t: Table, seat: int, a: Action)
    requires seat in t.players
    ensures var t1 := Apply(t, seat, a);
            && t1.seats == t.seats && t1.handNum == t.handNum && t1.dealer == t.dealer
            && t1.deck == t.deck && t1.board == t.board && t1.round == t.round
            && t1.players.Keys == t.players.Keys
            && t1.players[seat].bankrupt == t.players[seat].bankrupt
            && t1.players[seat].sitOutUntil == t.players[seat].sitOutUntil
            && t1.players[seat].folded == (t.players[seat].folded || a == Fold)
  {}

  /** Except for a fold, an action leaves everybody in the hand who was in it. */
  lemma InHandAfter(t: Table, seat: int, a: Action)
    requires seat in t.players
    ensures InHand(Apply(t, seat, a)) == if a == Fold then InHand(t) - {seat} else InHand(t)
  {
    hide Apply;
    ActionKeepsTable(t, seat, a);
    var t1 := Apply(t, seat, a);
    forall i ensures i in InHand(t1) <==> i in InHand(t) && !(a == Fold && i == seat) {
      if i in t.players && i != seat { OthersUntouched(t, seat, a, i); }
    }
  }

  lemma RosterAfter(t: Table, seat: int, a: Action)
    requires Roster(t) && seat in t.players
    ensures Roster(Apply(t, seat, a))
  {
    hide Apply;
    ActionKeepsTable(t, seat, a);
    var t1 := Apply(t, seat, a);
    forall i | i in t1.players && !t1.players[i].folded ensures InHandSeat(t1, i) {
      assert i in t.players;
      if i != seat { OthersUntouched(t, seat, a, i); }
      assert InHandSeat(t, i);
    }
  }

  /** After an action the pending seats are other seats that can act. */
  lemma PendingAfter(t: Table, seat: int, a: Action)
    requires seat in t.players && t.pending <= Actable(t) && a != Unsupported
    ensures seat !in Apply(t, seat, a).pending
    ensures Apply(t, seat, a).pending <= Actable(Apply(t, seat, a))
  {
    var t1 := Apply(t, seat, a);
    ActionKeepsTable(t, seat, a);
    forall i | i in t1.pending ensures i != seat && i in Actable(t1) {
      if i in t.players && i != seat { OthersUntouched(t, seat, a, i); }
      PendingComesFrom(t, seat, a, i);
    }
  }

  lemma PendingComesFrom(t: Table, seat: int, a: Action, i: int)
    requires seat in t.players && a != Unsupported && i in Apply(t, seat, a).pending
    ensures i != seat && (i in t.pending || i in Actable(Apply(t, seat, a)))
  {
    var t1 := Apply(t, seat, a);
    if i !in t.pending {
      assert t1 == Reopen(t1, seat);
    }
  }

  lemma ActionKeepsBetting(t: Table, seat: int, a: Action)
    requires Betting(t) && seat in t.players && seat in InHand(t) && Legal(t, seat, a)
    ensures Betting(Apply(t, seat, a)) && SameHand(t, Apply(t, seat, a)) && Bank(Apply(t, seat, a)) == Bank(t)
    ensures seat !in Apply(t, seat, a).pending
  {
    hide Apply, Ledger, Bank, AllCards, FullDeck;
    ActionKeepsLedger(t, seat, a);
    ActionKeepsTable(t, seat, a);
    RosterAfter(t, seat, a);
    PendingAfter(t, seat, a);
    SameHandSameCards(t, Apply(t, seat, a));
  }

  lemma AdvanceOutcome(t: Table, seat: int, since: Table)
    requires Betting(t) && |InHand(t)| >= 1 && 0 <= seat && SameHand(since, t) && Bank(t) == Bank(since)
    ensures Outcome(since, Advance(t, seat))
  {
    hide Ledger, Bank, Cards, FinishHand, Settled, Outcome, RequestTurn, ProceedToNextStreet;
    if |InHand(t)| <= 1 {
      CardsOf(t);
      FinishOutcome(t, since);
    } else {
      PruningChangesNothing(t);
      if t.pending == {} {
        ProceedOutcome(t, since);
      } else {
        var t1 := t.(active := NextActor(t, seat));
        TurnChangesOnly(t, t1);
        SameHandTrans(since, t, t1);
        LedgerIgnoresTurn(t, t1);
        CardsIgnoreTurn(t, t1);
        RequestTurnOutcome(t1, since);
      }
    }
  }

  /** An accepted action leaves a live hand with the same chips, or a settled one. */
  lemma AcceptedActionOutcome(t: Table, seat: int, a: Action, fromSocket: bool)
    requires Live(t) && Accepts(t, seat, a, fromSocket)
    ensures Outcome(t, Act(t, seat, a, fromSocket))
  {
    hide Ledger, Bank, Cards, Outcome, Advance, Apply;
    var t1 := t.(lastActor := seat);
    TurnChangesOnly(t, t1);
    LedgerIgnoresTurn(t, t1);
    CardsIgnoreTurn(t, t1);
    assert seat in InHand(t1) by { assert seat in Actable(t1); }
    ActionKeepsBetting(t1, seat, a);
    SameHandTrans(t, t1, Apply(t1, seat, a));
    InHandAfter(t1, seat, a);
    assert |InHand(t1) - {seat}| >= 1;
    AdvanceOutcome(Apply(t1, seat, a), seat, t);
  }

  /** A rejected action changes at most the record of who tried to act. */
  lemma RejectedActionChangesNothing(t: Table, seat: int, a: Action, fromSocket: bool)
    requires !Accepts(t, seat, a, fromSocket)
    ensures Act(t, seat, a, fromSocket) == t.(lastActor := Act(t, seat, a, fromSocket).lastActor)
  {
    hide Signed, Apply, Advance;
  }
}
