/**
  A table of three seats with any stacks, from before its hand to the first turn: the start
  of the hands that show where a property fails.
  */
module HandExamples {
  import opened Common
  import opened HoldemTypes
  import opened TableState
  import opened HandRules
  import opened HandLedger
  import opened HandCards
  import opened HandPlay
  import opened HandStart

  function TakenBy(n: nat): Seat { if n < 3 then Seat(Human, true, false) else Seat(Empty, false, false) }

  /** Seats 0 to 2 hold a, b and c chips before a hand with blinds 50 and 100; the dealer is seat 0. */
  function ThreeSeats(a: nat, b: nat, c: nat): Table {
    Table(
      seq(SEATS, i requires 0 <= i < SEATS => TakenBy(i)),
      map[0 := NewPlayer(a), 1 := NewPlayer(b), 2 := NewPlayer(c)],
      50, 100, 1000, 0, 0, -1, -1, 0, Waiting, [], [], 0, 100, -1, {}, 0, -1)
  }

  /** The three seats in the first hand, none of them folded. */
  ghost predicate ThreePlay(t: Table) {
    && t.seats == ThreeSeats(0, 0, 0).seats && t.dealer == 0 && t.handNum == 1 && t.players.Keys == {0, 1, 2}
    && forall i :: i in t.players ==> !t.players[i].folded && !t.players[i].bankrupt && t.players[i].sitOutUntil == 0
  }

  ghost predicate Holds(t: Table, i: int, chips: int, put: int) {
    i in t.players && t.players[i].chips == chips && t.players[i].currentBet == t.players[i].contribution == put
  }

  /** The table when the blinds are posted, or as much of them as the stacks allow. */
  ghost predicate BlindsIn(t: Table, a: nat, b: nat, c: nat) {
    && ThreePlay(t) && Holds(t, 0, a, 0)
    && Holds(t, 1, b - Min(50, b), Min(50, b)) && Holds(t, 2, c - Min(100, c), Min(100, c))
  }

  /** Who is in such a hand, and who of them can act. */
  lemma WhoIsIn(t: Table)
    requires ThreePlay(t)
    ensures InHand(t) == {0, 1, 2}
    ensures forall i :: i in Actable(t) <==> i in {0, 1, 2} && t.players[i].chips > 0
    ensures forall i :: Eligible(t, i) <==> i in Actable(t)
  {
    forall i ensures i in InHand(t) <==> i in {0, 1, 2} {
    }
    forall i ensures i in Actable(t) <==> i in {0, 1, 2} && t.players[i].chips > 0 {
    }
  }

  // ----- the hand is reset -----

  lemma ThreeUnchanged(a: nat, b: nat, c: nat)
    ensures ApplyRebuys(EnsurePlayers(ThreeSeats(a, b, c))) == ThreeSeats(a, b, c)
  {
    var t := ThreeSeats(a, b, c);
    AllHavePlayers(a, b, c);
    assert ApplyRebuys(t).players == t.players;
  }

  lemma AllHavePlayers(a: nat, b: nat, c: nat)
    ensures EnsurePlayers(ThreeSeats(a, b, c)) == ThreeSeats(a, b, c)
  {
    var t := ThreeSeats(a, b, c);
    assert EnsurePlayers(t).players == t.players;
  }

  ghost predicate ResetThree(t: Table, a: nat, b: nat, c: nat) {
    && t.seats == ThreeSeats(0, 0, 0).seats && t.dealer == 0 && t.handNum == 1 && t.players.Keys == {0, 1, 2}
    && t.smallBlind == 50 && t.bigBlind == 100 && t.round == PreFlop && t.pending == {}
    && t.players[0] == NewPlayer(a) && t.players[1] == NewPlayer(b) && t.players[2] == NewPlayer(c)
  }

  lemma ThreeReset(a: nat, b: nat, c: nat, shuffled: seq<Card>)
    requires a > 0 && b > 0 && c > 0
    ensures ResetThree(ResetHand(ThreeSeats(a, b, c), shuffled), a, b, c)
  {}

  lemma {:induction false} NobodyBeyond(ps: Players, f: Field, n: nat)
    requires n >= 3 && forall i :: i in ps ==> i < 3
    ensures Total(ps, f, n) == Total(ps, f, 3)
  {
    if n > 3 { NobodyBeyond(ps, f, n - 1); }
  }

  lemma SumOfThree(ps: Players, f: Field)
    requires {0, 1, 2} <= ps.Keys
    ensures Total(ps, f, 3) == Get(ps[0], f) + Get(ps[1], f) + Get(ps[2], f)
  {
    assert Total(ps, f, 1) == Get(ps[0], f);
    assert Total(ps, f, 2) == Total(ps, f, 1) + Get(ps[1], f);
  }

  lemma ThreeAreReady(a: nat, b: nat, c: nat)
    requires a > 0 && b > 0 && c > 0
    ensures var t := ThreeSeats(a, b, c); Ready(t) && Deals(t) && StartingChips(t) == a + b + c
  {
    var t := ThreeSeats(a, b, c);
    ThreeUnchanged(a, b, c);
    hide EnsurePlayers, ApplyRebuys;
    assert Eligible(t, 0) && Eligible(t, 1);
    assert {0, 1} <= EligibleSeats(t);
    SubsetIsSmaller({0, 1}, EligibleSeats(t));
    SeatedChips(t);
    SumOfThree(t.players, Chips);
    NobodyBeyond(t.players, Chips, SEATS);
  }

  // ----- the walks -----

  /** Among the first three seats the walk stops at each in turn. */
  lemma StopAtNext(t: Table, idx: int, count: nat, loops: nat)
    requires (forall i :: Eligible(t, i) <==> i in {0, 1, 2}) && 0 <= idx <= 2 && count > 0 && loops >= 8
    ensures idx < 2 ==> Walk(t, idx, count, loops) == Walk(t, idx + 1, count - 1, loops - 1)
    ensures idx == 2 ==> Walk(t, idx, count, loops) == Walk(t, 0, count - 1, loops - 8)
  {
    hide Eligible, Walk;
    var m := if idx < 2 then 1 else 8;
    forall l | 1 <= l < m ensures !Eligible(t, Ahead(idx, l)) {
      assert Ahead(idx, l) == 2 + l;
    }
    assert Ahead(idx, m) == if idx < 2 then idx + 1 else 0;
    WalkToFirst(t, idx, count, loops, m);
  }

  lemma WalkEnds(t: Table, idx: int, loops: nat)
    ensures Walk(t, idx, 0, loops) == idx
  {}

  lemma ThreeOffsets(t: Table)
    requires t.dealer == 0 && forall i :: Eligible(t, i) <==> i in {0, 1, 2}
    ensures ActiveOffset(t, 0, 1) == 1 && ActiveOffset(t, 0, 2) == 2 && ActiveOffset(t, 0, 3) == 0
  {
    hide Eligible, Walk;
    StopAtNext(t, 0, 1, 30);
    WalkEnds(t, 1, 29);
    StopAtNext(t, 0, 2, 30);
    StopAtNext(t, 1, 1, 29);
    WalkEnds(t, 2, 28);
    StopAtNext(t, 0, 3, 30);
    StopAtNext(t, 1, 2, 29);
    StopAtNext(t, 2, 1, 28);
    WalkEnds(t, 0, 20);
  }

  lemma ResetEligible(t: Table, a: nat, b: nat, c: nat)
    requires ResetThree(t, a, b, c) && a > 0 && b > 0 && c > 0
    ensures forall i :: Eligible(t, i) <==> i in {0, 1, 2}
  {}

  // ----- blinds and cards -----

  lemma ThreeBlinds(t: Table, a: nat, b: nat, c: nat)
    requires ResetThree(t, a, b, c) && a > 0 && b > 0 && c > 0
    ensures var u := PostBlind(PostBlind(t.(sb := 1, bb := 2), 1, 50), 2, 100);
      && BlindsIn(u, a, b, c) && u.round == PreFlop && u.bigBlind == 100
      && forall i :: i in u.players ==> u.players[i].hand == []
  {}

  lemma ThreeDealt(t: Table, a: nat, b: nat, c: nat)
    requires BlindsIn(t, a, b, c) && t.round == PreFlop && forall i :: i in t.players ==> t.players[i].hand == []
    ensures var u := DealHoleCards(t); BlindsIn(u, a, b, c) && u.round == PreFlop
  {
    hide DealHoleCards;
    HoleCardsDealt(t);
  }

  /** Bet limits and turn are no part of it. */
  lemma LimitsAndTurn(s: Table, t: Table, a: nat, b: nat, c: nat)
    requires BlindsIn(s, a, b, c)
    requires t == s.(currentMaxBet := t.currentMaxBet, minRaise := t.minRaise, pending := t.pending, active := t.active)
    ensures BlindsIn(t, a, b, c)
  {}

  /** The table the first turn is asked from. */
  lemma ThreeOpening(a: nat, b: nat, c: nat, shuffled: seq<Card>)
    requires a > 0 && b > 0 && c > 0
    ensures var u := Opening(ThreeSeats(a, b, c), shuffled);
      && BlindsIn(u, a, b, c) && u.round == PreFlop && u.active == 0 && u.pending == Actable(u)
      && u.currentMaxBet == 100 && u.minRaise == 100
  {
    hide ResetHand, DealHoleCards, PostBlind, BlindsIn, ThreeSeats, Walk, Eligible, EnsurePlayers, ApplyRebuys;
    ThreeUnchanged(a, b, c);
    ThreeReset(a, b, c, shuffled);
    var t := ResetHand(ThreeSeats(a, b, c), shuffled);
    ResetEligible(t, a, b, c);
    ThreeOffsets(t);
    ThreeBlinds(t, a, b, c);
    var s := PostBlind(PostBlind(t.(sb := 1, bb := 2), 1, 50), 2, 100);
    ThreeDealt(s, a, b, c);
    var p, u := PostAndDeal(t), InitPending(PostAndDeal(t), 0);
    assert p == DealHoleCards(s).(currentMaxBet := 100, minRaise := 100);
    LimitsAndTurn(DealHoleCards(s), p, a, b, c);
    LimitsAndTurn(p, u, a, b, c);
    AskedAlike(p, u);
  }

  lemma AskedAlike(p: Table, u: Table)
    requires u == p.(pending := u.pending, active := u.active)
    ensures Actable(u) == Actable(p)
  {
    TurnChangesOnly(p, u);
  }

  lemma NothingToPrune(t: Table)
    requires t.pending <= Actable(t)
    ensures RemoveIneligible(t) == t
  {
    forall i | i in t.pending ensures CanStillAct(t, i) {
      assert i in Actable(t);
    }
    assert RemoveIneligible(t).pending == t.pending;
  }

  /** The active seat, pending, is asked as it stands. */
  lemma AskedStays(t: Table)
    requires |InHand(t)| >= 2 && t.pending <= Actable(t) && t.active in t.pending && t.active >= 0
    ensures RequestTurn(t) == t
  {
    NothingToPrune(t);
    hide InHand, Actable;
  }

  /** While somebody is pending, an action hands the turn to the next pending seat. */
  lemma AdvanceAsks(t: Table, seat: int)
    requires |InHand(t)| >= 2 && t.pending <= Actable(t) && t.pending != {} && 0 <= seat
    requires forall i :: i in t.pending ==> 0 <= i < SEATS
    ensures NextActor(t, seat) in t.pending && Advance(t, seat) == t.(active := NextActor(t, seat))
  {
    hide NextActor, RequestTurn;
    NothingToPrune(t);
    NextActorFound(t, seat);
    var t1 := t.(active := NextActor(t, seat));
    TurnChangesOnly(t, t1);
    hide InHand, Actable;
    AskedStays(t1);
  }

  /** The hand starts by asking seat 0. */
  lemma ThreeStart(a: nat, b: nat, c: nat, shuffled: seq<Card>)
    requires a > 0 && b > 0 && c > 0
    ensures StartHand(ThreeSeats(a, b, c), shuffled) == Opening(ThreeSeats(a, b, c), shuffled)
  {
    hide Opening, StartHand, RequestTurn, ThreeSeats, Walk, Eligible, InHand, Actable, Deals;
    var u := Opening(ThreeSeats(a, b, c), shuffled);
    ThreeOpening(a, b, c, shuffled);
    ThreeAreReady(a, b, c);
    WhoIsIn(u);
    AskedStays(u);
    StartIsRequested(ThreeSeats(a, b, c), shuffled);
  }
}
