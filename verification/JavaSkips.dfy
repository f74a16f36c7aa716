/**
  A seat the gateway never asks: whoever sits after the big blind is passed over before the
  flop, and if nobody raises it stays in the hand without having paid.
  */
module JavaSkips {
  import opened Common
  import opened HoldemTypes
  import opened JavaRules
  import opened JavaTurns
  import opened JavaLedger
  import opened JavaProgress
  import opened JavaCards
  import opened JavaOverflow
  import opened JavaPayouts
  import opened JavaStreets
  import opened JavaMoves
  import opened JavaHands
  import Settlement

  /** Three seats before the flop with these bets of a thousand chips each. */
  ghost predicate ThreeBets(t: Table, b0: int, b1: int, b2: int) {
    && t.seats == [0, 1, 2] && t.players.Keys == {0, 1, 2} && t.dealer == 0 && t.street == PreFlop && t.maxBet == 100
    && Sits(t, 0, 1000 - b0, b0) && Sits(t, 1, 1000 - b1, b1) && Sits(t, 2, 1000 - b2, b2)
  }

  lemma AllAble(t: Table, b0: int, b1: int, b2: int)
    requires ThreeBets(t, b0, b1, b2) && b0 < 1000 && b1 < 1000 && b2 < 1000
    ensures Able(t) == {0, 1, 2} && StillIn(t) == {0, 1, 2}
  {
    assert 0 in t.seats && 1 in t.seats && 2 in t.seats;
    forall s ensures s in Able(t) <==> s in {0, 1, 2} {
    }
    forall s ensures s in StillIn(t) <==> s in {0, 1, 2} {
    }
  }

  /** The small blind calls, and the big blind is asked. */
  lemma SmallBlindCalls(t: Table)
    requires Playing(t) && ThreeBets(t, 0, 50, 100) && t.turn == 1 && t.pending == {2}
    ensures Accepts(t, 1, Call)
    ensures var u := Act(t, 1, Call); Playing(u) && ThreeBets(u, 0, 100, 100) && u.turn == 2 && u.pending == {}
  {
    AcceptedIff(t, 1, Call);
    hide Playing, Act, Accepts, GoesOn, Played;
    var v := ActionMeaning(t, 1, Call);
    CallPlayed(t, v);
    AllAble(v, 0, 100, 100);
    var u := Act(t, 1, Call);
    OneAsked(v, u);
    ActKeepsPlaying(t, 1, Call);
  }

  lemma CallPlayed(t: Table, v: Table)
    requires ThreeBets(t, 0, 50, 100) && t.turn == 1 && t.pending == {2} && Played(t, 1, Call, v)
    ensures ThreeBets(v, 0, 100, 100) && v.pending == {2} && v.turn == 1
  {
    hide Able, RoundedUp;
  }

  lemma OneAsked(v: Table, u: Table)
    requires GoesOn(v, u) && v.pending == {2} && StillIn(v) == {0, 1, 2} && v.street == PreFlop
    ensures u == v.(turn := 2, pending := {}) && Running(u)
  {
    hide Finished, Closes, Settlement.Distance;
    assert |{0, 1, 2}| == 3;
    assert u.turn == 2;
    assert {2} - {2} == {};
  }

  /** The big blind checks, and the flop is dealt. */
  lemma BigBlindCloses(t: Table)
    requires Playing(t) && ThreeBets(t, 0, 100, 100) && t.turn == 2 && t.pending == {}
    ensures Accepts(t, 2, Check)
    ensures var u := Act(t, 2, Check);
      && u.street == Flop && 0 in u.players && !u.players[0].folded && u.players[0].chips == 1000 && u.pot == t.pot
  {
    AcceptedIff(t, 2, Check);
    hide Playing, Act, Accepts, GoesOn, RoundedUp;
    var v := ActionMeaning(t, 2, Check);
    assert ThreeBets(v, 0, 100, 100) && v.pending == {} && v.turn == 2 && v.pot == t.pot;
    AllAble(v, 0, 100, 100);
    FlopOpens(v, Act(t, 2, Check));
  }

  lemma FlopOpens(v: Table, u: Table)
    requires GoesOn(v, u) && v.pending == {} && StillIn(v) == {0, 1, 2} == Able(v) && v.street == PreFlop && v.turn == 2
    ensures Opens(v, Flop, {0, 1}, u)
  {
    hide Finished, Opens, StillIn, Able;
    assert |{0, 1, 2}| == 3;
    assert {0, 1, 2} - {2} == {0, 1};
  }

  /**
    For every shuffle, three players with a thousand chips: the small blind calls and the big
    blind checks, and seat 0, owing the big blind, is on the flop with all its chips.
    */
  lemma NeverAsked(shuffled: seq<Card>)
    requires multiset(shuffled) == multiset(FreshDeck())
    ensures var s := StartHand(EvenTable(), shuffled);
      var u := Act(s, 1, Call);
      var r := Act(u, 2, Check);
      && Accepts(s, 1, Call) && Accepts(u, 2, Check) && 0 in s.players && Owes(s, 0) == 100
      && r.street == Flop && 0 in r.players && !r.players[0].folded && r.players[0].chips == 1000
  {
    EvenIsSound();
    EvenStart(shuffled);
    var s := StartHand(EvenTable(), shuffled);
    hide StartHand, EvenTable, FreshDeck, Playing, Act, Accepts, Starts;
    StartPlaying(EvenTable(), shuffled);
    SmallBlindCalls(s);
    BigBlindCloses(Act(s, 1, Call));
  }
}
