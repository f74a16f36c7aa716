/**
  How a hand goes on at the gateway, told by fields: whose turn it is, how a street closes and
  which seat opens the next one, and what everybody is paid when the hand is over.
  */
module JavaStreets {
  import opened Common
  import opened HoldemTypes
  import opened JavaRules
  import opened JavaTurns
  import opened JavaLedger
  import opened JavaProgress
  import opened JavaCards
  import opened JavaPayouts
  import Settlement

  /** Seats that can still bet. */
  ghost function Able(t: Table): set<int> {
    set s | s in t.seats && s in t.players
      && !t.players[s].folded && !t.players[s].allIn && t.players[s].chips > 0
  }

  lemma AbleAct(t: Table)
    ensures ActingSeats(t) == Able(t)
  {
    forall s ensures s in ActingSeats(t) <==> s in Able(t) {
    }
  }

  ghost function Taken(seats: seq<int>): set<int> {
    set s | s in seats
  }

  // ----- the clockwise order of the taken seats -----

  /** Going round the list of taken seats is going clockwise round the table. */
  lemma DistanceGrows(seats: seq<int>, p: nat, j: nat, k: nat)
    requires SeatList(seats) && p < |seats| && 1 <= j < k <= |seats|
    ensures Settlement.Distance(seats[p], After(seats, p, j)) < Settlement.Distance(seats[p], After(seats, p, k))
  {
    hide Settlement.Distance;
    RoundAhead(p, j, |seats|);
    RoundAhead(p, k, |seats|);
    hide Round;
    Settlement.DistanceIs(seats[p], After(seats, p, j));
    Settlement.DistanceIs(seats[p], After(seats, p, k));
  }

  lemma PlaceOf(seats: seq<int>, s: int) returns (p: nat)
    requires SeatList(seats) && s in seats
    ensures p < |seats| && seats[p] == s && IndexOf(seats, s) == p
  {
    p :| p < |seats| && seats[p] == s;
    IndexOfSeat(seats, p);
  }

  /** A seat at k places is nearest among those at k places or more. */
  lemma NearestAtPlace(seats: seq<int>, w: set<int>, p: nat, k: nat)
    requires SeatList(seats) && p < |seats| && 1 <= k && After(seats, p, k) in w
    requires forall s :: s in w ==> s in seats
    requires forall j :: 1 <= j < k ==> After(seats, p, j) !in w
    ensures Settlement.Nearest(seats[p], w, After(seats, p, k))
  {
    hide Settlement.Distance, After;
    var r := After(seats, p, k);
    forall s | s in w ensures Settlement.Distance(seats[p], r) <= Settlement.Distance(seats[p], s) {
      var i: nat :| i < |seats| && seats[i] == s;
      var j := RoundMeets(seats, p, i);
      if k < j {
        DistanceGrows(seats, p, k, j);
      }
    }
  }

  /** nextPendingSeat finds the nearest pending seat. */
  lemma FoundIsNearest(t: Table, current: int)
    requires SeatList(t.seats) && current in t.seats && t.pending != {} && forall s :: s in t.pending ==> s in t.seats
    ensures Settlement.Nearest(current, t.pending, NextPendingSeat(t, current))
  {
    NextPendingFinds(t, current);
    var some := Member(t.pending);
    var p := PlaceOf(t.seats, current);
    ScanFrom(t.seats, t.pending, p, SEATS + 1);
    hide ScanPending, After, Settlement.Nearest;
    var r := NextPendingSeat(t, current);
    assert r in t.pending;
    var k: nat :| FirstAt(t.seats, t.pending, p, SEATS + 1, r, k);
    NearestAtPlace(t.seats, t.pending, p, k);
  }

  /** nextSeatFrom finds the nearest taken seat. */
  lemma NextIsNearest(seats: seq<int>, current: int)
    requires SeatList(seats) && current in seats
    ensures Settlement.Nearest(current, Taken(seats), NextSeatFrom(seats, current)) && NextSeatFrom(seats, current) in seats
  {
    var p := PlaceOf(seats, current);
    StepFrom(seats, p);
    hide Settlement.Nearest;
    NearestAtPlace(seats, Taken(seats), p, 1);
  }

  // ----- opening a street -----

  /** The nearest seat of w from the dealer is asked, and the others of w are pending. */
  ghost predicate AskedFrom(from: int, w: set<int>, u: Table) {
    Settlement.Nearest(from, w, u.turn) && u.pending == w - {u.turn}
  }

  lemma StreetAsks(t: Table)
    requires SeatList(t.seats) && t.dealer in t.seats && t.street != PreFlop
    ensures var u, w := FirstAction(ResetPending(t)), Able(t) - {t.turn};
      && u == t.(turn := u.turn, pending := u.pending)
      && if w == {} then u.turn == -1 && u.pending == {} else AskedFrom(t.dealer, w, u)
  {
    AbleAct(t);
    var r := ResetPending(t);
    var first := NextSeatFrom(t.seats, t.dealer);
    NextIsNearest(t.seats, t.dealer);
    AbleTaken(t);
    hide ActingSeats, Able, NextPendingSeat, NextSeatFrom, Settlement.Nearest, Settlement.Distance, Taken;
    if r.pending != {} {
      if first !in r.pending {
        FoundIsNearest(r, first);
        NearestMember(first, r.pending, NextPendingSeat(r, first));
      }
      var a := if first in r.pending then first else NextPendingSeat(r, first);
      Settlement.NearestPast(t.dealer, first, Taken(t.seats), r.pending, a);
      NearestMember(t.dealer, r.pending, a);
    } else {
      NothingPending(r, first);
    }
  }

  lemma NothingPending(t: Table, current: int)
    requires t.pending == {}
    ensures NextPendingSeat(t, current) == -1
  {}

  lemma NearestMember(from: int, w: set<int>, i: int)
    requires Settlement.Nearest(from, w, i)
    ensures i in w
  {}

  lemma AbleTaken(t: Table)
    requires SeatList(t.seats)
    ensures Able(t) <= Taken(t.seats)
    ensures forall s :: s in Taken(t.seats) <==> s in t.seats
    ensures forall s :: s in Taken(t.seats) ==> 0 <= s < SEATS
  {}

  function Following(s: Street): Street {
    match s
    case PreFlop => Flop
    case Flop => Turn
    case Turn => River
    case _ => HandOver
  }

  ghost predicate BetsTakenIn(v: Table, u: Table) {
    && u.players.Keys == v.players.Keys
    && forall s :: s in v.players ==> u.players[s] == v.players[s].(bet := if s in v.seats then 0 else v.players[s].bet)
  }

  /** u is v on a later street, opened by the nearest seat of w from the dealer. */
  ghost predicate Opens(v: Table, street: Street, w: set<int>, u: Table) {
    && u.street == street && u.seats == v.seats && u.dealer == v.dealer && u.handNum == v.handNum
    && BetsTakenIn(v, u) && u.pot == v.pot && u.maxBet == 0 && u.minRaise == 100
    && AskedFrom(v.dealer, w, u)
  }

  /** The hand is over, and the pot of v has gone to the seats with the best hands. */
  ghost predicate Finished(v: Table, u: Table) {
    && u.street == HandOver && u.turn == -1 && u.pot == v.pot && u.seats == v.seats
    && u.dealer == v.dealer && u.handNum == v.handNum && u.players.Keys == v.players.Keys
    && (|StillIn(v)| > 1 ==> |u.board| == 5) && StillIn(u) == StillIn(v) && PaidOut(v, u)
  }

  ghost predicate PaidOut(v: Table, u: Table) {
    forall s :: s in v.players ==>
      && s in u.players
      && u.players[s] == v.players[s].(chips := u.players[s].chips, bet := u.players[s].bet)
      && u.players[s].chips == v.players[s].chips + PotShare(v.pot, EngineTakers(u), s)
  }

  /**
    A street with nobody pending closes: after the river, or with nobody able to bet, the hand
    is over.  Otherwise the next street opens among those able to bet, without the seat that
    acted last; if that is the only one, the next street is passed over.
    */
  ghost predicate Closes(v: Table, last: int, u: Table) {
    if v.street == River || Able(v) == {} then Finished(v, u)
    else if Able(v) - {last} != {} then Opens(v, Following(v.street), Able(v) - {last}, u)
    else if v.street == Turn then Finished(v, u)
    else Opens(v, Following(Following(v.street)), Able(v), u)
  }

  ghost predicate GoesOn(v: Table, u: Table) {
    if |StillIn(v)| <= 1 then Finished(v, u)
    else if v.pending != {}
    then u == v.(turn := u.turn, pending := v.pending - {u.turn}) && Settlement.Nearest(v.turn, v.pending, u.turn)
    else Closes(v, v.turn, u)
  }

  // ----- finishing -----

  lemma FinishIsFinished(t: Table)
    requires SeatsOk(t) && (|StillIn(t)| > 1 ==> CardsOk(t) && t.street == River)
    ensures Finished(t, FinishHand(t))
  {
    FinishPays(t);
    TakersAreEngineTakers(t);
    hide CardsOk, FinishHand, Takers, PotShare, EngineTakers, StillIn;
    SameTakers(t, FinishHand(t));
    if |StillIn(t)| > 1 {
      RiverBoard(t);
    }
  }

  lemma RiverBoard(t: Table)
    requires CardsOk(t) && t.street == River
    ensures |t.board| == 5
  {
    hide AllCards, HolesOk, FreshDeck;
  }

  /** Chips and bets do not enter into who takes the pot. */
  lemma SameTakers(a: Table, b: Table)
    requires b.seats == a.seats && b.board == a.board && b.players.Keys == a.players.Keys
    requires forall s :: s in a.players ==> b.players[s].folded == a.players[s].folded && b.players[s].hole == a.players[s].hole
    ensures StillIn(b) == StillIn(a) && EngineTakers(b) == EngineTakers(a)
  {
    forall s ensures s in StillIn(b) <==> s in StillIn(a) {
    }
    StillInPlays(a);
    hide StillIn;
    forall s | s in StillIn(a) ensures EngineHand(b, s) == EngineHand(a, s) {
    }
    hide EngineHand;
  }

  // ----- closing a street -----

  /** The end of a street, and the next one before its first seat is asked. */
  lemma EndStreetIs(v: Table)
    requires v.pending == {}
    ensures var t := EndStreet(v);
      && t == v.(players := t.players, maxBet := 0, minRaise := 100) && BetsTakenIn(v, t)
      && Able(t) == Able(v) && StillIn(t) == StillIn(v)
  {
    forall s ensures s in Able(EndStreet(v)) <==> s in Able(v) {
    }
    forall s ensures s in StillIn(EndStreet(v)) <==> s in StillIn(v) {
    }
  }

  lemma FollowsDealt(t: Table)
    requires StreetsLeft(t.street) > 1
    ensures var u := DealStreet(t);
      && u == t.(street := Following(t.street), deck := u.deck, board := u.board)
      && u.street != PreFlop && Able(u) == Able(t) && StillIn(u) == StillIn(t)
  {
    hide DealCommunity;
    DealKeepsStreet(t.(street := Flop), 3);
    DealKeepsStreet(t.(street := Turn), 1);
    DealKeepsStreet(t.(street := River), 1);
  }

  /** The street opened after v, and who was asked. */
  lemma NextStreetAsks(v: Table)
    requires SeatList(v.seats) && v.dealer in v.seats && v.pending == {} && StreetsLeft(v.street) > 1
    ensures var u, w := NextStreet(EndStreet(v)), Able(v) - {v.turn};
      && Able(u) == Able(v) && StillIn(u) == StillIn(v) && u.street == Following(v.street)
      && BetsTakenIn(v, u) && u.pot == v.pot && u.seats == v.seats && u.dealer == v.dealer
      && if w != {} then Opens(v, Following(v.street), w, u) else u.turn == -1 && u.pending == {}
  {
    var t1 := EndStreet(v);
    EndStreetIs(v);
    FollowsDealt(t1);
    StreetAsks(DealStreet(t1));
    hide EndStreet, DealStreet, FirstAction, ResetPending, Able, StillIn, BetsTakenIn, AskedFrom;
    var u := NextStreet(t1);
    AskedSame(DealStreet(t1), u);
    BetsStayIn(v, t1, u);
  }

  lemma AskedSame(a: Table, b: Table)
    requires b == a.(turn := b.turn, pending := b.pending)
    ensures Able(b) == Able(a) && StillIn(b) == StillIn(a)
  {}

  lemma BetsStayIn(v: Table, a: Table, b: Table)
    requires BetsTakenIn(v, a) && b.players == a.players
    ensures BetsTakenIn(v, b)
  {}

  lemma FinishedAfter(v: Table, t: Table, u: Table)
    requires BetsTakenIn(v, t) && t.pot == v.pot && t.seats == v.seats && t.dealer == v.dealer && t.handNum == v.handNum
    requires StillIn(t) == StillIn(v) && Finished(t, u)
    ensures Finished(v, u)
  {
    hide StillIn, EngineTakers, PotShare;
  }

  lemma OpensAfter(v: Table, t: Table, street: Street, w: set<int>, u: Table)
    requires BetsTakenIn(v, t) && t.pot == v.pot && t.seats == v.seats && t.dealer == v.dealer && t.handNum == v.handNum
    requires Opens(t, street, w, u)
    ensures Opens(v, street, w, u)
  {
    hide AskedFrom;
  }

  lemma NobodyBelowZero(v: Table)
    requires SeatList(v.seats)
    ensures Able(v) - {-1} == Able(v)
  {}

  /** After a street that asked nobody, the same seats close the next one with no last actor. */
  lemma ClosesAfter(v: Table, t: Table, u: Table)
    requires StreetsLeft(v.street) > 1 && t.street == Following(v.street) && Able(t) == Able(v) && StillIn(t) == StillIn(v)
    requires BetsTakenIn(v, t) && t.pot == v.pot && t.seats == v.seats && t.dealer == v.dealer && t.handNum == v.handNum
    requires Able(v) - {v.turn} == {} && Able(t) - {-1} == Able(t) && Closes(t, -1, u)
    ensures Closes(v, v.turn, u)
  {
    hide Able, StillIn, BetsTakenIn, Finished, Opens;
    if t.street == River || Able(t) == {} {
      FinishedAfter(v, t, u);
    } else {
      OpensAfter(v, t, Following(t.street), Able(t), u);
    }
  }

  /** What the settled street needs to be in order. */
  ghost predicate Orderly(t: Table) {
    SeatsOk(t) && CardsOk(t) && Running(t) && t.dealer in t.seats
  }

  lemma NextStreetOrderly(v: Table)
    requires Orderly(v) && v.pending == {} && StreetsLeft(v.street) > 1
    ensures Orderly(EndStreet(v)) && Orderly(NextStreet(EndStreet(v))) && NextStreet(EndStreet(v)).handNum == v.handNum
  {
    var t1 := EndStreet(v);
    EndStreetCards(v);
    SameCardsOk(v, t1);
    NextStreetAsks(v);
    EndStreetWorth(v);
    hide EndStreet, Chips, Contenders, Able, StillIn, Opens;
    StreetCards(t1);
    NextStreetWorth(t1);
    hide AllCards, FreshDeck, HolesOk;
    StreetNumbers(t1);
  }

  lemma StreetNumbers(t: Table)
    requires StreetsLeft(t.street) > 1
    ensures NextStreet(t).handNum == t.handNum
  {
    DealStreetKeeps(t);
    hide DealStreet, NextPendingSeat, NextSeatFrom;
  }

  lemma RiverOrderly(v: Table)
    requires Orderly(v)
    ensures Orderly(EndStreet(v))
  {
    EndStreetCards(v);
    SameCardsOk(v, EndStreet(v));
    hide CardsOk;
  }

  lemma LastStreet(s: Street)
    requires s != HandOver && s != Waiting
    ensures StreetsLeft(s) >= 1 && (StreetsLeft(s) <= 1 <==> s == River)
  {}

  lemma {:induction false} ClosingMeans(v: Table)
    requires Orderly(v) && v.pending == {} && |StillIn(v)| > 1
    ensures Closes(v, v.turn, CloseStreet(v))
    decreases StreetsLeft(v.street)
  {
    hide EndStreet, NextStreet, FinishHand, Settle, Able, StillIn, BetsTakenIn, Opens, Finished, Closes, CardsOk;
    var t1 := EndStreet(v);
    EndStreetIs(v);
    LastStreet(v.street);
    if v.street == River {
      RiverOrderly(v);
      FinishIsFinished(t1);
      FinishedAfter(v, t1, FinishHand(t1));
      RiverCloses(v, FinishHand(t1));
    } else {
      NextStreetAdvances(t1);
      NextStreetAsks(v);
      NextStreetOrderly(v);
      var t2 := NextStreet(t1);
      if Able(v) - {v.turn} != {} {
        SomebodyOpens(v, t2);
      } else {
        NobodyBelowZero(t2);
        SettlesByClosing(t2);
        ClosingMeans(t2);
        ClosesAfter(v, t2, CloseStreet(t2));
      }
    }
  }

  lemma RiverCloses(v: Table, u: Table)
    requires v.street == River && Finished(v, u)
    ensures Closes(v, v.turn, u)
  {}

  lemma SomebodyOpens(v: Table, u: Table)
    requires SeatList(v.seats) && Able(v) - {v.turn} != {} && v.street != River
    requires Opens(v, Following(v.street), Able(v) - {v.turn}, u)
    ensures Closes(v, v.turn, u) && u.turn >= 0
  {
    hide BetsTakenIn, Finished, Settlement.Distance;
    assert u.turn in Able(v);
  }

  lemma SettlesByClosing(t: Table)
    requires SeatsOk(t) && |StillIn(t)| > 1 && t.pending == {}
    ensures Settle(t) == CloseStreet(t)
  {
    ContendersAreIn(t);
    hide Contenders, CloseStreet, StillIn;
  }

  /** settleStreetOrAdvanceTurn. */
  lemma SettleMeans(v: Table)
    requires Orderly(v) && (v.pending != {} ==> v.turn in v.seats) && forall s :: s in v.pending ==> s in v.seats
    ensures GoesOn(v, Settle(v))
  {
    ContendersAreIn(v);
    hide Contenders, CloseStreet, FinishHand, Finished, Closes, StillIn, CardsOk, NextPendingSeat, Settlement.Nearest;
    if |StillIn(v)| <= 1 {
      FinishIsFinished(v);
    } else if v.pending != {} {
      FoundIsNearest(v, v.turn);
      NearestMember(v.turn, v.pending, NextPendingSeat(v, v.turn));
    } else {
      ClosingMeans(v);
      SettlesByClosing(v);
    }
  }
}
