/**
  Which cards go where: everything comes off the top of the shuffled deck, two rounds of hole
  cards clockwise from the seat after the dealer, and then the board, with no card burned.
  */
module HandDeal {
  import opened Common
  import opened HoldemTypes
  import opened HoldemEvaluator
  import opened PotManager
  import opened Settlement
  import opened TableState
  import opened HandRules
  import opened HandLedger
  import opened HandCards
  import opened HandPlay
  import opened HandStart
  import opened HandTheorems
  import opened HandTurns
  import opened HandMoves
  import opened HandOpening

  // ----- the board -----

  lemma {:induction false} DealtOffTheTop(t: Table, n: nat, d: seq<Card>)
    requires OffTheTop(d, t.deck, t.board)
    ensures OffTheTop(d, DealCommunity(t, n).deck, DealCommunity(t, n).board)
    decreases n
  {
    if n > 0 && t.deck != [] {
      var last := |t.deck| - 1;
      var u := t.(board := t.board + [t.deck[last]], deck := t.deck[..last]);
      assert u.deck == d[..|u.deck|];
      DealtOffTheTop(u, n - 1, d);
    }
  }

  lemma FinishOffTheTop(t: Table, d: seq<Card>)
    requires OffTheTop(d, t.deck, t.board)
    ensures OffTheTop(d, FinishHand(t).deck, FinishHand(t).board)
  {
    hide OffTheTop, PotsOf, Payout, Best, Contributors, InHand;
    var t0 := t.(pending := {}, active := -1);
    DealtOffTheTop(t0, if |t0.board| < 5 then 5 - |t0.board| else 0, d);
  }

  lemma NextStreetOffTheTop(t: Table, d: seq<Card>)
    requires OffTheTop(d, t.deck, t.board)
    ensures OffTheTop(d, NextStreet(t).deck, NextStreet(t).board)
  {
    hide OffTheTop, DealCommunity, ClearBets;
    var t1 := t.(players := ClearBets(t.players), currentMaxBet := 0);
    DealtOffTheTop(t1.(round := Flop), 3, d);
    DealtOffTheTop(t1.(round := Turn), 1, d);
    DealtOffTheTop(t1.(round := River), 1, d);
  }

  lemma {:induction false} ProceedOffTheTop(t: Table, d: seq<Card>)
    requires StreetsLeft(t.round) > 0 && OffTheTop(d, t.deck, t.board)
    ensures OffTheTop(d, ProceedToNextStreet(t).deck, ProceedToNextStreet(t).board)
    decreases StreetsLeft(t.round), 0
  {
    hide FinishHand, NextStreet, Walk, OffTheTop;
    var t1 := NextStreet(t);
    NextStreetGoesOn(t);
    NextStreetTouches(t);
    NextStreetOffTheTop(t, d);
    if t1.round == Showdown {
      FinishOffTheTop(t1, d);
    } else {
      RequestOffTheTop(InitPending(t1, ActiveOffset(t1, t1.dealer, 1)), d);
    }
  }

  lemma {:induction false} RequestOffTheTop(t: Table, d: seq<Card>)
    requires StreetsLeft(t.round) > 0 && OffTheTop(d, t.deck, t.board)
    ensures OffTheTop(d, RequestTurn(t).deck, RequestTurn(t).board)
    decreases StreetsLeft(t.round), 1
  {
    hide FinishHand, NextClockwise, InHand, Actable, OffTheTop;
    FinishOffTheTop(t, d);
    FinishOffTheTop(t.(round := Showdown), d);
    var t1 := RemoveIneligible(t);
    var t2 := t1.(active := SeatToAsk(t1));
    if |InHand(t)| > 1 && Actable(t) != {} && t2.active < 0 {
      ProceedOffTheTop(t2, d);
    }
  }

  lemma AdvanceOffTheTop(t: Table, seat: int, d: seq<Card>)
    requires StreetsLeft(t.round) > 0 && OffTheTop(d, t.deck, t.board)
    ensures OffTheTop(d, Advance(t, seat).deck, Advance(t, seat).board)
  {
    hide FinishHand, NextClockwise, InHand, Actable, RequestTurn, ProceedToNextStreet, OffTheTop;
    FinishOffTheTop(t, d);
    var t1 := RemoveIneligible(t);
    if |InHand(t)| > 1 {
      if t1.pending == {} {
        ProceedOffTheTop(t1, d);
      } else {
        RequestOffTheTop(t1.(active := NextActor(t1, seat)), d);
      }
    }
  }

  lemma StepOffTheTop(base: Table, t: Table, e: Event, d: seq<Card>)
    requires Outcome(base, t) && OffTheTop(d, t.deck, t.board)
    ensures OffTheTop(d, Step(t, e).deck, Step(t, e).board)
  {
    hide Outcome, Advance, Apply, OffTheTop, Live;
    if Accepts(t, e.seat, e.action, e.fromSocket) {
      AcceptedOnlyLive(base, t, e);
      StreetOfLive(t);
      var t1 := t.(lastActor := e.seat);
      ActionKeepsTable(t1, e.seat, e.action);
      AdvanceOffTheTop(Apply(t1, e.seat, e.action), e.seat, d);
    } else {
      RejectedActionChangesNothing(t, e.seat, e.action, e.fromSocket);
    }
  }

  lemma StreetOfLive(t: Table)
    requires Live(t)
    ensures StreetsLeft(t.round) > 0
  {}

  lemma {:induction false} RunOffTheTop(base: Table, t: Table, es: seq<Event>, d: seq<Card>)
    requires Outcome(base, t) && OffTheTop(d, t.deck, t.board)
    ensures OffTheTop(d, Run(t, es).deck, Run(t, es).board)
    decreases |es|
  {
    hide Outcome, Step, OffTheTop;
    if es != [] {
      StepOffTheTop(base, t, es[0], d);
      StepKeepsOutcome(base, t, es[0]);
      RunOffTheTop(base, Step(t, es[0]), es[1..], d);
    }
  }

  // ----- hole cards -----

  /** Everybody in the list has one card more, in order from the top of the deck. */
  ghost predicate RoundDealt(t: Table, to: seq<int>, u: Table) {
    && |to| <= |t.deck| && u.deck == t.deck[..|t.deck| - |to|] && u.players.Keys == t.players.Keys
    && (forall i :: i in t.players && i !in to ==> u.players[i] == t.players[i])
    && forall k :: 0 <= k < |to| ==>
         && to[k] in t.players
         && u.players[to[k]].hand == t.players[to[k]].hand + [t.deck[|t.deck| - 1 - k]]
  }

  lemma {:induction false} RoundIsDealt(t: Table, to: seq<int>)
    requires NoRepeats(to) && (forall i :: i in to ==> i in t.players) && |to| <= |t.deck|
    ensures RoundDealt(t, to, DealRound(t, to))
  {
    if to != [] {
      var init, last := to[..|to| - 1], to[|to| - 1];
      assert to == init + [last];
      RoundIsDealt(t, init);
      LastIsDealt(t, init, last, DealRound(t, init));
    } else {
      assert t.deck[..|t.deck|] == t.deck;
    }
  }

  lemma LastIsDealt(t: Table, init: seq<int>, last: int, u: Table)
    requires RoundDealt(t, init, u) && last in t.players && last !in init && |init| < |t.deck|
    ensures RoundDealt(t, init + [last], DealOne(u, last))
  {
    var v := DealOne(u, last);
    var n := |t.deck| - |init|;
    assert u.deck[n - 1] == t.deck[n - 1];
    assert v.deck == t.deck[..n - 1];
    forall k | 0 <= k < |init + [last]|
      ensures var x := (init + [last])[k];
        x in t.players && v.players[x].hand == t.players[x].hand + [t.deck[|t.deck| - 1 - k]]
    {
      if k < |init| {
        assert (init + [last])[k] == init[k] && init[k] in init;
      }
    }
  }

  /** The deal goes round by distance from the dealer. */
  lemma {:induction false} OrderOfDeal(t: Table, n: nat)
    requires 0 <= t.dealer < SEATS && n <= SEATS
    ensures InDistanceOrder(t.dealer, DealOrder(t, n))
    ensures forall i :: i in DealOrder(t, n) ==> 0 <= i < SEATS && Distance(t.dealer, i) < n
  {
    hide Eligible, Distance;
    if n > 0 {
      OrderOfDeal(t, n - 1);
      StepDistance(t.dealer, n);
      AppendFurther(t.dealer, DealOrder(t, n - 1), (t.dealer + n) % SEATS, n - 1);
    }
  }

  lemma AppendFurther(dealer: int, order: seq<int>, seat: int, d: int)
    requires InDistanceOrder(dealer, order) && Distance(dealer, seat) == d
    requires forall i :: i in order ==> Distance(dealer, i) < d
    ensures InDistanceOrder(dealer, order + [seat]) && InDistanceOrder(dealer, order + [])
  {
    hide Distance;
    assert order + [] == order;
    forall i | 0 <= i < |order| ensures Distance(dealer, order[i]) < d {
      assert order[i] in order;
    }
  }

  /** The cards of seat i: in each round it comes after the seats of `dealt` met before it. */
  ghost predicate HoldsFromTop(shuffled: seq<Card>, dealer: int, dealt: set<int>, i: int, hand: seq<Card>) {
    var m, k := |dealt|, |SeatsBefore(dealer, dealt, i)|;
    && m + k < |shuffled|
    && hand == [shuffled[|shuffled| - 1 - k], shuffled[|shuffled| - 1 - m - k]]
  }

  lemma SeatFromTop(t: Table, to: seq<int>, dealt: set<int>, t1: Table, u: Table, k: nat)
    requires RoundDealt(t, to, t1) && RoundDealt(t1, to, u) && k < |to| && |t.deck| == 52
    requires InDistanceOrder(t.dealer, to) && forall i :: i in to <==> i in dealt
    requires t.players[to[k]].hand == []
    ensures HoldsFromTop(t.deck, t.dealer, dealt, to[k], u.players[to[k]].hand)
  {
    hide InDistanceOrder, SeatsBefore;
    BeforeInOrder(t.dealer, to, dealt, k);
    assert t1.players[to[k]].hand == [t.deck[51 - k]];
    assert t1.deck[|t1.deck| - 1 - k] == t.deck[51 - |to| - k];
  }

  lemma TwoRounds(t: Table, to: seq<int>, dealt: set<int>)
    requires InDistanceOrder(t.dealer, to) && (forall i :: i in to <==> i in dealt) && |to| <= SEATS
    requires |t.deck| == 52 && (forall i :: i in to ==> i in t.players) && forall i :: i in t.players ==> t.players[i].hand == []
    ensures var u := DealRound(DealRound(t, to), to);
      && |dealt| == |to| && u.deck == t.deck[..52 - 2 * |dealt|] && u.players.Keys == t.players.Keys
      && forall i :: i in t.players ==>
           if i in dealt then HoldsFromTop(t.deck, t.dealer, dealt, i, u.players[i].hand) else u.players[i].hand == []
  {
    hide InDistanceOrder, DealRound, HoldsFromTop;
    OrderHasNoRepeats(t.dealer, to);
    MembersOf(to, dealt);
    RoundIsDealt(t, to);
    var t1 := DealRound(t, to);
    RoundIsDealt(t1, to);
    var u := DealRound(t1, to);
    forall i | i in t.players
      ensures if i in dealt then HoldsFromTop(t.deck, t.dealer, dealt, i, u.players[i].hand) else u.players[i].hand == []
    {
      if i in dealt {
        assert i in to;
        var k: nat :| k < |to| && to[k] == i;
        SeatFromTop(t, to, dealt, t1, u, k);
      }
    }
  }

  /** deal_hole_cards. */
  lemma HoleCardsFromTop(t: Table)
    requires Frame(t) && |t.deck| == 52 && forall i :: i in t.players ==> t.players[i].hand == []
    ensures var u, dealt := DealHoleCards(t), EligibleSeats(t);
      && |dealt| <= SEATS && u.deck == t.deck[..52 - 2 * |dealt|] && u.players.Keys == t.players.Keys
      && forall i :: i in t.players ==>
           if i in dealt then HoldsFromTop(t.deck, t.dealer, dealt, i, u.players[i].hand) else u.players[i].hand == []
  {
    OrderOfDeal(t, SEATS);
    DealOrderGrows(t, SEATS, SEATS);
    DealtMembers(t);
    EligibleArePlayers(t);
    hide DealOrder, EligibleSeats, Eligible, Distance, InDistanceOrder, DealRound, HoldsFromTop;
    TwoRounds(t, DealOrder(t, SEATS), EligibleSeats(t));
  }

  lemma DealtMembers(t: Table)
    requires Frame(t)
    ensures forall i :: i in DealOrder(t, SEATS) <==> i in EligibleSeats(t)
  {
    hide DealOrder, Eligible;
    forall i ensures i in DealOrder(t, SEATS) <==> i in EligibleSeats(t) {
      DealtIffEligible(t, i);
      if i in EligibleSeats(t) { EligibleMember(t, i); }
      if i in DealOrder(t, SEATS) {
        assert multiset(DealOrder(t, SEATS))[i] > 0;
        EligibleIsListed(t, i);
      }
    }
  }

  lemma EligibleArePlayers(t: Table)
    ensures forall i :: i in EligibleSeats(t) ==> i in t.players
  {}

  // ----- the opening -----

  /** Hole cards from the top of d to exactly the seats that can act, and nothing on the board yet. */
  ghost predicate DealtFromTop(d: seq<Card>, o: Table) {
    && |CanAct(o)| <= SEATS && |d| == 52 && o.deck == d[..52 - 2 * |CanAct(o)|] && o.board == []
    && forall i :: i in o.players ==>
         if i in CanAct(o) then HoldsFromTop(d, o.dealer, CanAct(o), i, o.players[i].hand) else o.players[i].hand == []
  }

  /** After the blinds the eligible seats are those that can act. */
  lemma EligibleCanAct(u: Table, v: Table)
    requires Roster(v) && SameHand(u, v) && InHand(v) == InHand(u) == EligibleSeats(u)
    requires forall i :: i in v.players ==> v.players[i].folded == u.players[i].folded && v.players[i].chips <= u.players[i].chips
    ensures EligibleSeats(v) == CanAct(v)
  {
    RosterMeans(v);
    hide Eligible, InHandSeat;
    forall i ensures i in EligibleSeats(v) <==> i in CanAct(v) {
      if i in v.players {
        EligibleAfterBlinds(u, v, i);
      }
      if i in CanAct(v) { assert i in InHand(v); }
    }
  }

  lemma PostedFromTop(t: Table)
    requires Ready(t) && Roster(t) && (forall i :: i in t.players ==> Fresh(t.players[i]))
    requires t.pot == 0 && |EligibleSeats(t)| >= 2 && InHand(t) == EligibleSeats(t)
    requires t.round == PreFlop && t.board == [] && |t.deck| == 52
    ensures DealtFromTop(t.deck, PostAndDeal(t))
  {
    hide Walk, DealHoleCards, AllCards, PostBlind, Total, EligibleSeats, InHand, HoldsFromTop, InHandSeat;
    BlindsPosted(t);
    var sb, bb := ActiveOffset(t, t.dealer, 1), ActiveOffset(t, t.dealer, 2);
    var v := PostBlind(PostBlind(t.(sb := sb, bb := bb), sb, t.smallBlind), bb, t.bigBlind);
    RosterSame(t, v);
    EligibleCanAct(t, v);
    HoleCardsDealt(v);
    HoleCardsFromTop(v);
    OnlyHandsMoved(v, PostAndDeal(t));
  }

  lemma OnlyHandsMoved(v: Table, p: Table)
    requires p.players.Keys == v.players.Keys
    requires forall i :: i in v.players ==> p.players[i] == v.players[i].(hand := p.players[i].hand)
    ensures CanAct(p) == CanAct(v)
  {
    forall i ensures i in CanAct(p) <==> i in CanAct(v) {
    }
  }

  lemma OpeningFromTop(t: Table, shuffled: seq<Card>)
    requires Ready(t) && Deals(t) && multiset(shuffled) == multiset(FullDeck())
    ensures DealtFromTop(shuffled, Opening(t, shuffled))
  {
    hide Walk, FullDeck, PostAndDeal, ResetHand, Eligible, InHandSeat, HoldsFromTop;
    var t1 := ApplyRebuys(EnsurePlayers(t));
    SeatedIsReady(t);
    var t2 := ResetHand(t1, shuffled);
    ResetTable(t1, shuffled);
    hide EligibleSeats;
    SubsetIsSmaller(EligibleSeats(t1), EligibleSeats(t2));
    ResetKeepsBlinds(t1, shuffled);
    assert |multiset(shuffled)| == 52;
    PostedFromTop(t2);
    SameDealt(shuffled, PostAndDeal(t2), Opening(t, shuffled));
  }

  lemma SameDealt(d: seq<Card>, a: Table, b: Table)
    requires DealtFromTop(d, a) && b == a.(pending := b.pending, active := b.active)
    ensures DealtFromTop(d, b)
  {
    hide HoldsFromTop;
    RosterSameCanAct(a, b);
    hide CanAct;
  }

  // ----- the whole hand -----

  /** Where every card of the table came from in the shuffled deck, `dealt` having been dealt in. */
  ghost predicate FromTheTop(shuffled: seq<Card>, dealer: int, dealt: set<int>, r: Table) {
    && |shuffled| == 52 && |dealt| <= SEATS
    && OffTheTop(shuffled[..52 - 2 * |dealt|], r.deck, r.board)
    && forall i :: i in r.players ==>
         if i in dealt then HoldsFromTop(shuffled, dealer, dealt, i, r.players[i].hand) else r.players[i].hand == []
  }

  lemma RunFromTop(o: Table, shuffled: seq<Card>, s: Table, es: seq<Event>)
    requires DealtFromTop(shuffled, o) && s == RequestTurn(o) && StreetsLeft(o.round) > 0
    requires Outcome(o, s) && Outcome(o, Run(s, es))
    ensures FromTheTop(shuffled, o.dealer, CanAct(o), Run(s, es))
  {
    hide HoldsFromTop, CanAct, Outcome, Run, RequestTurn, OffTheTop;
    var d := shuffled[..52 - 2 * |CanAct(o)|];
    NoBoardYet(d, o);
    RequestOffTheTop(o, d);
    RunOffTheTop(o, s, es, d);
    HandsOfOutcome(o, Run(s, es));
  }

  lemma NoBoardYet(d: seq<Card>, o: Table)
    requires o.deck == d && o.board == []
    ensures OffTheTop(d, o.deck, o.board)
  {}

  /**
    At every point of every hand, by the shuffled deck alone: the seats dealt in whose blind left
    them chips hold the cards of their two rounds, clockwise from the dealer, everybody
    else holds none, and the board is what came next off the deck, card by card.
    */
  lemma CardsFromTheTop(t: Table, shuffled: seq<Card>, es: seq<Event>)
    requires Ready(t) && Deals(t) && multiset(shuffled) == multiset(FullDeck())
    ensures FromTheTop(shuffled, t.dealer, WithCards(t, StartHand(t, shuffled)), Run(StartHand(t, shuffled), es))
  {
    WhoHasCards(t, shuffled);
    OpeningFromTop(t, shuffled);
    OpeningMeaning(t, shuffled);
    StartOutcome(t, shuffled);
    StartIsRequested(t, shuffled);
    hide Opening, FullDeck, RequestTurn, StartHand, CanAct, InHand, DealtFromTop, FromTheTop;
    hide Opened, BlindsAreBets, Nearest, DealtInSeats, Run, Deals, Ready, Outcome, WithCards;
    var o := Opening(t, shuffled);
    BettingStreets(o);
    HandInvariant(t, shuffled, es);
    DealerOfOpening(t, o);
    hide Betting;
    RunFromTop(o, shuffled, StartHand(t, shuffled), es);
  }

  /** Dealt in, and not put all-in by a blind. */
  ghost function WithCards(t: Table, s: Table): set<int> {
    set i | i in s.players && DealtIn(t, i) && s.players[i].contribution < SitsDownWith(t, i)
  }

  lemma CardsWhereChips(t: Table, o: Table, s: Table)
    requires Opened(t, o) && BlindsAreBets(t, o) && s.players.Keys == o.players.Keys
    requires forall i :: i in o.players ==> s.players[i].contribution == o.players[i].contribution
    ensures WithCards(t, s) == CanAct(o)
  {
    hide Nearest, DealtIn, SitsDownWith, Taken;
    forall i ensures i in WithCards(t, s) <==> i in CanAct(o) {
      if i in o.players {
        assert o.players[i].folded <==> !DealtIn(t, i);
      }
    }
  }

  lemma WhoHasCards(t: Table, shuffled: seq<Card>)
    requires Ready(t) && Deals(t) && multiset(shuffled) == multiset(FullDeck())
    ensures WithCards(t, StartHand(t, shuffled)) == CanAct(Opening(t, shuffled))
  {
    OpeningMeaning(t, shuffled);
    StartIsRequested(t, shuffled);
    hide Opening, StartHand, FullDeck, RequestTurn, Betting, Opened, BlindsAreBets, Nearest, CanAct, InHand, DealtInSeats;
    hide Ready, Deals, WithCards;
    var o := Opening(t, shuffled);
    FirstTurnKeeps(o);
    CardsWhereChips(t, o, StartHand(t, shuffled));
  }

  lemma FirstTurnKeeps(o: Table)
    requires Betting(o) && |InHand(o)| >= 2 && o.pending == CanAct(o) && 0 <= o.active < SEATS
    ensures var s := RequestTurn(o);
      && s.players.Keys == o.players.Keys
      && forall i :: i in o.players ==> s.players[i].contribution == o.players[i].contribution
  {
    BettingStreets(o);
    BettingRoster(o);
    RosterMeans(o);
    hide Betting, RequestTurn, CanAct, InHand, Actable, Nearest;
    if CanAct(o) == {} {
      RequestEnds(o);
      RequestSettles(o);
    } else {
      RequestAsks(o);
    }
  }

  lemma HandsOfOutcome(base: Table, r: Table)
    requires Outcome(base, r)
    ensures r.players.Keys == base.players.Keys && forall i :: i in r.players ==> r.players[i].hand == base.players[i].hand
  {
    hide Live, Settled, AllCards, FullDeck, InHand;
  }

  lemma DealerOfOpening(t: Table, o: Table)
    requires Opened(t, o)
    ensures o.dealer == t.dealer
  {
    hide Nearest, DealtInSeats, DealtIn, SitsDownWith, Taken;
  }
}
