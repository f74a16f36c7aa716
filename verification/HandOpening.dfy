/**
  What start_hand leaves, told by the fields of the table before it: who is dealt in, who
  posts which blind, what everybody has put in, and who is asked first.
  */
module HandOpening {
  import opened Common
  import opened HoldemTypes
  import opened Settlement
  import opened TableState
  import opened HandRules
  import opened HandLedger
  import opened HandCards
  import opened HandPlay
  import opened HandStart
  import opened HandTheorems
  import opened HandTurns
  import opened HandMoves

  // ----- who plays -----

  predicate Present(s: Seat) {
    s.kind == AI || (s.kind == Human && (s.online || s.aiManaged))
  }

  function SitsOutUntil(t: Table, i: int): int {
    if i in t.players then t.players[i].sitOutUntil else 0
  }

  /** In the coming hand: present, with chips, and not sitting out of it. */
  predicate DealtIn(t: Table, i: int) {
    Taken(t, i) && Present(t.seats[i]) && SitsDownWith(t, i) > 0 && SitsOutUntil(t, i) <= t.handNum + 1
  }

  ghost function DealtInSeats(t: Table): set<int> {
    set i | 0 <= i < |t.seats| && DealtIn(t, i)
  }

  /** start_hand counts a seat: present, with chips, not sitting out before the hand, and not bankrupt unless it rebuys. */
  predicate Counts(t: Table, i: int) {
    && Taken(t, i) && Present(t.seats[i]) && SitsDownWith(t, i) > 0 && SitsOutUntil(t, i) <= t.handNum
    && (i in t.players && t.players[i].bankrupt ==> t.players[i].pendingRebuy > 0)
  }

  /** Cards are dealt exactly when two seats count. */
  lemma DealsIff(t: Table)
    ensures Deals(t) <==> exists i, j :: i != j && Counts(t, i) && Counts(t, j)
  {
    var u := ApplyRebuys(EnsurePlayers(t));
    forall i ensures i in EligibleSeats(u) <==> Counts(t, i) {
      CountsIff(t, i);
    }
    hide Counts, EligibleSeats, ApplyRebuys, EnsurePlayers;
    var s := EligibleSeats(u);
    if i, j :| i != j && Counts(t, i) && Counts(t, j) {
      assert {i, j} <= s;
      SubsetIsSmaller({i, j}, s);
    }
    if |s| >= 2 {
      var i := Member(s);
      assert s == (s - {i}) + {i};
      var j := Member(s - {i});
    }
  }

  lemma CountsIff(t: Table, i: int)
    ensures i in EligibleSeats(ApplyRebuys(EnsurePlayers(t))) <==> Counts(t, i)
  {}

  /** Rebuys are spent, and what was bought in and who sits out stays; a new player bought in for the initial chips. */
  ghost predicate AccountsKept(t: Table, u: Table) {
    forall i :: i in u.players ==>
      && u.players[i].sitOutUntil == SitsOutUntil(t, i)
      && u.players[i].totalBuyIn == (if i in t.players then t.players[i].totalBuyIn else t.initialChips)
      && u.players[i].pendingRebuy == (if i in t.players then Min(0, t.players[i].pendingRebuy) else 0)
  }

  /** Everybody seated with its chips and accounts. */
  ghost predicate SeatedAs(t: Table, s: Table) {
    && s == t.(players := s.players) && (forall i :: i in s.players <==> Taken(t, i))
    && (forall i :: i in s.players ==> s.players[i].chips == SitsDownWith(t, i)) && AccountsKept(t, s)
  }

  lemma EverybodySeated(t: Table)
    ensures SeatedAs(t, ApplyRebuys(EnsurePlayers(t)))
  {
    WhoSitsDown(t);
  }

  /** Without a deal only players are added, and rebuys applied. */
  lemma NoDeal(t: Table, shuffled: seq<Card>)
    requires !Deals(t)
    ensures SeatedAs(t, StartHand(t, shuffled))
  {
    EverybodySeated(t);
    hide EnsurePlayers, ApplyRebuys, SeatedAs;
  }

  // ----- reset_hand -----

  /** The hand is reset: everybody with what it sat down with, nothing put in, out unless dealt in. */
  ghost predicate Cleared(t: Table, u: Table) {
    && u.seats == t.seats && u.dealer == t.dealer && u.handNum == t.handNum + 1
    && u.smallBlind == t.smallBlind && u.bigBlind == t.bigBlind && u.initialChips == t.initialChips
    && u.turnNonce == t.turnNonce + 1 && u.lastActor == -1 && u.round == PreFlop && u.pot == 0 && AccountsKept(t, u)
    && (forall i :: i in u.players <==> Taken(t, i))
    && forall i :: i in u.players ==>
         && u.players[i].chips == SitsDownWith(t, i) && Fresh(u.players[i])
         && (u.players[i].folded <==> !DealtIn(t, i))
         && (u.players[i].bankrupt <==> SitsDownWith(t, i) <= 0)
  }

  lemma ResetClears(t: Table, shuffled: seq<Card>)
    ensures Cleared(t, ResetHand(ApplyRebuys(EnsurePlayers(t)), shuffled))
  {
    EverybodySeated(t);
    hide EnsurePlayers, ApplyRebuys;
    var s := ApplyRebuys(EnsurePlayers(t));
    var u := ResetHand(s, shuffled);
    hide SitsDownWith;
    forall i | i in u.players
      ensures u.players[i].folded <==> !DealtIn(t, i)
      ensures u.players[i].sitOutUntil == s.players[i].sitOutUntil && u.players[i].totalBuyIn == s.players[i].totalBuyIn
      ensures u.players[i].pendingRebuy == s.players[i].pendingRebuy
    {
      assert i in s.players;
    }
  }

  lemma EligibleIsDealtIn(t: Table, shuffled: seq<Card>)
    ensures EligibleSeats(ResetHand(ApplyRebuys(EnsurePlayers(t)), shuffled)) == DealtInSeats(t)
  {
    var u := ResetHand(ApplyRebuys(EnsurePlayers(t)), shuffled);
    forall i ensures i in EligibleSeats(u) <==> i in DealtInSeats(t) {
      ResetSeat(t, shuffled, i);
    }
  }

  lemma ResetSeat(t: Table, shuffled: seq<Card>, i: int)
    ensures i in EligibleSeats(ResetHand(ApplyRebuys(EnsurePlayers(t)), shuffled)) <==> i in DealtInSeats(t)
  {}

  // ----- the three offsets -----

  /** The first three eligible seats clockwise from the dealer, the third coming round if there are two. */
  ghost predicate ThreeOn(from: int, s: set<int>, a: int, b: int, c: int) {
    Nearest(from, s, a) && Nearest(a, s, b) && Nearest(b, s, c) && a != b
  }

  lemma OffsetsAreNearest(t: Table)
    requires Frame(t) && |EligibleSeats(t)| >= 2
    ensures ThreeOn(t.dealer, EligibleSeats(t),
                    ActiveOffset(t, t.dealer, 1), ActiveOffset(t, t.dealer, 2), ActiveOffset(t, t.dealer, 3))
  {
    hide EligibleSeats, Nearest, Walk;
    BlindsAreDifferentSeats(t);
    var a, l := WalkToNearest(t, t.dealer, 1, 30);
    WalkIsOver(t, a, l);
    var a2, m := WalkToNearest(t, t.dealer, 2, 30);
    NearestIsUnique(t.dealer, EligibleSeats(t), a, a2);
    var b, k := WalkToNearest(t, a2, 1, m);
    WalkIsOver(t, b, k);
    var a3, n := WalkToNearest(t, t.dealer, 3, 30);
    NearestIsUnique(t.dealer, EligibleSeats(t), a, a3);
    var b3, o := WalkToNearest(t, a3, 2, n);
    NearestIsUnique(a, EligibleSeats(t), b, b3);
    var c, p := WalkToNearest(t, b3, 1, o);
    WalkIsOver(t, c, p);
  }

  // ----- blinds -----

  /** What seat i has put in once the blinds are posted. */
  ghost function BlindOf(t: Table, sb: int, bb: int, i: int): int {
    if i == sb then Min(t.smallBlind, SitsDownWith(t, i))
    else if i == bb then Min(t.bigBlind, SitsDownWith(t, i))
    else 0
  }

  /** The table when the first turn is asked. */
  ghost predicate Opened(t: Table, u: Table) {
    && u.seats == t.seats && u.dealer == t.dealer && u.handNum == t.handNum + 1
    && u.smallBlind == t.smallBlind && u.bigBlind == t.bigBlind && u.initialChips == t.initialChips
    && u.turnNonce == t.turnNonce + 1 && u.lastActor == -1 && AccountsKept(t, u)
    && Nearest(t.dealer, DealtInSeats(t), u.sb) && Nearest(u.sb, DealtInSeats(t), u.bb) && u.sb != u.bb
    && (forall i :: i in u.players <==> Taken(t, i))
    && forall i :: i in u.players ==>
         && u.players[i].contribution == BlindOf(t, u.sb, u.bb, i)
         && (u.players[i].folded <==> !DealtIn(t, i))
  }

  /** Before the first action a seat's bet is its blind, and the rest of its chips is its stack. */
  ghost predicate BlindsAreBets(t: Table, u: Table) {
    && u.round == PreFlop && u.currentMaxBet == t.bigBlind && u.minRaise == t.bigBlind
    && forall i :: i in u.players ==>
         && u.players[i].currentBet == u.players[i].contribution
         && u.players[i].chips == SitsDownWith(t, i) - u.players[i].contribution
  }

  lemma BlindsPaid(t: Table, u: Table, sb: int, bb: int)
    requires Cleared(t, u) && sb in u.players && bb in u.players && sb != bb && 0 < t.smallBlind <= t.bigBlind
    requires DealtIn(t, sb) && DealtIn(t, bb) && SitsDownWith(t, sb) > 0 && SitsDownWith(t, bb) > 0
    ensures var v := PostBlind(PostBlind(u.(sb := sb, bb := bb), sb, u.smallBlind), bb, u.bigBlind);
      && v == u.(sb := sb, bb := bb, players := v.players, pot := v.pot, currentMaxBet := v.currentMaxBet)
      && v.players.Keys == u.players.Keys
      && forall i :: i in u.players ==>
           var put := BlindOf(t, sb, bb, i);
           v.players[i] == u.players[i].(chips := SitsDownWith(t, i) - put, currentBet := put, contribution := put)
  {
    hide DealtIn, SitsDownWith, Taken;
  }

  lemma PostedIsOpened(t: Table, u: Table)
    requires Cleared(t, u) && Frame(u) && EligibleSeats(u) == DealtInSeats(t) && |EligibleSeats(u)| >= 2
    requires 0 < t.smallBlind <= t.bigBlind
    ensures var v := PostAndDeal(u); Opened(t, v) && BlindsAreBets(t, v)
    ensures Nearest(PostAndDeal(u).bb, DealtInSeats(t), ActiveOffset(u, u.dealer, 3)) && Frame(PostAndDeal(u))
  {
    hide EligibleSeats, DealtInSeats, Nearest, Walk, PostBlind, DealHoleCards, DealtIn, SitsDownWith, Taken, AllCards;
    OffsetsAreNearest(u);
    var sb, bb := ActiveOffset(u, u.dealer, 1), ActiveOffset(u, u.dealer, 2);
    NearestDealtIn(t, u.dealer, sb);
    NearestDealtIn(t, sb, bb);
    BlindsPaid(t, u, sb, bb);
    var v := PostBlind(PostBlind(u.(sb := sb, bb := bb), sb, u.smallBlind), bb, u.bigBlind);
    HoleCardsDealt(v);
  }

  lemma NearestDealtIn(t: Table, from: int, i: int)
    requires Nearest(from, DealtInSeats(t), i)
    ensures DealtIn(t, i) && Taken(t, i) && SitsDownWith(t, i) > 0
  {}

  /** The table the first turn is requested from. */
  lemma OpeningMeaning(t: Table, shuffled: seq<Card>)
    requires Ready(t) && Deals(t) && multiset(shuffled) == multiset(FullDeck())
    ensures var o := Opening(t, shuffled);
      && Opened(t, o) && BlindsAreBets(t, o) && Betting(o) && |InHand(o)| >= 2
      && o.pending == CanAct(o) && CanAct(o) <= DealtInSeats(t)
      && 0 <= o.active < SEATS && 0 <= o.bb < SEATS && Nearest(o.bb, DealtInSeats(t), o.active)
  {
    hide FullDeck, PostAndDeal, ResetHand, EligibleSeats, Walk, Nearest, DealtInSeats, Betting, Taken, DealtIn, SitsDownWith;
    var seated := ApplyRebuys(EnsurePlayers(t));
    var u := ResetHand(seated, shuffled);
    OpeningIsBetting(t, shuffled);
    ResetClears(t, shuffled);
    EligibleIsDealtIn(t, shuffled);
    SeatedIsReady(t);
    ResetTable(seated, shuffled);
    SubsetIsSmaller(EligibleSeats(seated), EligibleSeats(u));
    PostedIsOpened(t, u);
    var p, o := PostAndDeal(u), Opening(t, shuffled);
    OpenedIgnoresTurn(t, p, o);
    BettingRoster(o);
    RosterMeans(o);
    ActorsAreDealtIn(t, o);
    BlindSeats(t, o);
  }

  lemma OpenedIgnoresTurn(t: Table, a: Table, b: Table)
    requires Opened(t, a) && BlindsAreBets(t, a) && b == a.(pending := b.pending, active := b.active)
    ensures Opened(t, b) && BlindsAreBets(t, b)
  {
    hide Nearest, DealtInSeats, DealtIn, SitsDownWith, Taken;
  }

  lemma BettingRoster(t: Table)
    requires Betting(t)
    ensures Roster(t) && Frame(t)
  {}

  lemma ActorsAreDealtIn(t: Table, u: Table)
    requires Opened(t, u)
    ensures CanAct(u) <= DealtInSeats(t)
  {
    forall i | i in CanAct(u) ensures i in DealtInSeats(t) {
      assert DealtIn(t, i);
    }
  }

  lemma BlindSeats(t: Table, u: Table)
    requires Opened(t, u) && Frame(u) && Nearest(u.bb, DealtInSeats(t), u.active)
    ensures 0 <= u.active < SEATS && 0 <= u.bb < SEATS
  {}

  // ----- start_hand -----

  /**
    start_hand, for every table and shuffle: the blinds are posted by the first two seats dealt
    in clockwise from the dealer, everybody keeps the rest of what it sat down with, and the
    nearest seat from the big blind that can act is asked; or nobody can, and the hand is over.
    */
  lemma StartMeaning(t: Table, shuffled: seq<Card>)
    requires Ready(t) && Deals(t) && multiset(shuffled) == multiset(FullDeck())
    ensures var s := StartHand(t, shuffled);
      && Opened(t, s)
      && (s.round == HandOver <==>
            forall i :: i in s.players && DealtIn(t, i) ==> s.players[i].contribution == SitsDownWith(t, i))
      && (s.round != HandOver ==>
            BlindsAreBets(t, s) && s.pending == CanAct(s) && Nearest(s.bb, CanAct(s), s.active))
  {
    hide Opening, StartHand, FullDeck, RequestTurn, Betting, Opened, BlindsAreBets, Nearest, CanAct, InHand, DealtInSeats;
    hide SettledFrom;
    OpeningMeaning(t, shuffled);
    StartIsRequested(t, shuffled);
    var o, s := Opening(t, shuffled), StartHand(t, shuffled);
    WhoCanOpen(t, o);
    BettingRoster(o);
    RosterMeans(o);
    if CanAct(o) == {} {
      RequestEnds(o);
      BettingStreets(o);
      RequestSettles(o);
      OpenedThenSettled(t, o, s);
    } else {
      RequestAsks(o);
      PreFlopIsNotOver(t, o);
      OpenedIgnoresTurn(t, o, s);
      RosterSameCanAct(o, s);
      FirstFromBigBlind(t, o, s.active);
    }
  }

  lemma FirstFromBigBlind(t: Table, o: Table, a: int)
    requires Frame(o) && o.pending == CanAct(o) != {} && CanAct(o) <= DealtInSeats(t) && |t.seats| == SEATS
    requires 0 <= o.bb < SEATS && Nearest(o.bb, DealtInSeats(t), o.active)
    requires if o.active in o.pending then a == o.active else Nearest(o.active, o.pending, a)
    ensures Nearest(o.bb, CanAct(o), a)
  {
    hide CanAct, Nearest, DealtIn;
    NearestPast(o.bb, o.active, DealtInSeats(t), CanAct(o), a);
  }

  lemma PreFlopIsNotOver(t: Table, u: Table)
    requires BlindsAreBets(t, u)
    ensures u.round != HandOver
  {}

  lemma RequestEnds(t: Table)
    requires |InHand(t)| >= 2 && Actable(t) == {}
    ensures RequestTurn(t).round == HandOver
  {
    hide InHand, Actable;
    FinishIsOver(t.(round := Showdown));
  }

  /** Somebody can act unless every blind took all its seat had. */
  lemma WhoCanOpen(t: Table, u: Table)
    requires Opened(t, u) && BlindsAreBets(t, u) && Betting(u)
    ensures CanAct(u) == {} <==> forall i :: i in u.players && DealtIn(t, i) ==> u.players[i].contribution == SitsDownWith(t, i)
  {
    hide Cards, Nearest, DealtIn, SitsDownWith, Taken;
    forall i ensures i in CanAct(u) <==> i in u.players && DealtIn(t, i) && u.players[i].contribution != SitsDownWith(t, i) {
    }
    hide CanAct;
    if CanAct(u) != {} {
      var i := Member(CanAct(u));
      assert i in u.players && DealtIn(t, i);
    }
  }

  lemma OpenedThenSettled(t: Table, o: Table, s: Table)
    requires Opened(t, o) && SettledFrom(o, s)
    ensures Opened(t, s)
    ensures forall i :: i in s.players ==> i in o.players && s.players[i].contribution == o.players[i].contribution
  {
    hide Nearest, DealtInSeats, DealtIn, SitsDownWith, Taken;
  }
}
