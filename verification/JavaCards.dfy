/**
  Cards at the gateway: deck, board and hole cards are always the 52 cards of the fresh deck,
  so no draw ever finds the deck empty, and a contested showdown compares seven cards each.
  */
module JavaCards {
  import opened HoldemTypes
  import opened HoldemEvaluator
  import opened JavaEvaluator
  import opened JavaRules
  import opened JavaLedger
  import opened JavaProgress

  /** The hole cards of the taken seats. */
  function Holes(seats: seq<int>, players: Players): multiset<Card> {
    if seats == [] then multiset{}
    else (if seats[0] in players then multiset(players[seats[0]].hole) else multiset{}) + Holes(seats[1..], players)
  }

  function AllCards(t: Table): multiset<Card> {
    multiset(t.deck) + multiset(t.board) + Holes(t.seats, t.players)
  }

  function BoardSize(s: Street): nat {
    match s
    case PreFlop => 0
    case Flop => 3
    case Turn => 4
    case _ => 5
  }

  /** Two hole cards for everyone still in, at most two for anyone. */
  ghost predicate HolesOk(t: Table) {
    forall s :: s in t.seats && s in t.players ==>
      |t.players[s].hole| <= 2 && (!t.players[s].folded ==> |t.players[s].hole| == 2)
  }

  ghost predicate CardsOk(t: Table) {
    && AllCards(t) == multiset(FreshDeck()) && HolesOk(t)
    && (Running(t) ==> |t.board| == BoardSize(t.street))
    && (t.street == HandOver && |Contenders(t)| > 1 ==> |t.board| == 5)
  }

  lemma {:induction false} HolesSame(seats: seq<int>, a: Players, b: Players)
    requires a.Keys == b.Keys && forall s :: s in a ==> a[s].hole == b[s].hole
    ensures Holes(seats, a) == Holes(seats, b)
  {
    if seats != [] {
      assert seats[0] in a.Keys <==> seats[0] in b.Keys;
      HolesSame(seats[1..], a, b);
    }
  }

  lemma {:induction false} HolesCount(seats: seq<int>, players: Players)
    requires forall s :: s in seats && s in players ==> |players[s].hole| <= 2
    ensures |Holes(seats, players)| <= 2 * |seats|
  {
    if seats != [] {
      assert seats == [seats[0]] + seats[1..];
      HolesCount(seats[1..], players);
      var s := seats[0];
      assert s in seats;
      var first := if s in players then multiset(players[s].hole) else multiset{};
      assert |first| <= 2 && Holes(seats, players) == first + Holes(seats[1..], players);
      assert |first + Holes(seats[1..], players)| == |first| + |Holes(seats[1..], players)|;
    }
  }

  /** At least 32 cards are in the deck or on the board. */
  lemma DeckNeverRunsOut(t: Table)
    requires SeatList(t.seats) && AllCards(t) == multiset(FreshDeck()) && HolesOk(t)
    ensures |t.deck| + |t.board| >= 32
  {
    hide FreshDeck;
    JavaTurns.SeatsAreFew(t.seats, SEATS);
    HolesCount(t.seats, t.players);
    assert |AllCards(t)| == |t.deck| + |t.board| + |Holes(t.seats, t.players)|;
    assert |multiset(FreshDeck())| == 52;
  }

  // ----- the board -----

  /** Cards move from the top of the deck to the board. */
  lemma {:induction false} BoardGrows(t: Table, n: nat)
    requires n <= |t.deck|
    ensures var u := DealCommunity(t, n);
      && multiset(u.deck) + multiset(u.board) == multiset(t.deck) + multiset(t.board)
      && |u.board| == |t.board| + n
    decreases n
  {
    if n > 0 {
      hide FreshDeck;
      var top := t.deck[|t.deck| - 1];
      var u := t.(board := t.board + [top], deck := t.deck[..|t.deck| - 1]);
      assert t.deck == u.deck + [top];
      BoardGrows(u, n - 1);
    }
  }

  lemma StreetCards(t: Table)
    requires SeatList(t.seats) && AllCards(t) == multiset(FreshDeck()) && HolesOk(t)
    requires StreetsLeft(t.street) > 1 && |t.board| == BoardSize(t.street)
    ensures AllCards(NextStreet(t)) == multiset(FreshDeck()) && HolesOk(NextStreet(t))
    ensures |NextStreet(t).board| == BoardSize(NextStreet(t).street)
  {
    DeckNeverRunsOut(t);
    hide FreshDeck, FirstAction, ResetPending;
    DealStreetKeeps(t);
    StreetBoard(t);
    FirstActionCards(DealStreet(t));
  }

  lemma StreetBoard(t: Table)
    requires StreetsLeft(t.street) > 1 && |t.board| == BoardSize(t.street) && |t.deck| >= 3
    ensures var u := DealStreet(t);
      && multiset(u.deck) + multiset(u.board) == multiset(t.deck) + multiset(t.board)
      && |u.board| == BoardSize(u.street)
  {
    hide DealCommunity;
    DealKeepsStreet(t.(street := Flop), 3);
    DealKeepsStreet(t.(street := Turn), 1);
    DealKeepsStreet(t.(street := River), 1);
    BoardGrows(t.(street := Flop), 3);
    BoardGrows(t.(street := Turn), 1);
    BoardGrows(t.(street := River), 1);
  }

  lemma FirstActionCards(t: Table)
    ensures var u := FirstAction(ResetPending(t));
      u.players == t.players && u.seats == t.seats && u.deck == t.deck && u.board == t.board && u.street == t.street
  {
    hide NextPendingSeat, NextSeatFrom;
  }

  // ----- players keep their cards -----

  /** Nobody draws, and nobody comes back into the hand. */
  ghost predicate SameCards(t: Table, u: Table) {
    && u.seats == t.seats && u.deck == t.deck && u.board == t.board && u.street == t.street
    && u.players.Keys == t.players.Keys
    && forall s :: s in t.players ==>
         u.players[s].hole == t.players[s].hole && (t.players[s].folded ==> u.players[s].folded)
  }

  lemma SameCardsOk(t: Table, u: Table)
    requires SameCards(t, u) && Running(t) && CardsOk(t)
    ensures CardsOk(u)
  {
    hide FreshDeck, Contenders;
    HolesSame(t.seats, u.players, t.players);
  }

  lemma GoAllInCards(t: Table, s: int)
    requires s in t.players
    ensures SameCards(t, GoAllIn(t, s))
  {
    hide NormalizeRaiseBy;
  }

  lemma ApplyCards(t: Table, s: int, a: Action)
    requires s in t.players
    ensures SameCards(t, Apply(t, s, a))
  {
    hide NormalizeRaiseBy, GoAllIn, RaiseBy, RaiseNeed;
    GoAllInCards(t, s);
  }

  lemma FinishCards(t: Table)
    requires CardsOk(t) && Running(t) && SeatsOk(t)
    requires |Contenders(t)| <= 1 || StreetsLeft(t.street) <= 1
    ensures CardsOk(FinishHand(t))
  {
    hide FreshDeck, FinishHand, Contenders, Worth, AllCards, HolesOk, Chips, ChipsOk;
    FinishWorth(t);
    FinishKeepsHoles(t);
  }

  lemma FinishKeepsHoles(t: Table)
    requires HolesOk(t)
    ensures var u := FinishHand(t);
      AllCards(u) == AllCards(t) && HolesOk(u) && u.board == t.board && u.street == HandOver
  {
    FinishHoles(t);
    hide Contenders, Winners, Settled;
    HolesSame(t.seats, FinishHand(t).players, t.players);
  }

  lemma FinishHoles(t: Table)
    ensures var u := FinishHand(t);
      && u.seats == t.seats && u.deck == t.deck && u.board == t.board && u.players.Keys == t.players.Keys
      && forall s :: s in t.players ==> u.players[s].hole == t.players[s].hole && u.players[s].folded == t.players[s].folded
  {
    ContendersArePlayers(t.seats, t.players);
    WinnersArePlayers(t, Contenders(t));
    hide Winners;
    var w := Winners(t, Contenders(t));
    if w != [] {
      PaidHoles(t.players, w, t.pot / |w|, t.pot % |w|, |w|);
    }
  }

  lemma {:induction false} PaidHoles(players: Players, w: seq<int>, share: int, rem: int, n: nat)
    requires n <= |w| && forall s :: s in w ==> s in players
    ensures forall s :: s in players ==>
      && PayWinners(players, w, share, rem, n)[s].hole == players[s].hole
      && PayWinners(players, w, share, rem, n)[s].folded == players[s].folded
  {
    if n > 0 {
      PaidHoles(players, w, share, rem, n - 1);
    }
  }

  lemma EndStreetCards(t: Table)
    ensures SameCards(t, EndStreet(t)) && Contenders(EndStreet(t)) == Contenders(t)
  {
    EndStreetWorth(t);
  }

  /** settleStreetOrAdvanceTurn keeps the cards in order, through a runout to the showdown. */
  lemma {:induction false} SettleCards(t: Table)
    requires CardsOk(t) && Running(t) && SeatsOk(t)
    ensures CardsOk(Settle(t))
    decreases StreetsLeft(t.street), 1
  {
    hide FinishHand, CloseStreet, NextPendingSeat, Contenders, CardsOk;
    if |Contenders(t)| <= 1 {
      FinishCards(t);
    } else if t.pending != {} && NextPendingSeat(t, t.turn) >= 0 {
      var u := GiveTurn(t, NextPendingSeat(t, t.turn));
      SameCardsOk(t, u);
    } else {
      CloseCards(t);
    }
  }

  lemma {:induction false} CloseCards(t: Table)
    requires CardsOk(t) && Running(t) && SeatsOk(t)
    ensures CardsOk(CloseStreet(t))
    decreases StreetsLeft(t.street), 0
  {
    hide FinishHand, EndStreet, NextStreet, Settle, Contenders, FreshDeck;
    var t1 := EndStreet(t);
    EndStreetCards(t);
    SameCardsOk(t, t1);
    if StreetsLeft(t1.street) <= 1 {
      FinishCards(t1);
    } else {
      NextStreetAdvances(t1);
      NextStreetWorth(t1);
      StreetCards(t1);
      var t2 := NextStreet(t1);
      if t2.turn < 0 {
        SettleCards(t2);
      }
    }
  }

  lemma ActCards(t: Table, s: int, a: Action)
    requires CardsOk(t) && SeatsOk(t)
    ensures CardsOk(Act(t, s, a))
  {
    if Accepts(t, s, a) {
      ApplyCards(t, s, a);
      var u := Apply(t, s, a);
      var u1 := u.(pending := u.pending - {s});
      assert SameCards(t, u1);
      hide Apply, CardsOk, Settle, Legal;
      SameCardsOk(t, u1);
      SettleCards(u1);
    }
  }

  // ----- dealing -----

  /** The first n seats have been dealt from the shuffled deck. */
  ghost predicate DealtCards(t: Table, u: Table, n: nat)
    requires n <= |t.seats|
  {
    && u.seats == t.seats && u.board == t.board && u.players.Keys == t.players.Keys && u.street == t.street
    && multiset(u.deck) + Holes(t.seats[..n], u.players) == multiset(t.deck)
    && |u.deck| >= |t.deck| - 2 * n
    && forall s :: s in t.seats[..n] && s in t.players ==>
         |u.players[s].hole| <= 2 && (!u.players[s].folded ==> |u.players[s].hole| == 2)
  }

  lemma DrawHoleCards(t: Table, s: int)
    requires s in t.players && t.deck != []
    ensures var u := DrawHole(t, s);
      && u == t.(players := u.players, deck := u.deck)
      && (forall x :: x in t.players && x != s ==> u.players[x] == t.players[x])
      && u.players[s].folded == t.players[s].folded
      && |u.players[s].hole| == |t.players[s].hole| + 1 && |u.deck| == |t.deck| - 1
      && multiset(u.deck) + multiset(u.players[s].hole) == multiset(t.deck) + multiset(t.players[s].hole)
  {
    hide FreshDeck;
    var top := t.deck[|t.deck| - 1];
    assert t.deck == t.deck[..|t.deck| - 1] + [top];
  }

  lemma DealSeatCards(t: Table, s: int)
    requires s in t.players && |t.deck| >= 2
    ensures var u := DealSeat(t, s);
      && u == t.(players := u.players, deck := u.deck)
      && (forall x :: x in t.players && x != s ==> u.players[x] == t.players[x])
      && |u.players[s].hole| == (if u.players[s].folded then 0 else 2) && |u.deck| >= |t.deck| - 2
      && multiset(u.deck) + multiset(u.players[s].hole) == multiset(t.deck)
  {
    var p := ResetPlayer(t.players[s]);
    var t1 := t.(players := t.players[s := p]);
    if !p.folded {
      DrawHoleCards(t1, s);
      DrawHoleCards(DrawHole(t1, s), s);
    }
    hide DrawHole;
  }

  lemma {:induction false} HolesSplit(a: seq<int>, s: int, players: Players)
    ensures Holes(a + [s], players) ==
            Holes(a, players) + if s in players then multiset(players[s].hole) else multiset{}
  {
    if a != [] {
      assert (a + [s])[1..] == a[1..] + [s];
      HolesSplit(a[1..], s, players);
    } else {
      assert [s][1..] == [];
    }
  }

  lemma {:induction false} HolesElsewhere(seats: seq<int>, a: Players, b: Players, s: int)
    requires s !in seats && a.Keys == b.Keys && forall x :: x in a && x != s ==> a[x] == b[x]
    ensures Holes(seats, a) == Holes(seats, b)
  {
    if seats != [] {
      assert seats == [seats[0]] + seats[1..];
      assert seats[0] in a.Keys <==> seats[0] in b.Keys;
      HolesElsewhere(seats[1..], a, b, s);
    }
  }

  lemma DealtOneMoreCards(t: Table, u: Table, v: Table, n: nat)
    requires SeatList(t.seats) && 0 < n <= |t.seats| && |t.deck| == 52 && DealtCards(t, u, n - 1)
    requires v == if t.seats[n - 1] in u.players then DealSeat(u, t.seats[n - 1]) else u
    ensures DealtCards(t, v, n)
  {
    hide DealSeat;
    var s := t.seats[n - 1];
    var before := t.seats[..n - 1];
    assert t.seats[..n] == before + [s];
    JavaTurns.SeatsAreFew(t.seats, SEATS);
    HolesSplit(before, s, v.players);
    if s in u.players {
      DealSeatCards(u, s);
      assert s !in before;
      HolesElsewhere(before, u.players, v.players, s);
    }
  }

  lemma {:induction false} SeatsDealt(t: Table, n: nat)
    requires SeatList(t.seats) && n <= |t.seats| && |t.deck| == 52
    ensures DealtCards(t, DealSeats(t, n), n)
  {
    if n > 0 {
      SeatsDealt(t, n - 1);
      hide DealSeat, DealtCards;
      DealtOneMoreCards(t, DealSeats(t, n - 1), DealSeats(t, n), n);
    }
  }

  lemma BlindCards(t: Table, s: int, blind: nat)
    ensures SameCards(t, PostBlind(t, s, blind))
  {}

  lemma DealtOk(t: Table, shuffled: seq<Card>)
    requires SeatsOk(t) && multiset(shuffled) == multiset(FreshDeck())
    ensures var u := DealSeats(ClearTable(t, shuffled), |t.seats|);
      CardsOk(u) && u.street == PreFlop && u.seats == t.seats
  {
    hide FreshDeck, DealSeats, Contenders;
    var t0 := ClearTable(t, shuffled);
    assert |multiset(shuffled)| == 52;
    SeatsDealt(t0, |t.seats|);
    assert t.seats[..|t.seats|] == t.seats;
  }

  lemma OpenCards(t: Table, shuffled: seq<Card>)
    requires SeatsOk(t) && multiset(shuffled) == multiset(FreshDeck())
    ensures CardsOk(Open(t, shuffled)) && Open(t, shuffled).street == PreFlop
  {
    hide FreshDeck, DealSeats, PostBlinds, FirstAction, ResetPending, CardsOk, Contenders;
    var t1 := DealSeats(ClearTable(t, shuffled), |t.seats|);
    DealtOk(t, shuffled);
    OpenIs(t, shuffled);
    hide Open, ClearTable;
    BlindsCards(t1);
    var t2 := PostBlinds(t1);
    SameCardsOk(t1, t2);
    FirstActionCards(t2);
    SameCardsOk(t2, FirstAction(ResetPending(t2)));
  }

  lemma BlindsCards(t: Table)
    ensures SameCards(t, PostBlinds(t))
  {
    var sb := NextSeatFrom(t.seats, t.dealer);
    var bb := NextSeatFrom(t.seats, sb);
    hide PostBlind, NextSeatFrom;
    var t1 := PostBlind(t, sb, SMALL_BLIND);
    BlindCards(t, sb, SMALL_BLIND);
    BlindCards(t1, bb, BIG_BLIND);
  }

  lemma StartCards(t: Table, shuffled: seq<Card>)
    requires SeatsOk(t) && ChipsOk(t) && |t.seats| >= MIN_PLAYERS_TO_START
    requires multiset(shuffled) == multiset(FreshDeck())
    ensures CardsOk(StartHand(t, shuffled))
  {
    var u := Open(t, shuffled);
    StartIsOpen(t, shuffled);
    OpenCards(t, shuffled);
    OpenKeeps(t, shuffled);
    hide CardsOk, StartHand, Open, Chips, Contenders, FreshDeck;
    if u.turn < 0 {
      SettleCards(u);
    }
  }

  // ----- whole hands -----

  /**
    In every reachable state of a hand, deck, board and the seats' hole cards are the 52 cards
    of the fresh deck, everybody still in holds two, and the board has the street's size.
    */
  lemma {:induction false} CardConservation(t: Table, shuffled: seq<Card>, actions: seq<(int, Action)>)
    requires SeatsOk(t) && ChipsOk(t) && |t.seats| >= MIN_PLAYERS_TO_START
    requires multiset(shuffled) == multiset(FreshDeck())
    ensures CardsOk(JavaRules.Run(StartHand(t, shuffled), actions)) && SeatsOk(JavaRules.Run(StartHand(t, shuffled), actions))
  {
    hide CardsOk, StartHand, Act, Chips, Contenders, FreshDeck, ChipsOk;
    if actions == [] {
      StartCards(t, shuffled);
      StartWorth(t, shuffled);
    } else {
      CardConservation(t, shuffled, actions[..|actions| - 1]);
      HandWorth(t, shuffled, actions[..|actions| - 1]);
      var last := actions[|actions| - 1];
      var before := JavaRules.Run(StartHand(t, shuffled), actions[..|actions| - 1]);
      ActCards(before, last.0, last.1);
      ActionKeepsWorth(before, last.0, last.1);
    }
  }

  // ----- the showdown -----

  lemma CardPlayable(c: Card)
    requires c in multiset(FreshDeck())
    ensures 2 <= c.v <= 14
  {
    assert c in FreshDeck();
  }

  lemma {:induction false} HoleIsPart(seats: seq<int>, players: Players, s: int)
    requires s in seats && s in players
    ensures multiset(players[s].hole) <= Holes(seats, players)
  {
    if seats[0] != s {
      HoleIsPart(seats[1..], players, s);
    }
  }

  lemma HandPlayable(t: Table, s: int)
    requires AllCards(t) == multiset(FreshDeck()) && s in t.seats && s in t.players
    ensures Playable(t.players[s].hole + t.board)
  {
    hide FreshDeck;
    HoleIsPart(t.seats, t.players, s);
    var hand := t.players[s].hole + t.board;
    forall i | 0 <= i < |hand| ensures 2 <= hand[i].v <= 14 {
      assert hand[i] in multiset(t.players[s].hole) || hand[i] in multiset(t.board);
      assert hand[i] in AllCards(t);
      CardPlayable(hand[i]);
    }
  }

  /** The hands compared at a showdown, one for each contender. */
  ghost function ShownHands(t: Table, c: seq<int>): seq<seq<Card>>
  {
    seq(|c|, i requires 0 <= i < |c| => if c[i] in t.players then t.players[c[i]].hole + t.board else [])
  }

  /** A contested showdown is won by exactly the seats nobody outscores. */
  lemma WinnersOutscored(t: Table, c: seq<int>, s: int)
    requires |c| > 1 && s in c && forall x :: x in c ==> x in t.players
    ensures s in Winners(t, c) <==> forall x :: x in c ==> SeatStrength(t, x) <= SeatStrength(t, s)
  {
    TopIsAttained(t, c);
    hide TopStrength, SeatStrength;
    StrengthSubset(t, c, TopStrength(t, c));
  }

  /**
    The gateway pays exactly the contenders whom the engine's best_hand and compare_hands
    would name as winners of the same showdown.
    */
  lemma ShowdownMatchesEngine(t: Table, c: seq<int>, i: nat)
    requires CardsOk(t) && t.street == River && c == Contenders(t) && |c| > 1 && i < |c|
    requires forall s :: s in c ==> s in t.players
    ensures c[i] in Winners(t, c) <==> EngineWins(ShownHands(t, c), i)
  {
    var hands := ShownHands(t, c);
    HandsShown(t, c);
    hide CardsOk, Strength, ShownHands;
    ShowdownWinnersAgree(hands, i);
    assert c[i] in c;
    WinnersOutscored(t, c, c[i]);
    OutscoredMeansWins(t, c, i, hands);
  }

  lemma HandsShown(t: Table, c: seq<int>)
    requires CardsOk(t) && t.street == River && c == Contenders(t) && forall s :: s in c ==> s in t.players
    ensures |ShownHands(t, c)| == |c|
    ensures forall j :: 0 <= j < |c| ==>
      var hand := ShownHands(t, c)[j];
      Playable(hand) && |hand| == 7 && SeatStrength(t, c[j]) == Encode(Best(hand))
  {
    ContendersArePlayers(t.seats, t.players);
    hide FreshDeck, AllCards, Best, Encode;
    forall j | 0 <= j < |c|
      ensures var hand := ShownHands(t, c)[j];
        Playable(hand) && |hand| == 7 && SeatStrength(t, c[j]) == Encode(Best(hand))
    {
      assert c[j] in c;
      HandPlayable(t, c[j]);
    }
  }

  lemma OutscoredMeansWins(t: Table, c: seq<int>, i: nat, hands: seq<seq<Card>>)
    requires |hands| == |c| && i < |c| && forall s :: s in c ==> s in t.players
    requires c[i] in c && forall j :: 0 <= j < |c| ==> c[j] in c && SeatStrength(t, c[j]) == Encode(Best(hands[j]))
    ensures (forall x :: x in c ==> SeatStrength(t, x) <= SeatStrength(t, c[i])) <==> GatewayWins(hands, i)
  {
    hide SeatStrength, Encode, Best;
    if GatewayWins(hands, i) {
      forall x | x in c ensures SeatStrength(t, x) <= SeatStrength(t, c[i]) {
        var j :| 0 <= j < |c| && c[j] == x;
        assert Encode(Best(hands[j])) <= Encode(Best(hands[i]));
      }
    }
    if forall x :: x in c ==> SeatStrength(t, x) <= SeatStrength(t, c[i]) {
      forall j | 0 <= j < |hands| ensures Encode(Best(hands[j])) <= Encode(Best(hands[i])) {
        assert c[j] in c;
      }
    }
  }
}
