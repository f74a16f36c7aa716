/**
  Which cards go where at the gateway: two in a row to each seat with chips, in seat order, and
  then the board, all off the top of the shuffled deck.
  */
module JavaDeal {
  import opened Common
  import opened HoldemTypes
  import opened JavaRules
  import opened JavaTurns
  import opened JavaLedger
  import opened JavaProgress
  import opened JavaCards
  import opened JavaOverflow
  import opened JavaPayouts
  import opened JavaStreets
  import opened JavaMoves
  import opened JavaOpening
  import opened JavaHands
  import Settlement

  // ----- the board -----

  lemma {:induction false} DealtOffTheTop(t: Table, n: nat, d: seq<Card>)
    requires OffTheTop(d, t.deck, t.board) && n <= |t.deck|
    ensures OffTheTop(d, DealCommunity(t, n).deck, DealCommunity(t, n).board)
    decreases n
  {
    hide FreshDeck;
    if n > 0 {
      var last := |t.deck| - 1;
      var u := t.(board := t.board + [t.deck[last]], deck := t.deck[..last]);
      assert u.deck == d[..|u.deck|];
      DealtOffTheTop(u, n - 1, d);
    }
  }

  lemma StreetOffTheTop(t: Table, d: seq<Card>)
    requires Orderly(t) && StreetsLeft(t.street) > 1 && OffTheTop(d, t.deck, t.board)
    ensures OffTheTop(d, NextStreet(t).deck, NextStreet(t).board)
  {
    DeckForStreet(t);
    hide DealCommunity, OffTheTop, FirstAction, ResetPending, CardsOk;
    DealtOffTheTop(t.(street := Flop), 3, d);
    DealtOffTheTop(t.(street := Turn), 1, d);
    DealtOffTheTop(t.(street := River), 1, d);
    FirstActionCards(DealStreet(t));
  }

  lemma DeckForStreet(t: Table)
    requires Orderly(t) && StreetsLeft(t.street) > 1
    ensures |t.deck| >= 3
  {
    hide AllCards, FreshDeck, HolesOk;
    DeckNeverRunsOut(t);
  }

  lemma EndStreetKeepsBoard(t: Table)
    ensures EndStreet(t).deck == t.deck && EndStreet(t).board == t.board
  {}

  lemma FinishKeepsBoard(t: Table)
    requires SeatsOk(t)
    ensures FinishHand(t).deck == t.deck && FinishHand(t).board == t.board
  {
    FinishPays(t);
    hide FinishHand;
  }

  lemma {:induction false} CloseOffTheTop(v: Table, d: seq<Card>)
    requires Orderly(v) && v.pending == {} && |StillIn(v)| > 1 && OffTheTop(d, v.deck, v.board)
    ensures OffTheTop(d, CloseStreet(v).deck, CloseStreet(v).board)
    decreases StreetsLeft(v.street)
  {
    hide EndStreet, NextStreet, FinishHand, Settle, Able, StillIn, BetsTakenIn, Opens, CardsOk, OffTheTop;
    var t1 := EndStreet(v);
    EndStreetIs(v);
    EndStreetKeepsBoard(v);
    LastStreet(v.street);
    if v.street == River {
      RiverOrderly(v);
      FinishKeepsBoard(t1);
    } else {
      NextStreetAdvances(t1);
      NextStreetAsks(v);
      NextStreetOrderly(v);
      StreetOffTheTop(t1, d);
      var t2 := NextStreet(t1);
      if t2.turn < 0 {
        NobodyAsked(v, t2);
        SettlesByClosing(t2);
        CloseOffTheTop(t2, d);
      }
    }
  }

  lemma NobodyAsked(v: Table, u: Table)
    requires SeatList(v.seats) && u.turn < 0
    requires if Able(v) - {v.turn} != {} then Opens(v, Following(v.street), Able(v) - {v.turn}, u)
             else u.turn == -1 && u.pending == {}
    ensures u.pending == {}
  {
    hide BetsTakenIn, Settlement.Distance;
  }

  lemma SettleOffTheTop(v: Table, d: seq<Card>)
    requires Orderly(v) && OffTheTop(d, v.deck, v.board)
    requires (v.pending != {} ==> v.turn in v.seats) && forall s :: s in v.pending ==> s in v.seats
    ensures OffTheTop(d, Settle(v).deck, Settle(v).board)
  {
    ContendersAreIn(v);
    hide Contenders, CloseStreet, FinishHand, StillIn, CardsOk, NextPendingSeat, OffTheTop;
    FinishKeepsBoard(v);
    if |StillIn(v)| > 1 {
      if v.pending != {} {
        FoundSeatIsThere(v);
      } else {
        CloseOffTheTop(v, d);
      }
    }
  }

  lemma FoundSeatIsThere(v: Table)
    requires Orderly(v) && v.pending != {} && forall s :: s in v.pending ==> s in v.seats
    ensures NextPendingSeat(v, v.turn) >= 0
  {
    NextPendingFinds(v, v.turn);
    hide NextPendingSeat, CardsOk;
    var s := Member(v.pending);
  }

  lemma ActOffTheTop(t: Table, s: int, a: Action, d: seq<Card>)
    requires Playing(t) && Accepts(t, s, a) && OffTheTop(d, t.deck, t.board)
    ensures OffTheTop(d, Act(t, s, a).deck, Act(t, s, a).board)
  {
    AcceptedIff(t, s, a);
    var v := Apply(t, s, a).(pending := Apply(t, s, a).pending - {s});
    PlayedOrderly(t, s, a, v);
    ApplyCards(t, s, a);
    hide Playing, Apply, Settle, Orderly, Accepts, OffTheTop;
    SettleOffTheTop(v, d);
  }

  // ----- hole cards -----

  /** How many of the first n seats have chips. */
  function FundedAmong(t: Table, n: nat): nat
    requires n <= |t.seats|
  {
    if n == 0 then 0
    else FundedAmong(t, n - 1) + if t.seats[n - 1] in t.players && t.players[t.seats[n - 1]].chips > 0 then 1 else 0
  }

  /** The k-th seat with chips holds cards 2k and 2k + 1 from the top of d. */
  ghost predicate HoldsTop(d: seq<Card>, k: nat, hole: seq<Card>) {
    2 * k + 2 <= |d| && hole == [d[|d| - 1 - 2 * k], d[|d| - 2 - 2 * k]]
  }

  /** The j-th seat holds its two cards, or none if it has no chips. */
  ghost predicate SeatServed(t: Table, d: seq<Card>, u: Table, j: nat)
    requires j < |t.seats|
  {
    var s := t.seats[j];
    s in t.players ==>
      && s in u.players
      && if t.players[s].chips > 0 then HoldsTop(d, FundedAmong(t, j), u.players[s].hole) else u.players[s].hole == []
  }

  ghost predicate SeatWaits(t: Table, u: Table, j: nat)
    requires j < |t.seats|
  {
    t.seats[j] in t.players ==> t.seats[j] in u.players && u.players[t.seats[j]] == t.players[t.seats[j]]
  }

  /** The first n seats have been dealt. */
  ghost predicate DealtTop(t: Table, u: Table, n: nat)
    requires n <= |t.seats|
  {
    && 2 * FundedAmong(t, n) <= |t.deck| && u.deck == t.deck[..|t.deck| - 2 * FundedAmong(t, n)]
    && u.seats == t.seats && u.players.Keys == t.players.Keys
    && (forall j: nat :: n <= j < |t.seats| ==> SeatWaits(t, u, j))
    && forall j: nat :: j < n ==> SeatServed(t, t.deck, u, j)
  }

  lemma SeatDealt(t: Table, s: int)
    requires s in t.players && |t.deck| >= 2
    ensures var u, n := DealSeat(t, s), |t.deck|;
      && u.players.Keys == t.players.Keys && (forall x :: x in t.players && x != s ==> u.players[x] == t.players[x])
      && u.seats == t.seats
      && (t.players[s].chips > 0 ==> u.deck == t.deck[..n - 2] && u.players[s].hole == [t.deck[n - 1], t.deck[n - 2]])
      && (t.players[s].chips <= 0 ==> u.deck == t.deck && u.players[s].hole == [])
  {
    hide FreshDeck;
    assert t.deck[..|t.deck| - 1][..|t.deck| - 2] == t.deck[..|t.deck| - 2];
  }

  lemma {:induction false} FundedAtMost(t: Table, m: nat, n: nat)
    requires m <= n <= |t.seats|
    ensures FundedAmong(t, m) <= FundedAmong(t, n) <= FundedAmong(t, m) + (n - m)
    decreases n
  {
    if m < n { FundedAtMost(t, m, n - 1); }
  }

  lemma NextSeatDealt(t: Table, u: Table, n: nat)
    requires SeatList(t.seats) && n < |t.seats| && DealtTop(t, u, n) && |t.deck| >= 2 * n + 2
    ensures DealtTop(t, if t.seats[n] in u.players then DealSeat(u, t.seats[n]) else u, n + 1)
  {
    FundedStep(t, n);
    FundedAtMost(t, 0, n);
    var s := t.seats[n];
    var v := if s in u.players then DealSeat(u, s) else u;
    NewlyServed(t, u, n);
    hide DealSeat, FundedAmong, SeatServed, SeatWaits;
    forall j: nat | j < |t.seats| && j != n
      ensures SeatServed(t, t.deck, u, j) ==> SeatServed(t, t.deck, v, j)
      ensures SeatWaits(t, u, j) ==> SeatWaits(t, v, j)
    {
      if s in u.players { SeatDealtAlone(t, u, n, j); }
    }
    forall j: nat | j < n + 1 ensures SeatServed(t, t.deck, v, j) {
      if j < n { assert SeatServed(t, t.deck, u, j); }
    }
  }

  lemma SeatDealtAlone(t: Table, u: Table, n: nat, j: nat)
    requires SeatList(t.seats) && n < |t.seats| && j < |t.seats| && j != n && t.seats[n] in u.players && |u.deck| >= 2
    ensures SeatServed(t, t.deck, u, j) ==> SeatServed(t, t.deck, DealSeat(u, t.seats[n]), j)
    ensures SeatWaits(t, u, j) ==> SeatWaits(t, DealSeat(u, t.seats[n]), j)
  {
    SeatDealt(u, t.seats[n]);
    hide DealSeat, FundedAmong, HoldsTop;
    assert t.seats[j] != t.seats[n];
  }

  /** The n-th seat takes its cards from what is left of the deck. */
  lemma NewlyServed(t: Table, u: Table, n: nat)
    requires n < |t.seats| && DealtTop(t, u, n) && 2 * FundedAmong(t, n) + 2 <= |t.deck|
    ensures var s := t.seats[n];
      var v := if s in u.players then DealSeat(u, s) else u;
      && SeatServed(t, t.deck, v, n) && v.seats == t.seats && v.players.Keys == t.players.Keys
      && v.deck == t.deck[..|t.deck| - 2 * FundedAmong(t, n + 1)]
  {
    FundedStep(t, n);
    hide DealSeat, FundedAmong, HoldsTop, SeatServed;
    var s := t.seats[n];
    if s in u.players {
      SeatDealt(u, s);
      TopOfRest(t, u, n, DealSeat(u, s).players[s].hole);
      assert SeatWaits(t, u, n);
      ServedBy(t, DealSeat(u, s), n);
    } else {
      NobodyServed(t, u, n);
    }
  }

  lemma ServedBy(t: Table, v: Table, n: nat)
    requires n < |t.seats| && t.seats[n] in v.players && t.seats[n] in t.players
    requires var s := t.seats[n];
      if t.players[s].chips > 0 then HoldsTop(t.deck, FundedAmong(t, n), v.players[s].hole) else v.players[s].hole == []
    ensures SeatServed(t, t.deck, v, n)
  {}

  lemma NobodyServed(t: Table, u: Table, n: nat)
    requires n < |t.seats| && t.seats[n] !in t.players
    ensures SeatServed(t, t.deck, u, n)
  {}

  lemma FundedStep(t: Table, n: nat)
    requires n < |t.seats|
    ensures FundedAmong(t, n + 1) ==
      FundedAmong(t, n) + if t.seats[n] in t.players && t.players[t.seats[n]].chips > 0 then 1 else 0
    ensures FundedAmong(t, 0) == 0
  {}

  lemma TopOfRest(t: Table, u: Table, n: nat, hole: seq<Card>)
    requires n <= |t.seats| && 2 * FundedAmong(t, n) + 2 <= |t.deck| && u.deck == t.deck[..|t.deck| - 2 * FundedAmong(t, n)]
    ensures hole == [u.deck[|u.deck| - 1], u.deck[|u.deck| - 2]] ==> HoldsTop(t.deck, FundedAmong(t, n), hole)
    ensures u.deck[..|u.deck| - 2] == t.deck[..|t.deck| - 2 * FundedAmong(t, n) - 2]
  {
    hide FundedAmong;
  }

  lemma {:induction false} SeatsDealtTop(t: Table, n: nat)
    requires SeatList(t.seats) && n <= |t.seats| && |t.deck| == 52 && |t.seats| <= SEATS
    ensures DealtTop(t, DealSeats(t, n), n)
  {
    hide DealSeat, DealtTop;
    if n == 0 {
      NobodyDealtTop(t);
    } else {
      SeatsDealtTop(t, n - 1);
      NextSeatDealt(t, DealSeats(t, n - 1), n - 1);
    }
  }

  lemma NobodyDealtTop(t: Table)
    ensures DealtTop(t, t, 0)
  {}

  // ----- whole hands -----

  ghost predicate SameHoles(a: Table, b: Table) {
    b.players.Keys == a.players.Keys && forall s :: s in a.players ==> b.players[s].hole == a.players[s].hole
  }

  lemma GoingOnKeepsHoles(v: Table, u: Table)
    requires GoesOn(v, u)
    ensures SameHoles(v, u)
  {
    hide StillIn, Able, EngineTakers, PotShare, AskedFrom, Settlement.Nearest;
  }

  lemma PlayingKeepsHoles(t: Table, s: int, a: Action, v: Table)
    requires Played(t, s, a, v)
    ensures SameHoles(t, v)
  {
    hide LimitedBy, Puts;
  }

  /** Where every card of the table came from in the shuffled deck, t being the table before the hand. */
  ghost predicate FromTheTop(t: Table, shuffled: seq<Card>, r: Table) {
    var m := FundedAmong(t, |t.seats|);
    && 2 * m <= |shuffled| == 52 && OffTheTop(shuffled[..52 - 2 * m], r.deck, r.board)
    && forall j: nat :: j < |t.seats| ==> SeatServed(t, shuffled, r, j)
  }

  lemma SameHolesFromTop(t: Table, shuffled: seq<Card>, a: Table, b: Table)
    requires FromTheTop(t, shuffled, a) && SameHoles(a, b)
    requires OffTheTop(shuffled[..52 - 2 * FundedAmong(t, |t.seats|)], b.deck, b.board)
    ensures FromTheTop(t, shuffled, b)
  {
    hide OffTheTop, FundedAmong, SeatServed;
    forall j: nat | j < |t.seats| ensures SeatServed(t, shuffled, b, j) {
      StillServed(t, shuffled, a, b, j);
    }
  }

  lemma StillServed(t: Table, d: seq<Card>, a: Table, b: Table, j: nat)
    requires j < |t.seats| && SeatServed(t, d, a, j) && SameHoles(a, b)
    ensures SeatServed(t, d, b, j)
  {
    hide HoldsTop, FundedAmong;
  }

  lemma {:induction false} SameFunded(a: Table, b: Table, n: nat)
    requires a.seats == b.seats && a.players == b.players && n <= |a.seats|
    ensures FundedAmong(a, n) == FundedAmong(b, n)
  {
    if n > 0 { SameFunded(a, b, n - 1); }
  }

  lemma ClearedFromTop(t: Table, shuffled: seq<Card>)
    requires SeatsOk(t) && ChipsOk(t) && t.seats != [] && |shuffled| == 52
    ensures FromTheTop(t, shuffled, Cleared(t, shuffled))
  {
    SeatsAreFew(t.seats, SEATS);
    var t0 := ClearTable(t, shuffled);
    SeatsDealtTop(t0, |t.seats|);
    DealKeepsNumbers(t0, |t.seats|);
    hide DealSeats, HoldsTop, SeatServed, FundedAmong;
    var u := Cleared(t, shuffled);
    SameFunded(t0, t, |t.seats|);
    NothingOnBoard(u.deck);
    forall j: nat | j < |t.seats| ensures SeatServed(t, shuffled, u, j) {
      SameFunded(t0, t, j);
      ServedAlike(t0, t, shuffled, u, j);
    }
  }

  lemma NothingOnBoard(d: seq<Card>)
    ensures OffTheTop(d, d, [])
  {
    assert d[..|d|] == d;
  }

  lemma ServedAlike(a: Table, b: Table, d: seq<Card>, u: Table, j: nat)
    requires a.seats == b.seats && a.players == b.players && j < |a.seats| && FundedAmong(a, j) == FundedAmong(b, j)
    requires SeatServed(a, d, u, j)
    ensures SeatServed(b, d, u, j)
  {
    hide HoldsTop, FundedAmong;
  }

  lemma BlindKeepsHoles(t: Table, s: int, blind: nat)
    ensures SameHoles(t, PostBlind(t, s, blind))
    ensures PostBlind(t, s, blind).deck == t.deck && PostBlind(t, s, blind).board == t.board
  {}

  lemma OpenFromTop(t: Table, shuffled: seq<Card>)
    requires SeatsOk(t) && ChipsOk(t) && t.seats != [] && |shuffled| == 52
    ensures FromTheTop(t, shuffled, Open(t, shuffled))
  {
    ClearedFromTop(t, shuffled);
    OpenFromPosted(t, shuffled);
    hide FromTheTop, Cleared, Open, PostBlind, NextSeatFrom, FirstAction, ResetPending;
    var u := Cleared(t, shuffled);
    var sb := NextSeatFrom(u.seats, u.dealer);
    var bb := NextSeatFrom(u.seats, sb);
    BlindKeepsHoles(u, sb, SMALL_BLIND);
    BlindKeepsHoles(PostBlind(u, sb, SMALL_BLIND), bb, BIG_BLIND);
    FirstActionCards(PostBlinds(u));
    HasTop(t, shuffled, u);
    SameHolesFromTop(t, shuffled, u, Open(t, shuffled));
  }

  lemma HasTop(t: Table, shuffled: seq<Card>, r: Table)
    requires FromTheTop(t, shuffled, r)
    ensures 2 * FundedAmong(t, |t.seats|) <= 52 == |shuffled|
    ensures OffTheTop(shuffled[..52 - 2 * FundedAmong(t, |t.seats|)], r.deck, r.board)
  {}

  lemma OpenIsOrderly(t: Table, shuffled: seq<Card>)
    requires SeatsOk(t) && ChipsOk(t) && |t.seats| >= 2 && multiset(shuffled) == multiset(FreshDeck())
    requires Open(t, shuffled).turn < 0
    ensures Orderly(Open(t, shuffled)) && Open(t, shuffled).pending == {}
  {
    var sb, bb := PostedIsOpened(t, shuffled);
    var o := PostBlinds(Cleared(t, shuffled));
    FirstAsked(o);
    OpenFromPosted(t, shuffled);
    OpenCards(t, shuffled);
    hide Open, PostBlinds, FirstAction, ResetPending, Able, CardsOk, FreshDeck, AskedFrom, BlindsPosted;
    if Able(o) - {o.turn} != {} {
      SeatsKept(t, sb, bb, o);
      AskedSeat(o, o.turn, Open(t, shuffled));
    }
    OpenOrderly(t, sb, bb, o, Open(t, shuffled));
  }

  lemma SeatsKept(t: Table, sb: int, bb: int, o: Table)
    requires BlindsPosted(t, sb, bb, o)
    ensures o.seats == t.seats
  {
    hide SeatOpened, Settlement.Nearest;
  }

  lemma StartFromTop(t: Table, shuffled: seq<Card>)
    requires SeatsOk(t) && ChipsOk(t) && |t.seats| >= 2 && multiset(shuffled) == multiset(FreshDeck())
    ensures FromTheTop(t, shuffled, StartHand(t, shuffled))
  {
    assert |multiset(shuffled)| == 52;
    OpenFromTop(t, shuffled);
    StartIsOpen(t, shuffled);
    hide FromTheTop, Open, Settle, StartHand, FreshDeck, Orderly, ChipsOk;
    if Open(t, shuffled).turn < 0 {
      OpenIsOrderly(t, shuffled);
      SettleFromTop(t, shuffled, Open(t, shuffled));
    }
  }

  lemma SettleFromTop(t: Table, shuffled: seq<Card>, u: Table)
    requires Orderly(u) && u.pending == {} && FromTheTop(t, shuffled, u)
    ensures FromTheTop(t, shuffled, Settle(u))
  {
    hide FromTheTop, Settle, GoesOn, Orderly;
    HasTop(t, shuffled, u);
    SettleMeans(u);
    GoingOnKeepsHoles(u, Settle(u));
    SettleOffTheTop(u, shuffled[..52 - 2 * FundedAmong(t, |t.seats|)]);
    SameHolesFromTop(t, shuffled, u, Settle(u));
  }

  /**
    At every point of every hand the shuffled deck alone says where each card is: two in a row
    for each seat with chips, in seat order, and the board from the rest, card by card.
    */
  lemma {:induction false} CardsFromTheTop(t: Table, shuffled: seq<Card>, actions: seq<(int, Action)>)
    requires Starts(t) && multiset(shuffled) == multiset(FreshDeck())
    ensures FromTheTop(t, shuffled, JavaRules.Run(StartHand(t, shuffled), actions))
  {
    hide StartHand, FreshDeck, Act, Accepts, Playing, HandOk, Within, Worth, FromTheTop, Chips, ChipsOk;
    if actions == [] {
      StartFromTop(t, shuffled);
    } else {
      var init, last := actions[..|actions| - 1], actions[|actions| - 1];
      var r := JavaRules.Run(StartHand(t, shuffled), init);
      CardsFromTheTop(t, shuffled, init);
      ActStaysOver(r, last.0, last.1);
      if Accepts(r, last.0, last.1) {
        StartReaches(t, shuffled, init);
        AcceptsOnlyRunning(r, last.0, last.1);
        RunPlaying(t, shuffled, init);
        ActFromTop(t, shuffled, r, last.0, last.1);
      }
    }
  }

  lemma ActFromTop(t: Table, shuffled: seq<Card>, r: Table, s: int, a: Action)
    requires FromTheTop(t, shuffled, r) && Playing(r) && Accepts(r, s, a)
    ensures FromTheTop(t, shuffled, Act(r, s, a))
  {
    hide FromTheTop, Playing, Accepts, Act, Played, GoesOn;
    HasTop(t, shuffled, r);
    ActOffTheTop(r, s, a, shuffled[..52 - 2 * FundedAmong(t, |t.seats|)]);
    var v := ActionMeaning(r, s, a);
    PlayingKeepsHoles(r, s, a, v);
    GoingOnKeepsHoles(v, Act(r, s, a));
    SameHolesFromTop(t, shuffled, r, Act(r, s, a));
  }
}
