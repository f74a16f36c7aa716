/**
  What a new hand at the gateway starts with, told by the fields of the table before it: the
  dealer moves on, the blinds are posted, and a first seat is asked.
  */
module JavaOpening {
  import opened Common
  import opened HoldemTypes
  import opened JavaRules
  import opened JavaTurns
  import opened JavaLedger
  import opened JavaProgress
  import opened JavaCards
  import opened JavaOverflow
  import opened JavaPayouts
  import opened JavaStreets
  import opened JavaMoves
  import Settlement

  /** The taken seat after `from`, clockwise; the lowest one if `from` is not taken. */
  ghost predicate IsNext(seats: seq<int>, from: int, next: int) {
    next in seats && if from in seats then Settlement.Nearest(from, Taken(seats), next) else forall s :: s in seats ==> next <= s
  }

  lemma NextIs(seats: seq<int>, from: int)
    requires SeatList(seats) && seats != []
    ensures IsNext(seats, from, NextSeatFrom(seats, from))
  {
    hide Settlement.Nearest;
    if from in seats {
      NextIsNearest(seats, from);
    } else {
      NotListed(seats, from);
      LowestFirst(seats);
    }
  }

  lemma NotListed(seats: seq<int>, from: int)
    requires seats != [] && from !in seats
    ensures NextSeatFrom(seats, from) == seats[0]
  {
    if IndexOf(seats, from) < |seats| {
      assert seats[IndexOf(seats, from)] == from;
    }
  }

  lemma LowestFirst(seats: seq<int>)
    requires SeatList(seats) && seats != []
    ensures seats[0] in seats && forall s :: s in seats ==> seats[0] <= s
  {}

  /** What seat s puts in before the first action. */
  function BlindOf(t: Table, sb: int, bb: int, s: int): int
    requires s in t.players
  {
    if s == sb then Min(50, t.players[s].chips) else if s == bb then Min(100, t.players[s].chips) else 0
  }

  /** A seated player as the hand starts: out without chips, and its blind in the pot. */
  ghost predicate SeatOpened(t: Table, sb: int, bb: int, s: int, p: Player)
    requires s in t.players
  {
    var chips, blind := t.players[s].chips, BlindOf(t, sb, bb, s);
    && (p.folded <==> chips <= 0) && p.chips == chips - blind && p.bet == blind
    && (p.allIn <==> chips > 0 && blind == chips)
  }

  /** Blinds posted, nobody asked yet. */
  ghost predicate BlindsPosted(t: Table, sb: int, bb: int, o: Table) {
    && o.seats == t.seats && o.street == PreFlop && o.maxBet == 100 && o.minRaise == 100
    && o.handNum == t.handNum + 1 && o.pot == Posted(t, sb, bb) && o.players.Keys == t.players.Keys
    && IsNext(t.seats, t.dealer, o.dealer) && IsNext(t.seats, o.dealer, sb) && IsNext(t.seats, sb, bb)
    && forall s :: s in t.seats && s in t.players ==> SeatOpened(t, sb, bb, s, o.players[s])
  }

  lemma {:induction false} DealKeepsNumbers(t: Table, n: nat)
    requires n <= |t.seats|
    ensures var u := DealSeats(t, n);
      u.handNum == t.handNum && u.minRaise == t.minRaise && u.dealer == t.dealer && u.board == t.board
  {
    hide FreshDeck;
    if n > 0 { DealKeepsNumbers(t, n - 1); }
  }

  /** q is p with the blind in the pot; a folded player posts none. */
  ghost predicate PostedBy(p: Player, blind: int, q: Player) {
    var put := Min(p.chips, blind);
    q == if p.folded then p else p.(chips := p.chips - put, bet := p.bet + put, allIn := p.allIn || put == p.chips)
  }

  lemma OneBlind(t: Table, s: int, blind: nat)
    requires forall x :: x in t.players ==> t.players[x].chips >= 0
    ensures var u := PostBlind(t, s, blind);
      && u == t.(players := u.players, pot := u.pot) && u.players.Keys == t.players.Keys
      && u.pot == t.pot + (if s in t.players && !t.players[s].folded then Min(t.players[s].chips, blind) else 0)
      && (forall x :: x in t.players && x != s ==> u.players[x] == t.players[x])
      && (s in t.players ==> PostedBy(t.players[s], blind, u.players[s]))
  {}

  /** Every seated player cleared for the hand, with all its chips. */
  ghost predicate Dealt(t: Table, u: Table) {
    && u.players.Keys == t.players.Keys
    && forall s :: s in t.seats && s in t.players ==>
         && u.players[s].chips == t.players[s].chips && u.players[s].bet == 0 && !u.players[s].allIn
         && (u.players[s].folded <==> t.players[s].chips <= 0)
  }

  lemma BlindsOpen(t: Table, u: Table, sb: int, bb: int)
    requires Dealt(t, u) && sb in t.seats && bb in t.seats && sb != bb
    requires (forall x :: x in u.players ==> u.players[x].chips >= 0) && forall x :: x in t.players ==> t.players[x].chips >= 0
    ensures var v := PostBlind(PostBlind(u, sb, 50), bb, 100);
      && v == u.(players := v.players, pot := v.pot) && v.players.Keys == t.players.Keys
      && v.pot == u.pot + Posted(t, sb, bb)
      && forall s :: s in t.seats && s in t.players ==> SeatOpened(t, sb, bb, s, v.players[s])
  {
    var v1 := PostBlind(u, sb, 50);
    var v := PostBlind(v1, bb, 100);
    OneBlind(u, sb, 50);
    OneBlind(v1, bb, 100);
    hide PostBlind, SeatOpened, PostedBy;
    forall s | s in t.seats && s in t.players ensures SeatOpened(t, sb, bb, s, v.players[s]) {
      SeatPosts(t, sb, bb, s, u.players[s], v.players[s]);
    }
  }

  /** The blinds together. */
  ghost function Posted(t: Table, sb: int, bb: int): int {
    (if sb in t.players then BlindOf(t, sb, bb, sb) else 0) + (if bb in t.players then BlindOf(t, sb, bb, bb) else 0)
  }

  lemma SeatPosts(t: Table, sb: int, bb: int, s: int, p: Player, q: Player)
    requires s in t.players && t.players[s].chips >= 0 && sb != bb
    requires p.chips == t.players[s].chips && p.bet == 0 && !p.allIn && (p.folded <==> t.players[s].chips <= 0)
    requires if s == sb then PostedBy(p, 50, q) else if s == bb then PostedBy(p, 100, q) else q == p
    ensures SeatOpened(t, sb, bb, s, q)
  {}

  /** Two taken seats in a row are different. */
  lemma NextDiffers(seats: seq<int>, s: int)
    requires SeatList(seats) && |seats| >= 2 && s in seats
    ensures NextSeatFrom(seats, s) != s && NextSeatFrom(seats, s) in seats
  {
    var p := PlaceOf(seats, s);
    StepFrom(seats, p);
    assert Next(p, |seats|) != p;
  }

  ghost function Cleared(t: Table, shuffled: seq<Card>): Table { DealSeats(ClearTable(t, shuffled), |t.seats|) }

  lemma ClearedIs(t: Table, shuffled: seq<Card>)
    requires SeatsOk(t) && ChipsOk(t) && t.seats != []
    ensures var u := Cleared(t, shuffled);
      && Dealt(t, u) && u.pot == 0 && u.seats == t.seats && u.street == PreFlop && u.maxBet == 100 && u.minRaise == 100
      && u.handNum == t.handNum + 1 && u.dealer == NextSeatFrom(t.seats, t.dealer)
      && forall x :: x in u.players ==> u.players[x].chips >= 0
  {
    var t0 := ClearTable(t, shuffled);
    DealSeatsKeep(t0, |t.seats|);
    DealSeatsLimits(t0, |t.seats|);
    DealKeepsNumbers(t0, |t.seats|);
    assert t.seats[..|t.seats|] == t.seats;
    hide DealSeats, NextSeatFrom;
  }

  lemma PostedIsOpened(t: Table, shuffled: seq<Card>) returns (sb: int, bb: int)
    requires SeatsOk(t) && ChipsOk(t) && |t.seats| >= 2
    ensures var o := PostBlinds(Cleared(t, shuffled));
      BlindsPosted(t, sb, bb, o) && IsNext(t.seats, bb, o.turn) && o.turn in t.seats
  {
    var u := Cleared(t, shuffled);
    ClearedIs(t, shuffled);
    NextIs(t.seats, t.dealer);
    hide NextSeatFrom, PostBlind, Settlement.Nearest, SeatOpened, Cleared;
    sb := NextSeatFrom(t.seats, u.dealer);
    NextIs(t.seats, u.dealer);
    bb := NextSeatFrom(t.seats, sb);
    NextIs(t.seats, sb);
    NextIs(t.seats, bb);
    NextDiffers(t.seats, sb);
    BlindsOpen(t, u, sb, bb);
  }

  /** The first seat asked before the flop: the nearest from the seat after the big blind, which is itself passed over. */
  lemma FirstAsked(o: Table)
    requires SeatList(o.seats) && o.street == PreFlop && o.turn in o.seats
    ensures var u, w := FirstAction(ResetPending(o)), Able(o) - {o.turn};
      && u == o.(turn := u.turn, pending := u.pending)
      && if w == {} then u.turn == -1 && u.pending == {} else AskedFrom(o.turn, w, u)
  {
    AbleAct(o);
    var r := ResetPending(o);
    AbleTaken(o);
    hide ActingSeats, Able, NextPendingSeat, Settlement.Nearest, Taken;
    if r.pending == {} {
      NothingPending(r, o.turn);
    } else {
      FoundIsNearest(r, o.turn);
      NearestMember(o.turn, r.pending, NextPendingSeat(r, o.turn));
    }
  }

  /**
    A new hand, for every table and shuffle: o is the table with the blinds posted.  The nearest
    seat from utg that can bet is asked, utg itself not being among them; if there is none, the
    hand is over, or goes on to the flop without anybody asked.
    */
  lemma StartMeaning(t: Table, shuffled: seq<Card>) returns (o: Table, sb: int, bb: int, utg: int)
    requires SeatsOk(t) && ChipsOk(t) && |t.seats| >= 2 && multiset(shuffled) == multiset(FreshDeck())
    ensures BlindsPosted(t, sb, bb, o) && IsNext(t.seats, bb, utg)
    ensures var s := StartHand(t, shuffled);
      if Able(o) - {utg} != {} then s == o.(turn := s.turn, pending := s.pending) && AskedFrom(utg, Able(o) - {utg}, s)
      else if |StillIn(o)| <= 1 then Finished(o, s)
      else Closes(o, -1, s)
  {
    sb, bb := PostedIsOpened(t, shuffled);
    o := PostBlinds(Cleared(t, shuffled));
    utg := o.turn;
    FirstAsked(o);
    OpenFromPosted(t, shuffled);
    StartIsOpen(t, shuffled);
    OpenCards(t, shuffled);
    OpenKeeps(t, shuffled);
    hide StartHand, Open, PostBlinds, FirstAction, ResetPending, Able, StillIn, Settle, CardsOk, FreshDeck, AskedFrom, IsNext;
    hide Finished, Closes, SeatOpened, Chips;
    var u := Open(t, shuffled);
    if Able(o) - {utg} == {} {
      OpenOrderly(t, sb, bb, o, u);
      SettleMeans(u);
      AskedSame(o, u);
      ClosesFromOpen(o, u, Settle(u));
    } else {
      AskedSeat(o, utg, u);
    }
  }

  lemma OpenFromPosted(t: Table, shuffled: seq<Card>)
    ensures Open(t, shuffled) == FirstAction(ResetPending(PostBlinds(Cleared(t, shuffled))))
  {
    hide FirstAction, ResetPending, PostBlinds, DealSeats;
  }

  lemma AskedSeat(o: Table, utg: int, u: Table)
    requires SeatList(o.seats) && AskedFrom(utg, Able(o) - {utg}, u)
    ensures u.turn >= 0
  {
    hide Settlement.Distance;
  }

  lemma OpenOrderly(t: Table, sb: int, bb: int, o: Table, u: Table)
    requires BlindsPosted(t, sb, bb, o) && SeatsOk(t) && CardsOk(u) && u == o.(turn := u.turn, pending := u.pending)
    ensures Orderly(u)
  {
    hide CardsOk, SeatOpened, Settlement.Nearest;
  }

  /** Closing does not depend on whose turn it was, but for the seat passed over. */
  lemma ClosesFromOpen(o: Table, u: Table, s: Table)
    requires u == o.(turn := -1, pending := {}) && GoesOn(u, s) && StillIn(u) == StillIn(o) && Able(u) == Able(o)
    ensures if |StillIn(o)| <= 1 then Finished(o, s) else Closes(o, -1, s)
  {
    hide Able, StillIn, EngineTakers, PotShare, AskedFrom, Settlement.Nearest;
  }
}
