/**
  The gateway's room (RoomControlWsService.Room) and the methods that run a hand on it in
  place.  Each is proved to leave the table that JavaRules describes.
  */
module JavaRoom {
  import opened Common
  import opened HoldemTypes
  import opened JavaRules
  import opened JavaTurns
  import opened JavaLedger
  import Evaluator = JavaEvaluator
  import HoldemEvaluator

  const LONG_MIN := -0x8000_0000_0000_0000

  /** The taken seats below n, ascending. */
  function TakenBelow(taken: seq<bool>, n: nat): seq<int>
    requires n <= |taken|
  {
    if n == 0 then [] else TakenBelow(taken, n - 1) + if taken[n - 1] then [n - 1] else []
  }

  lemma {:induction false} TakenIsSeatList(taken: seq<bool>, n: nat)
    requires n <= |taken| && n <= SEATS
    ensures SeatList(TakenBelow(taken, n))
    ensures forall s :: s in TakenBelow(taken, n) ==> s < n
  {
    if n > 0 {
      TakenIsSeatList(taken, n - 1);
      var before := TakenBelow(taken, n - 1);
      assert forall i :: 0 <= i < |before| ==> before[i] in before;
    }
  }

  predicate Playable(cards: seq<Card>) {
    Evaluator.Playable(cards)
  }

  lemma FreshIsPlayable()
    ensures Playable(FreshDeck())
  {}

  lemma ShuffledIsPlayable(shuffled: seq<Card>)
    requires multiset(shuffled) == multiset(FreshDeck())
    ensures Playable(shuffled)
  {
    hide FreshDeck;
    FreshIsPlayable();
    forall i | 0 <= i < |shuffled| ensures 2 <= shuffled[i].v <= 14 {
      assert shuffled[i] in multiset(FreshDeck());
      assert shuffled[i] in FreshDeck();
    }
  }

  // ----- scores -----

  lemma {:induction false} DigitsNotNegative(cat: int, vals: seq<int>, n: nat)
    requires cat >= 0 && forall i :: 0 <= i < |vals| ==> vals[i] >= 0
    ensures Evaluator.Base15(cat, vals, n) >= 0
  {
    if n > 0 {
      DigitsNotNegative(cat, vals, n - 1);
    }
  }

  lemma StrengthNotNegative(cards: seq<Card>)
    requires Playable(cards)
    ensures Strength(cards) >= 0
  {
    if |cards| >= 5 {
      Evaluator.BestIsEncodable(cards);
      var e := HoldemEvaluator.Best(cards);
      DigitsNotNegative(Evaluator.Category(e.rank), e.value, 5);
    }
  }

  /** Nobody reaches a score above the best so far. */
  lemma {:induction false} NoneAbove(t: Table, seats: seq<int>, score: int)
    requires forall s :: s in seats ==> s in t.players && SeatStrength(t, s) < score
    ensures WithStrength(t, seats, score) == []
  {
    hide SeatStrength;
    if seats != [] {
      assert seats == seats[..|seats| - 1] + [seats[|seats| - 1]];
      assert seats[|seats| - 1] in seats;
      NoneAbove(t, seats[..|seats| - 1], score);
    }
  }

  /** What the showdown loop holds after the given contenders. */
  ghost predicate BestSoFar(t: Table, seen: seq<int>, best: int, winners: seq<int>)
    requires forall s :: s in seen ==> s in t.players
  {
    if seen == [] then best == LONG_MIN && winners == []
    else best == TopStrength(t, seen) && winners == WithStrength(t, seen, best)
  }

  lemma ScoreFirst(t: Table, s: int)
    requires s in t.players
    ensures TopStrength(t, [s]) == SeatStrength(t, s) && WithStrength(t, [s], SeatStrength(t, s)) == [s]
  {
    hide SeatStrength;
    assert [s][..0] == [];
    assert WithStrength(t, [], SeatStrength(t, s)) == [];
  }

  lemma ScoreNext(t: Table, seen: seq<int>, s: int, score: int)
    requires seen != [] && s in t.players && forall x :: x in seen ==> x in t.players
    requires forall x :: x in seen + [s] ==> x in t.players
    ensures TopStrength(t, seen + [s]) == Max(TopStrength(t, seen), SeatStrength(t, s))
    ensures WithStrength(t, seen + [s], score) ==
            WithStrength(t, seen, score) + if SeatStrength(t, s) == score then [s] else []
  {
    hide SeatStrength;
    assert (seen + [s])[..|seen|] == seen;
  }

  lemma ScoreOne(t: Table, seen: seq<int>, s: int, best: int, winners: seq<int>, score: int)
    requires forall x :: x in seen + [s] ==> x in t.players
    requires s in t.players && forall x :: x in seen ==> x in t.players
    requires score == SeatStrength(t, s) && score > LONG_MIN && BestSoFar(t, seen, best, winners)
    ensures BestSoFar(t, seen + [s], if score > best then score else best,
                      if score > best then [s] else if score == best then winners + [s] else winners)
  {
    if seen == [] {
      assert seen + [s] == [s];
      ScoreFirst(t, s);
    } else {
      ScoreNext(t, seen, s, if score > best then score else best);
      TopIsAttained(t, seen);
      hide SeatStrength, TopStrength, WithStrength;
      if score > best {
        NoneAbove(t, seen, score);
      }
    }
  }

  method Score(hand: seq<Card>) returns (score: int)
    requires Playable(hand)
    ensures score == Strength(hand) && score >= 0
  {
    var hr := Evaluator.BestHandScore(hand);
    StrengthNotNegative(hand);
    score := hr.score;
  }

  lemma {:induction false} ScanResult(seats: seq<int>, pending: set<int>, idx: int, n: nat)
    ensures var r := ScanPending(seats, pending, idx, n); r == -1 || r in pending
    decreases n
  {
    if n > 0 {
      ScanResult(seats, pending, NextSeatFrom(seats, idx), n - 1);
    }
  }

  lemma StartScoring(t: Table)
    ensures BestSoFar(t, [], LONG_MIN, [])
  {}

  lemma DoneScoring(t: Table, seats: seq<int>, best: int, winners: seq<int>)
    requires |seats| != 1 && forall s :: s in seats ==> s in t.players
    requires BestSoFar(t, seats, best, winners)
    ensures winners == Winners(t, seats)
  {
    hide TopStrength, WithStrength;
  }

  class Room {
    var taken: seq<bool>
    var players: map<int, Player>
    var handNum: int
    var dealer: int
    var turn: int
    var pot: int
    var maxBet: int
    var minRaise: int
    var street: Street
    var deck: seq<Card>
    var board: seq<Card>
    var pending: set<int>

    constructor ()
      ensures Valid()
      ensures View() == Table([], map[], 0, -1, -1, 0, 0, 50, Waiting, [], [], {})
    {
      taken := seq(SEATS, _ => false);
      players, handNum, dealer, turn, pot, maxBet, minRaise := map[], 0, -1, -1, 0, 0, 50;
      street, deck, board, pending := Waiting, [], [], {};
      new;
      NoneTaken(taken, SEATS);
    }

    ghost function View(): Table
      reads this
      requires |taken| == SEATS
    {
      Table(TakenBelow(taken, SEATS), players, handNum, dealer, turn, pot, maxBet, minRaise, street, deck, board, pending)
    }

    ghost predicate Valid()
      reads this
    {
      && |taken| == SEATS
      && (forall s :: s in pending ==> 0 <= s)
      && Playable(deck) && Playable(board)
      && forall s :: s in players ==> 0 <= s < SEATS && Playable(players[s].hole)
    }

    /** activeSeatList */
    method ActiveSeatList() returns (out: seq<int>)
      requires Valid()
      ensures out == View().seats && SeatList(out)
    {
      out := [];
      for i := 0 to SEATS
        invariant out == TakenBelow(taken, i)
      {
        if taken[i] {
          out := out + [i];
        }
      }
      TakenIsSeatList(taken, SEATS);
    }

    method Contenders() returns (out: seq<int>)
      requires Valid()
      ensures out == JavaRules.Contenders(View())
    {
      var seats := ActiveSeatList();
      out := [];
      for i := 0 to |seats|
        invariant out + ContendersOf(seats[i..], players) == ContendersOf(seats, players)
      {
        var s := seats[i];
        assert seats[i..] == [s] + seats[i + 1..];
        if s in players && !players[s].folded {
          out := out + [s];
        }
      }
    }

    /** nextPendingSeat: the seat found is no longer pending. */
    method NextPendingSeat(current: int) returns (seat: int)
      requires Valid()
      modifies this`pending
      ensures Valid()
      ensures seat == JavaRules.NextPendingSeat(old(View()), current) && pending == old(pending) - {seat}
    {
      hide NextSeatFrom, TakenBelow;
      if pending == {} {
        return -1;
      }
      var seats := ActiveSeatList();
      var idx := current;
      for i := 0 to SEATS + 1
        invariant pending == old(pending)
        invariant ScanPending(seats, pending, idx, SEATS + 1 - i) == ScanPending(seats, pending, current, SEATS + 1)
      {
        idx := NextSeatFrom(seats, idx);
        if idx in pending {
          pending := pending - {idx};
          return idx;
        }
      }
      return -1;
    }

    method ResetPendingForStreet()
      requires Valid()
      modifies this`pending
      ensures Valid() && View() == ResetPending(old(View()))
    {
      var seats := ActiveSeatList();
      var out := SeatsAbleToAct(seats);
      pending := out - {turn};
    }

    method ResetPendingAfterAggression(aggressor: int)
      requires Valid()
      modifies this`pending
      ensures Valid() && View() == Reopen(old(View()), aggressor)
    {
      var seats := ActiveSeatList();
      var out := SeatsAbleToAct(seats);
      pending := out - {aggressor};
    }

    /** The loop both resets share; the aggressor is left out by the caller. */
    method SeatsAbleToAct(seats: seq<int>) returns (out: set<int>)
      requires Valid() && seats == View().seats && SeatList(seats)
      ensures out == ActingSeats(View()) && forall s :: s in out ==> 0 <= s
    {
      out := {};
      for i := 0 to |seats|
        invariant forall s :: s in out <==> s in seats[..i] && CanAct(View(), s)
      {
        var s := seats[i];
        assert seats[..i + 1] == seats[..i] + [s];
        if s in players && !players[s].folded && !players[s].allIn && players[s].chips > 0 {
          out := out + {s};
        }
      }
      assert seats[..|seats|] == seats;
      assert forall s :: s in seats ==> 0 <= s;
      ghost var all := ActingSeats(View());
      assert forall s :: s in out <==> s in all;
    }

    /** firstActionSeatForStreet */
    method FirstActionSeat() returns (seat: int)
      requires Valid()
      modifies this`pending
      ensures Valid() && View().(turn := seat) == FirstAction(old(View()))
    {
      var seats := ActiveSeatList();
      if seats == [] {
        return -1;
      }
      seat := if street == PreFlop then turn else NextSeatFrom(seats, dealer);
      if seat !in pending {
        seat := NextPendingSeat(seat);
      } else {
        pending := pending - {seat};
      }
    }

    method Draw() returns (c: Card)
      requires Valid()
      modifies this`deck
      ensures Valid() && 2 <= c.v <= 14
      ensures var from := if old(deck) == [] then FreshDeck() else old(deck);
        c == from[|from| - 1] && deck == from[..|from| - 1]
    {
      if deck == [] {
        FreshIsPlayable();
        deck := FreshDeck();
      }
      c := deck[|deck| - 1];
      deck := deck[..|deck| - 1];
    }

    method DealCommunity(count: nat)
      requires Valid()
      modifies this`deck, this`board
      ensures Valid() && View() == JavaRules.DealCommunity(old(View()), count)
    {
      for i := 0 to count
        invariant Valid()
        invariant JavaRules.DealCommunity(View(), count - i) == JavaRules.DealCommunity(old(View()), count)
      {
        var c := Draw();
        board := board + [c];
      }
    }

    method PostBlind(s: int, blind: int)
      requires Valid()
      modifies this`players, this`pot
      ensures Valid() && View() == JavaRules.PostBlind(old(View()), s, blind)
    {
      if s !in players || players[s].folded {
        return;
      }
      var pay := Min(players[s].chips, blind);
      var p := players[s];
      players := players[s := p.(chips := p.chips - pay, bet := p.bet + pay)];
      pot := pot + pay;
      if players[s].chips == 0 {
        players := players[s := players[s].(allIn := true)];
      }
    }

    /** The showdown loop: every contender's seven cards scored, the best kept. */
    method BestSeats(contenders: seq<int>) returns (winners: seq<int>)
      requires Valid() && contenders == JavaRules.Contenders(View()) && |contenders| != 1
      requires forall s :: s in contenders ==> s in players
      ensures winners == Winners(View(), contenders)
    {
      hide Strength, BestSoFar, TopStrength, WithStrength, ContendersOf, TakenBelow;
      winners := [];
      var best := LONG_MIN;
      StartScoring(View());
      for i := 0 to |contenders|
        invariant forall s :: s in contenders[..i] ==> s in players
        invariant BestSoFar(View(), contenders[..i], best, winners)
      {
        var s := contenders[i];
        assert contenders[..i + 1] == contenders[..i] + [s];
        assert s in contenders;
        var hand := players[s].hole + board;
        var score := Score(hand);
        ScoreOne(View(), contenders[..i], s, best, winners, score);
        if score > best {
          best := score;
          winners := [s];
        } else if score == best {
          winners := winners + [s];
        }
      }
      assert contenders[..|contenders|] == contenders;
      DoneScoring(View(), contenders, best, winners);
    }

    method FinishHand(contenders: seq<int>)
      requires Valid() && contenders == JavaRules.Contenders(View())
      modifies this`street, this`turn, this`players
      ensures Valid() && View() == JavaRules.FinishHand(old(View()))
    {
      ContendersArePlayers(View().seats, players);
      WinnersArePlayers(View(), contenders);
      var winners;
      if |contenders| == 1 {
        winners := contenders;
      } else {
        winners := BestSeats(contenders);
      }
      street, turn := HandOver, -1;
      PayPot(winners);
    }

    method PayPot(winners: seq<int>)
      requires Valid() && forall s :: s in winners ==> s in players
      modifies this`players
      ensures Valid() && players == Settled(old(players), winners, pot)
    {
      var share := if winners == [] then 0 else pot / |winners|;
      var rem := if winners == [] then 0 else pot % |winners|;
      for i := 0 to |winners|
        invariant Valid() && players.Keys == old(players).Keys
        invariant players == PayWinners(old(players), winners, share, rem, i)
      {
        var s := winners[i];
        assert s in winners;
        players := players[s := players[s].(chips := players[s].chips + share + if i == 0 then rem else 0)];
      }
    }
  
    /** The bets of a finished street go back to zero. */
    method ClearStreetBets()
      requires Valid()
      modifies this`players
      ensures Valid() && players == ClearBets(old(View()))
    {
      var seats := ActiveSeatList();
      for i := 0 to |seats|
        invariant Valid() && players.Keys == old(players).Keys
        invariant forall s :: s in players ==>
          players[s] == if s in seats[..i] then old(players)[s].(bet := 0) else old(players)[s]
      {
        var s := seats[i];
        assert seats[..i + 1] == seats[..i] + [s];
        if s in players {
          players := players[s := players[s].(bet := 0)];
        }
      }
      assert seats[..|seats|] == seats;
      ghost var cleared := ClearBets(old(View()));
      assert cleared.Keys == players.Keys;
      assert forall s :: s in players ==> players[s] == cleared[s];
    }

    /** The street's change, if there is another one; false after the river. */
    method OpenNextStreet() returns (more: bool)
      requires Valid()
      modifies this`street, this`deck, this`board
      ensures Valid() && more == (StreetsLeft(old(street)) > 1)
      ensures View() == if more then DealStreet(old(View())) else old(View())
    {
      if street == PreFlop {
        street := Flop;
        DealCommunity(3);
      } else if street == Flop {
        street := Turn;
        DealCommunity(1);
      } else if street == Turn {
        street := River;
        DealCommunity(1);
      } else {
        return false;
      }
      more := true;
    }

    /** One round of the settling loop; false when it has to go round again. */
    method SettleOnce() returns (done: bool)
      requires Valid()
      modifies this
      ensures Valid()
      ensures done ==> View() == Settle(old(View()))
      ensures !done ==> Settle(View()) == Settle(old(View())) && StreetsLeft(street) < StreetsLeft(old(street))
    {
      var contenders := Contenders();
      ghost var t := View();
      if |contenders| <= 1 {
        FinishHand(contenders);
        return true;
      }
      if pending != {} {
        ScanResult(View().seats, pending, turn, SEATS + 1);
        turn := NextPendingSeat(turn);
        if turn >= 0 {
          return true;
        }
        pending := {};
      }
      ClosesAlike(t, View());
      done := CloseStreet(contenders);
    }

    /** Nobody is pending: the street ends, and the next one begins or the hand is over. */
    method CloseStreet(contenders: seq<int>) returns (done: bool)
      requires Valid() && pending == {} && contenders == JavaRules.Contenders(View())
      modifies this
      ensures Valid()
      ensures done ==> View() == JavaRules.CloseStreet(old(View()))
      ensures !done ==> Settle(View()) == JavaRules.CloseStreet(old(View())) && StreetsLeft(street) < StreetsLeft(old(street))
    {
      hide Settle, NextStreet, JavaRules.FinishHand, JavaRules.Contenders;
      ghost var t := View();
      EndBets();
      ghost var t1 := View();
      EndStreetWorth(t);
      var more := OpenNextStreet();
      if !more {
        FinishHand(contenders);
        return true;
      }
      NextStreetAdvances(t1);
      BeginStreet(t1);
      done := turn >= 0;
    }

    method EndBets()
      requires Valid() && pending == {}
      modifies this
      ensures Valid() && View() == EndStreet(old(View()))
    {
      ghost var t := View();
      ClearStreetBets();
      maxBet, minRaise := 0, BIG_BLIND;
      assert View() == t.(players := ClearBets(t), maxBet := 0, minRaise := BIG_BLIND);
    }

    /** The pending seats and the first turn of the street just dealt. */
    method BeginStreet(ghost before: Table)
      requires Valid() && StreetsLeft(before.street) > 1 && View() == DealStreet(before)
      modifies this
      ensures Valid() && View() == NextStreet(before)
    {
      hide DealStreet;
      ResetPendingForStreet();
      turn := FirstActionSeat();
    }

    method SettleStreetOrAdvanceTurn()
      requires Valid()
      modifies this
      ensures Valid() && View() == Settle(old(View()))
    {
      var done := SettleOnce();
      while !done
        invariant Valid()
        invariant if done then View() == Settle(old(View())) else Settle(View()) == Settle(old(View()))
        decreases if done then 0 else 1 + StreetsLeft(street)
      {
        done := SettleOnce();
      }
    }

    method Bet(s: int, paid: int)
      requires Valid() && s in players
      modifies this`players, this`pot
      ensures Valid() && View() == Pay(old(View()), s, paid)
    {
      var p := players[s];
      players := players[s := p.(chips := p.chips - paid, bet := p.bet + paid)];
      pot := pot + paid;
    }

    method RaiseToBet(s: int)
      requires Valid() && s in players
      modifies this`maxBet, this`minRaise
      ensures Valid() && View() == Lift(old(View()), s)
    {
      var delta := players[s].bet - maxBet;
      if delta > 0 {
        maxBet := players[s].bet;
        minRaise := NormalizeRaiseBy(Max(minRaise, delta), BET_UNIT);
      }
    }

    method AllInBet(s: int)
      requires Valid() && s in players
      modifies this
      ensures Valid() && View() == GoAllIn(old(View()), s)
    {
      Bet(s, players[s].chips);
      players := players[s := players[s].(allIn := true)];
      if players[s].bet > maxBet {
        RaiseToBet(s);
        ResetPendingAfterAggression(s);
      }
    }

    /** A raise the stack cannot meet is an all-in. */
    method RaiseBet(s: int, raiseBy: int)
      requires Valid() && s in players
      modifies this
      ensures Valid() && View() == DoRaise(old(View()), s, raiseBy)
    {
      hide GoAllIn, Signed;
      var target := Signed(maxBet + raiseBy);
      var need := Max(0, Signed(target - players[s].bet));
      if need >= players[s].chips {
        AllInBet(s);
      } else {
        Bet(s, need);
        RaiseToBet(s);
        ResetPendingAfterAggression(s);
      }
    }

    method CallBet(s: int, callNeed: int)
      requires Valid() && s in players && callNeed == CallNeed(View(), s)
      modifies this
      ensures Valid() && View() == DoCall(old(View()), s)
    {
      if callNeed > 0 {
        Bet(s, Min(callNeed, players[s].chips));
        if players[s].chips == 0 {
          players := players[s := players[s].(allIn := true)];
        }
      }
    }

    /** The switch of applyActionLocked; false for an action that is refused with an error. */
    method Perform(s: int, a: Action) returns (ok: bool)
      requires Valid() && s in players
      modifies this
      ensures Valid() && ok == Legal(old(View()), s, a)
      ensures View() == if ok then Apply(old(View()), s, a) else old(View())
    {
      hide GoAllIn, DoRaise, NormalizeRaiseBy;
      var callNeed := Max(0, maxBet - players[s].bet);
      match a {
        case Unsupported => return false;
        case Fold =>
          players := players[s := players[s].(folded := true)];
        case AllIn =>
          AllInBet(s);
        case Raise(amount) =>
          if players[s].chips <= callNeed {
            return false;
          }
          var raw := if amount.Some? then Max(1, amount.value) else minRaise;
          var raiseBy := NormalizeRaiseBy(raw, minRaise);
          if raiseBy < minRaise {
            return false;
          }
          RaiseBet(s, raiseBy);
        case Check =>
          if callNeed > 0 {
            return false;
          }
        case Call =>
          CallBet(s, callNeed);
      }
      ok := true;
    }

    /** handleAction and applyActionLocked */
    method ApplyAction(s: int, a: Action)
      requires Valid()
      modifies this
      ensures Valid() && View() == Act(old(View()), s, a)
    {
      if s < 0 || s != turn {
        return;
      }
      if s !in players || players[s].folded || players[s].chips <= 0 {
        return;
      }
      if street == HandOver || street == Waiting {
        return;
      }
      var ok := Perform(s, a);
      if !ok {
        return;
      }
      pending := pending - {s};
      SettleStreetOrAdvanceTurn();
    }

    method DrawTo(s: int)
      requires Valid() && s in players
      modifies this`players, this`deck
      ensures Valid() && View() == DrawHole(old(View()), s)
    {
      var c := Draw();
      players := players[s := players[s].(hole := players[s].hole + [c])];
    }

    method DealTo(s: int)
      requires Valid() && s in players
      modifies this`players, this`deck
      ensures Valid() && View() == DealSeat(old(View()), s)
    {
      players := players[s := players[s].(folded := players[s].chips <= 0, allIn := false, bet := 0, hole := [])];
      if !players[s].folded {
        DrawTo(s);
        DrawTo(s);
      }
    }

    /** startNewHandLocked; `shuffled` is the fresh deck after the shuffle. */
    method StartNewHand(shuffled: seq<Card>)
      requires Valid() && multiset(shuffled) == multiset(FreshDeck())
      modifies this
      ensures Valid() && View() == StartHand(old(View()), shuffled)
    {
      hide FreshDeck, ClearTable, DealSeats, PostBlinds, FirstAction, ResetPending, Settle, TakenBelow;
      var seats := ActiveSeatList();
      if |seats| < MIN_PLAYERS_TO_START {
        return;
      }
      ClearForHand(seats, shuffled);
      DealAll(seats);
      OpenBetting(seats);
      if turn < 0 {
        SettleStreetOrAdvanceTurn();
      }
    }

    method ClearForHand(seats: seq<int>, shuffled: seq<Card>)
      requires Valid() && seats == View().seats && multiset(shuffled) == multiset(FreshDeck())
      modifies this
      ensures Valid() && View() == ClearTable(old(View()), shuffled) && View().seats == seats
    {
      ShuffledIsPlayable(shuffled);
      handNum, street, pot, maxBet, minRaise := handNum + 1, PreFlop, 0, BIG_BLIND, BIG_BLIND;
      board, deck := [], shuffled;
      dealer := NextSeatFrom(seats, dealer);
    }

    /** Blinds, pending seats and the first turn. */
    method OpenBetting(seats: seq<int>)
      requires Valid() && seats == View().seats
      modifies this
      ensures Valid() && View() == FirstAction(ResetPending(PostBlinds(old(View()))))
    {
      hide NextSeatFrom, FirstAction, ResetPending;
      var sb := NextSeatFrom(seats, dealer);
      var bb := NextSeatFrom(seats, sb);
      PostBlind(sb, SMALL_BLIND);
      PostBlind(bb, BIG_BLIND);
      turn := NextSeatFrom(seats, bb);
      assert View() == PostBlinds(old(View()));
      ResetPendingForStreet();
      turn := FirstActionSeat();
    }

    method DealAll(seats: seq<int>)
      requires Valid() && seats == View().seats
      modifies this`players, this`deck
      ensures Valid() && View() == DealSeats(old(View()), |seats|)
    {
      for i := 0 to |seats|
        invariant Valid() && View().seats == seats
        invariant View() == DealSeats(old(View()), i)
      {
        var s := seats[i];
        if s in players {
          DealTo(s);
        }
      }
    }
  }

  lemma {:induction false} NoneTaken(taken: seq<bool>, n: nat)
    requires n <= |taken| && forall i :: 0 <= i < |taken| ==> !taken[i]
    ensures TakenBelow(taken, n) == []
  {
    if n > 0 {
      NoneTaken(taken, n - 1);
    }
  }

  /** A fruitless scan leaves a street that closes alike. */
  lemma ClosesAlike(t: Table, u: Table)
    requires u == t.(pending := {}, turn := if t.pending == {} then t.turn else -1)
    ensures JavaRules.CloseStreet(t) == JavaRules.CloseStreet(u)
  {
    hide Settle, NextStreet, FinishHand;
    assert ClearBets(t) == ClearBets(u);
  }
}
