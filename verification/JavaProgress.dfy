/**
  Progress at the gateway: while a hand runs the turn is always with a seat that can act, and
  every accepted action brings the hand forward, unless it is a raise that pays nothing.
  */
module JavaProgress {
  import opened Common
  import opened HoldemTypes
  import opened JavaRules
  import opened JavaTurns
  import opened JavaLedger

  predicate Running(t: Table) {
    t.street != HandOver && t.street != Waiting
  }

  ghost predicate PendingOk(t: Table) {
    forall s :: s in t.pending ==> s in t.seats && CanAct(t, s)
  }

  /** A running hand waits for one seat that can act; a finished one waits for nobody. */
  ghost predicate TurnOk(t: Table) {
    if Running(t)
    then PendingOk(t) && t.turn >= 0 && t.turn in t.seats && CanAct(t, t.turn) && t.turn !in t.pending
    else t.turn == -1
  }

  ghost predicate BetsOk(t: Table) {
    forall s :: s in t.seats && s in t.players ==> t.players[s].bet <= t.maxBet
  }

  // ----- handing on the turn -----

  lemma FoundSeat(t: Table, current: int)
    requires SeatList(t.seats) && PendingOk(t)
    ensures var r := NextPendingSeat(t, current);
      if t.pending == {} then r == -1 else r in t.pending && r >= 0
  {
    NextPendingFinds(t, current);
    hide CanAct, NextPendingSeat;
    assert (forall s :: s !in t.pending) ==> t.pending == {};
  }

  /** firstActionSeatForStreet, after the pending seats were set, leaves the turn in order. */
  lemma FirstActionOk(t: Table)
    requires SeatList(t.seats) && Running(t)
    ensures var u := FirstAction(ResetPending(t));
      && PendingOk(u) && u.players == t.players && u.seats == t.seats && u.maxBet == t.maxBet
      && (u.turn >= 0 ==> TurnOk(u))
      && (u.turn < 0 ==> u.pending == {})
  {
    var r := ResetPending(t);
    assert PendingOk(r);
    var seat := if r.street == PreFlop then r.turn else NextSeatFrom(r.seats, r.dealer);
    FoundSeat(r, seat);
    hide NextPendingSeat, NextSeatFrom;
    if t.seats == [] {
      assert r.pending == {};
    }
  }

  /** Where a settled street leaves the table. */
  ghost predicate SettledOk(t: Table, u: Table) {
    && TurnOk(u) && u.street != Waiting
    && (Running(u) ==> BetsOk(u))
    && (Running(u) ==>
          || StreetsLeft(u.street) < StreetsLeft(t.street)
          || (u.street == t.street && u.turn in t.pending && u.pending == t.pending - {u.turn}))
  }

  lemma FinishOk(t: Table)
    ensures FinishHand(t).street == HandOver && FinishHand(t).turn == -1
  {
    hide Winners, Settled;
  }

  lemma NextStreetOk(t: Table)
    requires SeatList(t.seats) && StreetsLeft(t.street) > 1
    requires forall s :: s in t.players && s in t.seats ==> t.players[s].bet == 0
    requires t.maxBet == 0
    ensures var u := NextStreet(t);
      && PendingOk(u) && BetsOk(u) && (u.turn >= 0 ==> TurnOk(u)) && Running(u)
      && u.seats == t.seats && StreetsLeft(u.street) == StreetsLeft(t.street) - 1
  {
    DealStreetKeeps(t);
    FirstActionOk(DealStreet(t));
    FirstActionKeepsStreet(DealStreet(t));
    hide DealStreet, FirstAction, ResetPending, TurnOk, PendingOk;
  }

  lemma FirstActionKeepsStreet(t: Table)
    ensures FirstAction(ResetPending(t)).street == t.street
  {
    hide NextPendingSeat, NextSeatFrom;
  }

  /** settleStreetOrAdvanceTurn ends with the hand over or with a seat that can act. */
  lemma {:induction false} SettleOk(t: Table)
    requires SeatList(t.seats) && Running(t) && PendingOk(t) && BetsOk(t)
    ensures SettledOk(t, Settle(t))
    decreases StreetsLeft(t.street), 1
  {
    hide FinishHand, CloseStreet, NextPendingSeat, Contenders;
    FoundSeat(t, t.turn);
    if |Contenders(t)| <= 1 {
      FinishOk(t);
    } else if t.pending == {} {
      CloseOk(t);
    }
  }

  lemma {:induction false} CloseOk(t: Table)
    requires SeatList(t.seats) && Running(t)
    ensures SettledOk(t, CloseStreet(t))
    ensures Running(CloseStreet(t)) ==> StreetsLeft(CloseStreet(t).street) < StreetsLeft(t.street)
    decreases StreetsLeft(t.street), 0
  {
    hide FinishHand, NextStreet, Settle, TurnOk;
    var t1 := EndStreet(t);
    if StreetsLeft(t1.street) <= 1 {
      FinishOk(t1);
      FinishTurnOk(t1);
    } else {
      NextStreetAdvances(t1);
      NextStreetOk(t1);
      var t2 := NextStreet(t1);
      hide EndStreet, PendingOk, BetsOk;
      if t2.turn < 0 {
        SettleOk(t2);
      }
    }
  }

  lemma FinishTurnOk(t: Table)
    ensures TurnOk(FinishHand(t))
  {
    FinishOk(t);
    hide FinishHand;
  }

  // ----- actions -----

  /** Between an accepted action and the settling of the street. */
  ghost predicate InOrder(t: Table, s: int, u: Table) {
    && u.seats == t.seats && u.street == t.street && s !in u.pending && u.players.Keys == t.players.Keys
    && PendingOk(u) && BetsOk(u)
  }

  /** Chips went in, or a turn was used up. */
  ghost predicate Forward(t: Table, u: Table) {
    Chips(u) < Chips(t) || (Chips(u) == Chips(t) && u.pending == t.pending)
  }

  ghost predicate ActedOk(t: Table, s: int, u: Table) {
    InOrder(t, s, u) && Forward(t, u)
  }

  /** Only s has changed. */
  ghost predicate OnlySeat(t: Table, s: int, u: Table) {
    && s in t.players && u.players.Keys == t.players.Keys && u.seats == t.seats && u.street == t.street
    && forall x :: x in t.players && x != s ==> u.players[x] == t.players[x]
  }

  ghost predicate Ready(t: Table, s: int) {
    && SeatsOk(t) && Running(t) && TurnOk(t) && BetsOk(t) && ChipsOk(t) && s == t.turn
  }

  lemma StepBack(t: Table, s: int, u: Table)
    requires Ready(t, s) && OnlySeat(t, s, u) && u.pending == t.pending && u.maxBet == t.maxBet
    requires u.players[s].bet <= u.maxBet
    requires Chips(u) <= Chips(t)
    ensures ActedOk(t, s, u.(pending := u.pending - {s}))
  {
    assert u.pending - {s} == t.pending;
    hide ChipsBelow;
  }

  /** A seat that put chips in and reopened the betting. */
  lemma StepUp(t: Table, s: int, u: Table, v: Table)
    requires Ready(t, s) && OnlySeat(t, s, u) && Chips(u) < Chips(t) && u.maxBet == t.maxBet
    requires v == Reopen(Lift(u, s), s)
    ensures ActedOk(t, s, v.(pending := v.pending - {s}))
  {
    hide ChipsBelow, NormalizeRaiseBy;
    LiftSame(u, s);
    assert Chips(v) == Chips(u);
    assert forall x :: x in v.pending ==> x in ActingSeats(v);
  }

  lemma PaidLess(t: Table, s: int, paid: int)
    requires s in t.players && 0 <= s < SEATS
    ensures Chips(Pay(t, s, paid)) == Chips(t) - paid
    ensures Chips(MarkAllIn(Pay(t, s, paid), s)) == Chips(t) - paid
    ensures OnlySeat(t, s, Pay(t, s, paid)) && OnlySeat(t, s, MarkAllIn(Pay(t, s, paid), s))
  {
    var p := t.players[s];
    ChipsUpdate(t.players, s, p.(chips := p.chips - paid, bet := p.bet + paid), SEATS);
    var u := Pay(t, s, paid);
    ChipsUpdate(u.players, s, u.players[s].(allIn := true), SEATS);
  }

  lemma GoAllInOk(t: Table, s: int)
    requires Ready(t, s)
    ensures var u := GoAllIn(t, s); ActedOk(t, s, u.(pending := u.pending - {s}))
  {
    var u := MarkAllIn(Pay(t, s, t.players[s].chips), s);
    PaidLess(t, s, t.players[s].chips);
    hide Chips;
    if u.players[s].bet > u.maxBet {
      StepUp(t, s, u, Reopen(Lift(u, s), s));
    } else {
      StepBack(t, s, u);
    }
  }

  /** A raise whose target, in int arithmetic, is no more than what the seat has bet: it pays nothing. */
  ghost predicate FreeRaise(t: Table, s: int, a: Action) {
    a.Raise? && s in t.players && RaiseNeed(t, s, RaiseBy(t, a.amount)) == 0
  }

  lemma RaiseOk(t: Table, s: int, raiseBy: int)
    requires Ready(t, s) && RaiseNeed(t, s, raiseBy) > 0
    ensures var u := DoRaise(t, s, raiseBy); ActedOk(t, s, u.(pending := u.pending - {s}))
  {
    hide Signed, RaiseNeed;
    var need := RaiseNeed(t, s, raiseBy);
    if need >= t.players[s].chips {
      GoAllInOk(t, s);
    } else {
      PaidLess(t, s, need);
      hide Chips;
      StepUp(t, s, Pay(t, s, need), Reopen(Lift(Pay(t, s, need), s), s));
    }
  }

  /** A free raise only makes everybody else pending again. */
  lemma FreeRaiseReopens(t: Table, s: int, a: Action)
    requires s in t.players && t.players[s].bet <= t.maxBet && t.players[s].chips > 0 && FreeRaise(t, s, a)
    ensures Apply(t, s, a) == Reopen(t, s)
  {
    hide RaiseNeed, RaiseBy, ActingSeats;
    var u := Pay(t, s, 0);
    assert u.players == t.players;
  }

  lemma FreeRaiseOk(t: Table, s: int, a: Action)
    requires Ready(t, s) && FreeRaise(t, s, a)
    ensures var u := Apply(t, s, a); InOrder(t, s, u.(pending := u.pending - {s}))
  {
    FreeRaiseReopens(t, s, a);
    hide Apply, FreeRaise, ChipsBelow;
    assert forall x :: x in ActingSeats(t) ==> x in t.seats && CanAct(t, x);
  }

  lemma CallOk(t: Table, s: int)
    requires Ready(t, s)
    ensures var u := DoCall(t, s); ActedOk(t, s, u.(pending := u.pending - {s}))
  {
    if CallNeed(t, s) <= 0 {
      StepBack(t, s, t);
    } else {
      var paid := Min(CallNeed(t, s), t.players[s].chips);
      PaidLess(t, s, paid);
      hide Chips;
      StepBack(t, s, DoCall(t, s));
    }
  }

  lemma FoldOk(t: Table, s: int)
    requires Ready(t, s)
    ensures var u := Apply(t, s, Fold); ActedOk(t, s, u.(pending := u.pending - {s}))
  {
    FoldKeeps(t, s);
    hide Chips;
    StepBack(t, s, Apply(t, s, Fold));
  }

  lemma ApplyOk(t: Table, s: int, a: Action)
    requires Ready(t, s) && Accepts(t, s, a)
    ensures var u := Apply(t, s, a); InOrder(t, s, u.(pending := u.pending - {s}))
    ensures !FreeRaise(t, s, a) ==> var u := Apply(t, s, a); Forward(t, u.(pending := u.pending - {s}))
  {
    hide InOrder, Forward, Ready, GoAllIn, DoRaise, DoCall, RaiseBy, RaiseNeed;
    match a
    case Fold => FoldOk(t, s);
    case AllIn => GoAllInOk(t, s);
    case Raise(amount) =>
      if FreeRaise(t, s, a) {
        FreeRaiseOk(t, s, a);
      } else {
        RaiseOk(t, s, RaiseBy(t, amount));
      }
    case _ => CallOk(t, s);
  }

  /** Lexicographic: fewer streets left, or fewer chips behind, or fewer seats still to act. */
  ghost predicate Lower(u: Table, t: Table) {
    || StreetsLeft(u.street) < StreetsLeft(t.street)
    || (u.street == t.street && Chips(u) < Chips(t))
    || (u.street == t.street && Chips(u) == Chips(t) && u.pending < t.pending)
  }

  /** What every reachable table of a hand satisfies. */
  ghost predicate HandOk(t: Table) {
    SeatsOk(t) && ChipsOk(t) && TurnOk(t) && (Running(t) ==> BetsOk(t)) && t.street != Waiting
  }

  lemma SettleKeepsChips(t: Table)
    requires SeatsOk(t) && Running(t) && Running(Settle(t))
    ensures Chips(Settle(t)) == Chips(t)
  {
    SettleWorth(t);
    hide Settle, Chips;
  }

  lemma SettledLower(t: Table, s: int, u: Table, v: Table)
    requires ActedOk(t, s, u) && SettledOk(u, v) && Running(v) && Chips(v) == Chips(u)
    ensures Lower(v, t)
  {
    hide Chips;
  }

  /** Everybody who could act besides s. */
  ghost function OthersActing(t: Table, s: int): set<int> { ActingSeats(t) - {s} }

  lemma TwoContend(seats: seq<int>, players: Players, a: int, b: int)
    requires a in ContendersOf(seats, players) && b in ContendersOf(seats, players) && a != b
    ensures |ContendersOf(seats, players)| >= 2
  {
    hide ContendersOf;
    var c := ContendersOf(seats, players);
    var i :| 0 <= i < |c| && c[i] == a;
    var j :| 0 <= j < |c| && c[j] == b;
  }

  lemma BothContend(t: Table, s: int)
    requires s in t.seats && CanAct(t, s) && OthersActing(t, s) != {}
    ensures |Contenders(t)| >= 2
  {
    var x := Member(OthersActing(t, s));
    ContendersArePlayers(t.seats, t.players);
    TwoContend(t.seats, t.players, s, x);
  }

  /** After a free raise the next of the others is asked, and no chip has moved. */
  lemma FreeRaiseGoesOn(t: Table, s: int, a: Action)
    requires HandOk(t) && Accepts(t, s, a) && FreeRaise(t, s, a) && OthersActing(t, s) != {}
    ensures var v := Act(t, s, a);
      && v.turn in OthersActing(t, s) && v == t.(turn := v.turn, pending := OthersActing(t, s) - {v.turn})
  {
    var others := OthersActing(t, s);
    var u := t.(pending := others);
    FreeActsAlike(t, s, a);
    BothContend(t, s);
    FoundSeat(u, u.turn);
    hide FreeRaise, Accepts, Act, NextPendingSeat, ActingSeats, Contenders;
    SameContenders(t, u);
  }

  lemma SameContenders(t: Table, u: Table)
    requires u == t.(pending := u.pending)
    ensures Contenders(u) == Contenders(t)
  {}

  lemma FreeActsAlike(t: Table, s: int, a: Action)
    requires HandOk(t) && Accepts(t, s, a) && FreeRaise(t, s, a)
    ensures Act(t, s, a) == Settle(t.(pending := OthersActing(t, s)))
    ensures s in t.seats && CanAct(t, s) && s == t.turn && PendingOk(t.(pending := OthersActing(t, s)))
  {
    FreeRaiseReopens(t, s, a);
    hide Apply, FreeRaise, Settle, RaiseBy, RaiseNeed;
    var u := Reopen(t, s);
    assert u.pending - {s} == OthersActing(t, s);
  }

  /** Fewer than all the others were pending: a free raise brings nothing forward. */
  lemma FreeRaiseIsNotLower(t: Table, s: int, a: Action)
    requires HandOk(t) && Accepts(t, s, a) && FreeRaise(t, s, a) && t.pending != OthersActing(t, s)
    ensures Running(Act(t, s, a)) && !Lower(Act(t, s, a), t)
  {
    PendingAmongOthers(t, s, a);
    FreeRaiseGoesOn(t, s, a);
    hide Act, Accepts, FreeRaise, HandOk, ActingSeats, Chips, OthersActing;
    var v, others := Act(t, s, a), OthersActing(t, s);
    SameChips(t, v);
    SubsetIsSmaller(t.pending, others);
    assert others == v.pending + {v.turn};
    assert |others| == |v.pending| + 1;
    if v.pending < t.pending {
      SubsetIsSmaller(v.pending, t.pending);
    }
  }

  lemma SameChips(t: Table, v: Table)
    requires v.players == t.players
    ensures Chips(v) == Chips(t)
  {}

  lemma PendingAmongOthers(t: Table, s: int, a: Action)
    requires HandOk(t) && Accepts(t, s, a)
    ensures t.pending <= OthersActing(t, s) && Running(t)
    ensures t.pending != OthersActing(t, s) ==> OthersActing(t, s) != {}
  {
    hide Legal, Chips;
    assert forall x :: x in t.pending ==> x in ActingSeats(t);
  }

  /**
    An accepted action leaves the hand over or waiting for a seat that can act, so the hand
    cannot stall.  It brings the hand forward, unless it is a free raise that reopens the
    betting for a seat that has acted; and then the hand goes on and it does not.
    */
  lemma AcceptedActionDescends(t: Table, s: int, a: Action)
    requires HandOk(t) && Accepts(t, s, a)
    ensures HandOk(Act(t, s, a))
    ensures var v := Act(t, s, a);
      (Running(v) ==> Lower(v, t)) <==> !FreeRaise(t, s, a) || t.pending == OthersActing(t, s)
  {
    ActedInOrder(t, s, a);
    hide Act, Accepts, HandOk, FreeRaise, OthersActing, Lower;
    if FreeRaise(t, s, a) {
      if t.pending == OthersActing(t, s) {
        AllPendingLower(t, s, a);
      } else {
        FreeRaiseIsNotLower(t, s, a);
      }
    }
  }

  lemma ActedInOrder(t: Table, s: int, a: Action)
    requires HandOk(t) && Accepts(t, s, a)
    ensures HandOk(Act(t, s, a))
    ensures !FreeRaise(t, s, a) && Running(Act(t, s, a)) ==> Lower(Act(t, s, a), t)
  {
    ApplyOk(t, s, a);
    ActionKeepsWorth(t, s, a);
    var u := Apply(t, s, a);
    var u1 := u.(pending := u.pending - {s});
    var v := Settle(u1);
    assert Act(t, s, a) == v;
    hide Apply, Act, Accepts, Chips, ChipsOk, Worth, Contenders, FreeRaise;
    SettleOk(u1);
    if Running(v) && !FreeRaise(t, s, a) {
      SettleKeepsChips(u1);
      SettledLower(t, s, u1, v);
    }
  }

  lemma AllPendingLower(t: Table, s: int, a: Action)
    requires HandOk(t) && Accepts(t, s, a) && FreeRaise(t, s, a) && t.pending == OthersActing(t, s)
    ensures Running(Act(t, s, a)) ==> Lower(Act(t, s, a), t)
  {
    FreeActsAlike(t, s, a);
    assert t.(pending := OthersActing(t, s)) == t;
    PendingAmongOthers(t, s, a);
    hide Act, Accepts, FreeRaise, OthersActing, Settle, ActingSeats, Chips;
    SettleOk(t);
    if Running(Settle(t)) {
      SettleKeepsChips(t);
    }
  }

  // ----- a new hand -----

  lemma BlindSeatsDiffer(seats: seq<int>, s: int)
    requires SeatList(seats) && |seats| >= 2
    ensures NextSeatFrom(seats, NextSeatFrom(seats, s)) != NextSeatFrom(seats, s)
    ensures NextSeatFrom(seats, s) in seats
  {
    var sb := NextSeatFrom(seats, s);
    var p :| 0 <= p < |seats| && seats[p] == sb;
    StepFrom(seats, p);
  }

  lemma BlindBets(t: Table, s: int, blind: nat)
    ensures var u := PostBlind(t, s, blind);
      && u.maxBet == t.maxBet && u.seats == t.seats && u.street == t.street
      && u.dealer == t.dealer && u.players.Keys == t.players.Keys
      && (forall x :: x in t.players && x != s ==> u.players[x] == t.players[x])
      && (s in t.players ==> u.players[s].bet <= t.players[s].bet + blind)
  {}

  lemma BlindsBets(t: Table)
    requires SeatList(t.seats) && |t.seats| >= 2 && t.maxBet == BIG_BLIND
    requires forall s :: s in t.players && s in t.seats ==> t.players[s].bet == 0
    ensures var u := PostBlinds(t);
      BetsOk(u) && u.seats == t.seats && u.street == t.street && u.players.Keys == t.players.Keys && u.maxBet == t.maxBet
  {
    var sb := NextSeatFrom(t.seats, t.dealer);
    var bb := NextSeatFrom(t.seats, sb);
    BlindSeatsDiffer(t.seats, t.dealer);
    hide PostBlind, NextSeatFrom;
    var t1 := PostBlind(t, sb, SMALL_BLIND);
    BlindBets(t, sb, SMALL_BLIND);
    BlindBets(t1, bb, BIG_BLIND);
  }

  lemma OpenOk(t: Table, shuffled: seq<Card>)
    requires SeatsOk(t) && |t.seats| >= 2
    ensures var u := Open(t, shuffled);
      && SeatsOk(u) && u.street == PreFlop && PendingOk(u) && BetsOk(u)
      && (u.turn >= 0 ==> TurnOk(u))
  {
    var t0 := ClearTable(t, shuffled);
    hide DealSeats, PostBlinds, FirstAction, ResetPending, TurnOk, PendingOk;
    var t1 := DealSeats(t0, |t.seats|);
    DealSeatsKeep(t0, |t.seats|);
    assert t.seats[..|t.seats|] == t.seats;
    BlindsBets(t1);
    FirstActionOk(PostBlinds(t1));
    FirstActionKeepsStreet(PostBlinds(t1));
  }

  /** A new hand begins in order, whether or not anyone can act. */
  lemma StartOk(t: Table, shuffled: seq<Card>)
    requires SeatsOk(t) && ChipsOk(t) && |t.seats| >= MIN_PLAYERS_TO_START
    ensures HandOk(StartHand(t, shuffled))
  {
    var u := Open(t, shuffled);
    StartIsOpen(t, shuffled);
    OpenOk(t, shuffled);
    StartWorth(t, shuffled);
    hide Open, StartHand, Worth, Chips, ChipsOk, PendingOk, Funded, Contenders;
    if u.turn < 0 {
      NobodyToAsk(u);
    }
  }

  lemma StartIsOpen(t: Table, shuffled: seq<Card>)
    requires |t.seats| >= MIN_PLAYERS_TO_START
    ensures StartHand(t, shuffled) == if Open(t, shuffled).turn < 0 then Settle(Open(t, shuffled)) else Open(t, shuffled)
  {
    hide FirstAction, ResetPending, PostBlinds, DealSeats, Settle;
  }

  lemma NobodyToAsk(u: Table)
    requires SeatsOk(u) && u.street == PreFlop && PendingOk(u) && BetsOk(u)
    ensures SettledOk(u, Settle(u))
  {
    hide Settle;
    SettleOk(u);
  }

  // ----- every hand ends -----

  lemma {:induction false} HandStaysOk(t: Table, actions: seq<(int, Action)>)
    requires HandOk(t)
    ensures HandOk(Run(t, actions))
  {
    if actions != [] {
      hide HandOk, Act;
      var before := Run(t, actions[..|actions| - 1]);
      var last := actions[|actions| - 1];
      HandStaysOk(t, actions[..|actions| - 1]);
      if Accepts(before, last.0, last.1) {
        AcceptedActionDescends(before, last.0, last.1);
      } else {
        ActStaysOver(before, last.0, last.1);
      }
    }
  }

  /** How many of the actions were accepted. */
  function AcceptedCount(t: Table, actions: seq<(int, Action)>): nat {
    if actions == [] then 0
    else
      var last := actions[|actions| - 1];
      AcceptedCount(t, actions[..|actions| - 1]) +
      if Accepts(Run(t, actions[..|actions| - 1]), last.0, last.1) then 1 else 0
  }

  /** A number that bounds the accepted actions still to come. */
  function Fuel(t: Table, total: int): int {
    if !Running(t) then 0 else StreetsLeft(t.street) * (11 * total + 11) + 11 * Chips(t) + |t.pending|
  }

  lemma PendingIsSmall(t: Table)
    requires SeatsOk(t) && TurnOk(t) && Running(t)
    ensures |t.pending| < SEATS
  {
    assert forall s :: s in t.pending ==> s in t.seats;
    SizeBelow(t.pending + {t.turn}, SEATS);
  }

  /** How many of the accepted actions are free raises. */
  ghost function FreeCount(t: Table, actions: seq<(int, Action)>): nat {
    if actions == [] then 0
    else
      var before, last := Run(t, actions[..|actions| - 1]), actions[|actions| - 1];
      FreeCount(t, actions[..|actions| - 1]) + if FreelyRaised(before, last.0, last.1) then 1 else 0
  }

  ghost predicate FreelyRaised(t: Table, s: int, a: Action) {
    Accepts(t, s, a) && FreeRaise(t, s, a)
  }

  lemma FuelFalls(t: Table, u: Table, total: int)
    requires Running(t) && (Running(u) ==> Lower(u, t) && Chips(u) <= total && |u.pending| <= SEATS)
    requires 0 <= Chips(t) && total >= 0 && StreetsLeft(t.street) >= 1
    ensures Fuel(u, total) < Fuel(t, total)
  {
    hide Chips;
    var m := 11 * total + 11;
    if Running(u) {
      if StreetsLeft(u.street) < StreetsLeft(t.street) {
        assert StreetsLeft(u.street) * m <= (StreetsLeft(t.street) - 1) * m;
        assert (StreetsLeft(t.street) - 1) * m == StreetsLeft(t.street) * m - m;
      } else if Chips(u) == Chips(t) {
        assert t.pending == u.pending + (t.pending - u.pending);
        assert u.pending != t.pending;
        SubsetIsSmaller(u.pending, t.pending);
      }
    } else {
      assert StreetsLeft(t.street) * m >= m;
    }
  }

  lemma {:induction false} ChipsBounds(players: Players, n: nat)
    requires forall s :: s in players ==> players[s].chips >= 0
    ensures ChipsBelow(players, n) >= 0
  {
    if n > 0 {
      ChipsBounds(players, n - 1);
    }
  }

  lemma RunningBounds(t: Table)
    requires HandOk(t) && Running(t)
    ensures 0 <= Chips(t) <= Worth(t) && |t.pending| < SEATS
  {
    ChipsBounds(t.players, SEATS);
    PendingIsSmall(t);
    hide ChipsBelow;
  }

  lemma {:induction false} AcceptedIsBounded(t: Table, actions: seq<(int, Action)>)
    requires HandOk(t) && Worth(t) >= 0
    ensures Worth(Run(t, actions)) == Worth(t)
    ensures AcceptedCount(t, actions) + Fuel(Run(t, actions), Worth(t)) <=
            Fuel(t, Worth(t)) + 10 * FreeCount(t, actions)
  {
    if actions != [] {
      var before := Run(t, actions[..|actions| - 1]);
      var last := actions[|actions| - 1];
      AcceptedIsBounded(t, actions[..|actions| - 1]);
      HandStaysOk(t, actions[..|actions| - 1]);
      OneMore(before, last.0, last.1, Worth(t));
    }
  }

  lemma AcceptsOnlyRunning(t: Table, s: int, a: Action)
    requires HandOk(t) && Accepts(t, s, a)
    ensures Running(t) && StreetsLeft(t.street) >= 1
  {
    ActStaysOver(t, s, a);
    hide Accepts, TurnOk, ChipsOk, BetsOk, SeatsOk;
  }

  /** An accepted action burns fuel; a free raise adds nine at most. */
  lemma AcceptedBurnsFuel(t: Table, s: int, a: Action, total: int)
    requires HandOk(t) && Worth(t) == Worth(Act(t, s, a)) == total >= 0 && Accepts(t, s, a)
    ensures Fuel(Act(t, s, a), total) + 1 <= Fuel(t, total) + if FreelyRaised(t, s, a) then 10 else 0
  {
    hide Act, Accepts, Worth, Fuel, Chips, HandOk, Lower, FreeRaise, OthersActing;
    var u := Act(t, s, a);
    AcceptsOnlyRunning(t, s, a);
    AcceptedActionDescends(t, s, a);
    RunningBounds(t);
    if Running(u) {
      RunningBounds(u);
    }
    if Running(u) ==> Lower(u, t) {
      FuelFalls(t, u, total);
    } else {
      PendingAmongOthers(t, s, a);
      FreeRaiseGoesOn(t, s, a);
      SameChips(t, u);
      FuelOfPending(t, u, total);
    }
  }

  lemma FuelOfPending(t: Table, u: Table, total: int)
    requires Running(t) && u.street == t.street && Chips(u) == Chips(t) && |u.pending| < SEATS
    ensures Fuel(u, total) <= Fuel(t, total) + 9
  {
    hide Chips;
  }

  lemma OneMore(t: Table, s: int, a: Action, total: int)
    requires HandOk(t) && Worth(t) == total >= 0
    ensures Worth(Act(t, s, a)) == total
    ensures Fuel(Act(t, s, a), total) + (if Accepts(t, s, a) then 1 else 0) <=
            Fuel(t, total) + if FreelyRaised(t, s, a) then 10 else 0
  {
    hide Act, Accepts, Worth, Fuel, HandOk, FreeRaise;
    if Accepts(t, s, a) {
      ActedWorth(t, s, a);
      AcceptedBurnsFuel(t, s, a, total);
    } else {
      ActStaysOver(t, s, a);
    }
  }

  lemma ActedWorth(t: Table, s: int, a: Action)
    requires HandOk(t) && Accepts(t, s, a)
    ensures Worth(Act(t, s, a)) == Worth(t)
  {
    ActionKeepsWorth(t, s, a);
    hide Act, Accepts, Worth, HandOk;
  }

  lemma FuelNotNegative(t: Table, total: int)
    requires HandOk(t) && total >= 0
    ensures Fuel(t, total) >= 0
  {
    ChipsBounds(t.players, SEATS);
    hide ChipsBelow;
  }

  lemma FuelAtMost(t: Table, total: int)
    requires Running(t) ==> 0 <= Chips(t) <= total && |t.pending| < SEATS
    requires total >= 0
    ensures Fuel(t, total) <= 55 * (total + 1)
  {
    hide Chips;
    assert StreetsLeft(t.street) <= 4;
    assert StreetsLeft(t.street) * (11 * total + 11) <= 4 * (11 * total + 11);
  }

  /**
    No hand has more accepted actions than 55 for each chip on the table, plus 55, and ten
    more for each free raise.
    */
  lemma EveryHandEnds(t: Table, shuffled: seq<Card>, actions: seq<(int, Action)>)
    requires SeatsOk(t) && ChipsOk(t) && |t.seats| >= MIN_PLAYERS_TO_START
    ensures AcceptedCount(StartHand(t, shuffled), actions) <=
            55 * (Chips(t) + 1) + 10 * FreeCount(StartHand(t, shuffled), actions)
  {
    StartOk(t, shuffled);
    StartWorth(t, shuffled);
    ChipsBounds(t.players, SEATS);
    var s := StartHand(t, shuffled);
    hide StartHand, Chips, Worth, HandOk, FreeCount;
    AcceptedIsBounded(s, actions);
    if Running(s) {
      RunningBounds(s);
    }
    HandStaysOk(s, actions);
    FuelNotNegative(Run(s, actions), Chips(t));
    FuelAtMost(s, Chips(t));
  }
}
