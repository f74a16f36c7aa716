/**
  Raises at the gateway whose sum overflows.  currentMaxBet + raiseBy is an int sum of a
  client's number; past INT_MAX it comes out negative, nothing is then missing to the target,
  and the raise pays nothing but reopens the betting.  When exactly that happens, and a hand
  that accepts actions without end because of it.
  */
module JavaOverflow {
  import opened Common
  import opened HoldemTypes
  import opened JavaRules
  import opened JavaTurns
  import opened JavaLedger
  import opened JavaProgress

  /** The most chips for which no other sum of a hand leaves int: the last multiple of the unit but one. */
  const CHIP_LIMIT := INT_MAX - 97

  /** What the raise comes to is more than an int holds. */
  ghost predicate Overflows(t: Table, s: int, a: Action) {
    a.Raise? && s in t.players && CallNeed(t, s) + RaiseBy(t, a.amount) > INT_MAX
  }

  // ----- the other fields fit -----

  /** Bets are within the pot, the maximum within it or the big blind, and the minimum raise within the limit. */
  ghost predicate Within(t: Table) {
    && (forall s :: s in t.seats && s in t.players ==> t.players[s].bet <= t.pot)
    && 0 <= t.maxBet <= Max(BIG_BLIND, t.pot)
    && BET_UNIT <= t.minRaise <= CHIP_LIMIT
  }

  lemma RoundUp(v: int, minRaise: int)
    requires Max(BET_UNIT, minRaise) <= v <= CHIP_LIMIT
    ensures v <= NormalizeRaiseBy(v, minRaise) <= CHIP_LIMIT
  {
    SignedIs(v + BET_UNIT - 1);
    hide Signed;
    MultipleAbove(v);
  }

  lemma MultipleAbove(v: int)
    requires BET_UNIT <= v <= CHIP_LIMIT
    ensures v <= ((v + BET_UNIT - 1) / BET_UNIT) * BET_UNIT <= CHIP_LIMIT
  {}

  /** A normalised raise is an int, and what comes out near INT_MAX is negative. */
  lemma RaiseByIsInt(raiseBy: int, minRaise: int)
    ensures NormalizeRaiseBy(raiseBy, minRaise) <= INT_MAX
  {
    hide Signed;
    QuotientBelow(Signed(Max(Max(minRaise, BET_UNIT), raiseBy) + BET_UNIT - 1));
  }

  lemma QuotientBelow(x: int)
    requires x <= INT_MAX
    ensures Quotient(x, BET_UNIT) * BET_UNIT <= INT_MAX
  {}

  /** An accepted raise is free exactly when its sum overflows. */
  lemma FreeIffOverflows(t: Table, s: int, a: Action)
    requires HandOk(t) && Within(t) && Worth(t) <= CHIP_LIMIT && Accepts(t, s, a) && a.Raise?
    ensures FreeRaise(t, s, a) <==> Overflows(t, s, a)
  {
    RaiseTerms(t, s, a);
    hide RaiseNeed, RaiseBy, Worth, HandOk, Within, Accepts;
    NeedIsZeroIff(t, s, RaiseBy(t, a.amount));
  }

  lemma NeedIsZeroIff(t: Table, s: int, raiseBy: int)
    requires s in t.players && 0 <= CallNeed(t, s) == t.maxBet - t.players[s].bet <= CHIP_LIMIT && 0 < raiseBy <= INT_MAX
    ensures RaiseNeed(t, s, raiseBy) == 0 <==> CallNeed(t, s) + raiseBy > INT_MAX
  {
    hide Signed;
    SignedSum(t.maxBet + raiseBy, -t.players[s].bet);
    SignedIs(t.maxBet + raiseBy - t.players[s].bet);
  }

  /** Both terms of the sum are ints, and not negative. */
  lemma RaiseTerms(t: Table, s: int, a: Action)
    requires HandOk(t) && Within(t) && Worth(t) <= CHIP_LIMIT && Accepts(t, s, a) && a.Raise?
    ensures 0 <= CallNeed(t, s) == t.maxBet - t.players[s].bet <= CHIP_LIMIT
    ensures 0 < RaiseBy(t, a.amount) <= INT_MAX
  {
    PotWithinWorth(t);
    RaiseByIsInt(if a.amount.Some? then Max(1, a.amount.value) else t.minRaise, t.minRaise);
    hide NormalizeRaiseBy, Worth;
  }

  lemma PotWithinWorth(t: Table)
    requires ChipsOk(t) && Running(t)
    ensures 0 <= t.pot <= Worth(t)
  {
    ChipsBounds(t.players, SEATS);
    hide ChipsBelow;
  }

  // ----- and go on fitting -----

  lemma PayWithin(t: Table, s: int, paid: int)
    requires s in t.players && Within(t) && 0 <= paid
    ensures Within(Pay(t, s, paid)) && Within(MarkAllIn(Pay(t, s, paid), s))
    ensures Pay(t, s, paid).pot == t.pot + paid
  {}

  lemma LiftWithin(t: Table, s: int)
    requires s in t.players && s in t.seats && Within(t) && t.pot <= CHIP_LIMIT
    ensures Within(Lift(t, s)) && Within(Reopen(Lift(t, s), s))
  {
    hide NormalizeRaiseBy, ActingSeats;
    var delta := t.players[s].bet - t.maxBet;
    if delta > 0 {
      RoundUp(Max(t.minRaise, delta), BET_UNIT);
    }
  }

  lemma GoAllInWithin(t: Table, s: int)
    requires s in t.players && s in t.seats && Within(t) && t.players[s].chips >= 0
    requires t.pot + t.players[s].chips <= CHIP_LIMIT
    ensures Within(GoAllIn(t, s))
  {
    hide Lift, Reopen, Within;
    PayWithin(t, s, t.players[s].chips);
    LiftWithin(MarkAllIn(Pay(t, s, t.players[s].chips), s), s);
  }

  lemma DoRaiseWithin(t: Table, s: int, raiseBy: int)
    requires s in t.players && s in t.seats && Within(t) && t.players[s].chips >= 0
    requires t.pot + t.players[s].chips <= CHIP_LIMIT
    ensures Within(DoRaise(t, s, raiseBy))
  {
    hide Lift, Reopen, Within, GoAllIn, Signed;
    GoAllInWithin(t, s);
    var need := RaiseNeed(t, s, raiseBy);
    PayWithin(t, s, need);
    if need < t.players[s].chips {
      LiftWithin(Pay(t, s, need), s);
    }
  }

  lemma ApplyWithin(t: Table, s: int, a: Action)
    requires s in t.players && s in t.seats && Within(t) && t.players[s].chips >= 0
    requires t.pot + t.players[s].chips <= CHIP_LIMIT
    ensures Within(Apply(t, s, a)) && Within(Apply(t, s, a).(pending := Apply(t, s, a).pending - {s}))
  {
    hide GoAllIn, DoRaise, RaiseBy, ActingSeats;
    GoAllInWithin(t, s);
    if a.Raise? {
      DoRaiseWithin(t, s, RaiseBy(t, a.amount));
    }
  }

  lemma SameWithin(t: Table, u: Table)
    requires Within(t) && u.players == t.players && u.seats == t.seats && u.pot == t.pot
    requires u.maxBet == t.maxBet && u.minRaise == t.minRaise
    ensures Within(u)
  {}

  lemma NextStreetSame(t: Table)
    requires StreetsLeft(t.street) > 1
    ensures var u := NextStreet(t);
      u.players == t.players && u.seats == t.seats && u.pot == t.pot && u.maxBet == t.maxBet && u.minRaise == t.minRaise
  {
    DealStreetKeeps(t);
    hide DealStreet, NextPendingSeat, NextSeatFrom, ActingSeats;
  }

  lemma EndStreetWithin(t: Table)
    requires t.pot >= 0
    ensures Within(EndStreet(t)) && EndStreet(t).pot == t.pot
  {}

  lemma {:induction false} SettleWithin(t: Table)
    requires Within(t) && t.pot >= 0
    ensures Running(Settle(t)) ==> Within(Settle(t))
    decreases StreetsLeft(t.street), 1
  {
    hide FinishHand, NextPendingSeat, Contenders, CloseStreet, Within;
    FinishOk(t);
    CloseWithin(t);
    SameWithin(t, GiveTurn(t, NextPendingSeat(t, t.turn)));
  }

  lemma {:induction false} CloseWithin(t: Table)
    requires t.pot >= 0
    ensures Running(CloseStreet(t)) ==> Within(CloseStreet(t))
    decreases StreetsLeft(t.street), 0
  {
    hide FinishHand, EndStreet, NextStreet, Settle, Within;
    var t1 := EndStreet(t);
    EndStreetWithin(t);
    EndStreetWorth(t);
    FinishOk(t1);
    if StreetsLeft(t1.street) > 1 {
      NextStreetAdvances(t1);
      NextStreetSame(t1);
      var t2 := NextStreet(t1);
      SameWithin(t1, t2);
      if t2.turn < 0 {
        SettleWithin(t2);
      }
    }
  }

  lemma ActWithin(t: Table, s: int, a: Action)
    requires HandOk(t) && Within(t) && Worth(t) <= CHIP_LIMIT && Accepts(t, s, a)
    ensures Running(Act(t, s, a)) ==> Within(Act(t, s, a))
  {
    ActorsRoom(t, s, a);
    ApplyOk(t, s, a);
    hide Apply, Settle, Within, Chips;
    ApplyWithin(t, s, a);
    var u := Apply(t, s, a);
    ApplyPot(t, s, a);
    SettleWithin(u.(pending := u.pending - {s}));
  }

  lemma ApplyPot(t: Table, s: int, a: Action)
    requires s in t.players && t.players[s].chips >= 0 && t.pot >= 0
    ensures Apply(t, s, a).pot >= 0
  {
    hide ActingSeats, NormalizeRaiseBy, RaiseNeed;
  }

  /** What the actor has fits on top of the pot. */
  lemma ActorsRoom(t: Table, s: int, a: Action)
    requires HandOk(t) && Worth(t) <= CHIP_LIMIT && Accepts(t, s, a)
    ensures s in t.players && s in t.seats && t.players[s].chips >= 0 && t.pot + t.players[s].chips <= CHIP_LIMIT
  {
    hide Legal;
    OneOfMany(t.players, s, SEATS);
    hide ChipsBelow;
  }

  lemma {:induction false} OneOfMany(players: Players, s: int, n: nat)
    requires s in players && 0 <= s < n && forall x :: x in players ==> players[x].chips >= 0
    ensures players[s].chips <= ChipsBelow(players, n)
  {
    ChipsBounds(players, n - 1);
    if s < n - 1 {
      OneOfMany(players, s, n - 1);
    }
  }

  // ----- from the start -----

  lemma {:induction false} DealSeatsLimits(t: Table, n: nat)
    requires n <= |t.seats|
    ensures DealSeats(t, n).minRaise == t.minRaise && DealSeats(t, n).maxBet == t.maxBet && DealSeats(t, n).pot == t.pot
  {
    hide FreshDeck;
    if n > 0 {
      DealSeatsLimits(t, n - 1);
    }
  }

  lemma BlindWithin(t: Table, s: int, blind: nat)
    requires Within(t) && forall x :: x in t.players ==> t.players[x].chips >= 0
    ensures Within(PostBlind(t, s, blind))
    ensures forall x :: x in PostBlind(t, s, blind).players ==> PostBlind(t, s, blind).players[x].chips >= 0
  {}

  lemma BlindsWithin(t: Table)
    requires Within(t) && forall x :: x in t.players ==> t.players[x].chips >= 0
    ensures Within(PostBlinds(t))
  {
    hide PostBlind, Within, NextSeatFrom;
    var sb := NextSeatFrom(t.seats, t.dealer);
    var bb := NextSeatFrom(t.seats, sb);
    BlindWithin(t, sb, SMALL_BLIND);
    var u := PostBlind(t, sb, SMALL_BLIND);
    BlindWithin(u, bb, BIG_BLIND);
    var v := PostBlind(u, bb, BIG_BLIND);
    BlindSeats(t, sb, SMALL_BLIND);
    SameWithin(v, PostBlinds(t));
  }

  lemma BlindSeats(t: Table, s: int, blind: int)
    ensures PostBlind(t, s, blind).seats == t.seats
  {}

  lemma DealtWithin(t: Table, shuffled: seq<Card>)
    requires SeatsOk(t) && ChipsOk(t)
    ensures var u := DealSeats(ClearTable(t, shuffled), |t.seats|);
      Within(u) && forall x :: x in u.players ==> u.players[x].chips >= 0
  {
    var t0 := ClearTable(t, shuffled);
    DealSeatsLimits(t0, |t.seats|);
    DealSeatsKeep(t0, |t.seats|);
    assert t.seats[..|t.seats|] == t.seats;
    hide DealSeats;
  }

  lemma OpenWithin(t: Table, shuffled: seq<Card>)
    requires SeatsOk(t) && ChipsOk(t)
    ensures Within(Open(t, shuffled)) && Open(t, shuffled).pot >= 0
  {
    var t1 := DealSeats(ClearTable(t, shuffled), |t.seats|);
    DealtWithin(t, shuffled);
    OpenKeeps(t, shuffled);
    hide DealSeats, PostBlinds, FirstAction, ResetPending, Contenders, Funded, Chips, Within, ClearTable;
    BlindsWithin(t1);
    FirstActionLimits(PostBlinds(t1));
    SameWithin(PostBlinds(t1), Open(t, shuffled));
  }

  lemma FirstActionLimits(t: Table)
    ensures var u := FirstAction(ResetPending(t));
      u.players == t.players && u.pot == t.pot && u.seats == t.seats && u.maxBet == t.maxBet && u.minRaise == t.minRaise
  {
    hide NextPendingSeat, NextSeatFrom, ActingSeats;
  }

  lemma StartWithin(t: Table, shuffled: seq<Card>)
    requires SeatsOk(t) && ChipsOk(t) && |t.seats| >= MIN_PLAYERS_TO_START
    ensures Running(StartHand(t, shuffled)) ==> Within(StartHand(t, shuffled))
  {
    OpenWithin(t, shuffled);
    StartIsOpen(t, shuffled);
    hide Open, StartHand, Within;
    SettleWithin(Open(t, shuffled));
  }

  lemma {:induction false} RunWithin(t: Table, actions: seq<(int, Action)>)
    requires HandOk(t) && 0 <= Worth(t) <= CHIP_LIMIT && (Running(t) ==> Within(t))
    ensures var u := Run(t, actions); HandOk(u) && Worth(u) == Worth(t) && (Running(u) ==> Within(u))
  {
    HandStaysOk(t, actions);
    AcceptedIsBounded(t, actions);
    hide HandOk, Act, Within, Worth, Accepts, AcceptedCount, FreeCount;
    if actions != [] {
      var before := Run(t, actions[..|actions| - 1]);
      var last := actions[|actions| - 1];
      RunWithin(t, actions[..|actions| - 1]);
      if Accepts(before, last.0, last.1) {
        AcceptsOnlyRunning(before, last.0, last.1);
        ActWithin(before, last.0, last.1);
      } else {
        ActStaysOver(before, last.0, last.1);
      }
    }
  }

  /** A table that can start a hand, with chips an int can hold. */
  ghost predicate Starts(t: Table) {
    SeatsOk(t) && ChipsOk(t) && |t.seats| >= MIN_PLAYERS_TO_START && Chips(t) <= CHIP_LIMIT
  }

  /**
    At every point of every hand: an accepted raise brings the hand forward, or ends it,
    exactly when its sum fits an int or everybody else who can act is pending anyway.
    */
  lemma RaiseDescendsIff(t: Table, shuffled: seq<Card>, actions: seq<(int, Action)>, s: int, a: Action)
    requires Starts(t) && Accepts(Run(StartHand(t, shuffled), actions), s, a) && a.Raise?
    ensures var u := Run(StartHand(t, shuffled), actions);
      && (FreeRaise(u, s, a) <==> Overflows(u, s, a))
      && ((Running(Act(u, s, a)) ==> Lower(Act(u, s, a), u)) <==> !Overflows(u, s, a) || u.pending == OthersActing(u, s))
  {
    StartReaches(t, shuffled, actions);
    hide StartHand, Run, HandOk, Within, Worth, Act, Accepts, Chips, ChipsOk, Overflows, FreeRaise, OthersActing, Lower;
    var u := Run(StartHand(t, shuffled), actions);
    AcceptsOnlyRunning(u, s, a);
    FreeIffOverflows(u, s, a);
    AcceptedActionDescends(u, s, a);
  }

  lemma StartReaches(t: Table, shuffled: seq<Card>, actions: seq<(int, Action)>)
    requires Starts(t)
    ensures var u := Run(StartHand(t, shuffled), actions);
      HandOk(u) && Worth(u) <= CHIP_LIMIT && (Running(u) ==> Within(u))
  {
    StartOk(t, shuffled);
    StartWorth(t, shuffled);
    StartWithin(t, shuffled);
    ChipsBounds(t.players, SEATS);
    hide StartHand, ChipsBelow, Worth, HandOk, Within;
    RunWithin(StartHand(t, shuffled), actions);
  }

  // ----- hands without overflow end -----

  /** No accepted raise of the run overflows. */
  ghost predicate SumsFit(t: Table, actions: seq<(int, Action)>) {
    actions == [] ||
    var before, last := Run(t, actions[..|actions| - 1]), actions[|actions| - 1];
    SumsFit(t, actions[..|actions| - 1]) && !(Accepts(before, last.0, last.1) && Overflows(before, last.0, last.1))
  }

  lemma {:induction false} NoneFree(t: Table, shuffled: seq<Card>, actions: seq<(int, Action)>)
    requires Starts(t) && SumsFit(StartHand(t, shuffled), actions)
    ensures FreeCount(StartHand(t, shuffled), actions) == 0
  {
    hide StartHand, HandOk, Within, Worth, Act, Accepts, Starts, Overflows, FreeRaise;
    if actions != [] {
      var init, last := actions[..|actions| - 1], actions[|actions| - 1];
      NoneFree(t, shuffled, init);
      var before := Run(StartHand(t, shuffled), init);
      if FreelyRaised(before, last.0, last.1) {
        FreeIsRaise(before, last.0, last.1);
        StartReaches(t, shuffled, init);
        AcceptsOnlyRunning(before, last.0, last.1);
        FreeIffOverflows(before, last.0, last.1);
      }
    }
  }

  lemma FreeIsRaise(t: Table, s: int, a: Action)
    requires FreeRaise(t, s, a)
    ensures a.Raise?
  {}

  /** As long as the sums fit, a hand accepts at most 55 * (chips + 1) actions. */
  lemma FittingHandsEnd(t: Table, shuffled: seq<Card>, actions: seq<(int, Action)>)
    requires Starts(t) && SumsFit(StartHand(t, shuffled), actions)
    ensures AcceptedCount(StartHand(t, shuffled), actions) <= 55 * (Chips(t) + 1)
  {
    NoneFree(t, shuffled, actions);
    EveryHandEnds(t, shuffled, actions);
  }

  // ----- a hand without end -----

  /** Three seats with a thousand chips each, before a hand. */
  function EvenTable(): Table {
    var p := Player(1000, 0, false, false, []);
    Table([0, 1, 2], map[0 := p, 1 := p, 2 := p], 0, -1, -1, 0, 0, 50, Waiting, [], [], {})
  }

  ghost predicate Sits(t: Table, s: int, chips: int, bet: int) {
    && s in t.players && t.players[s].chips == chips && t.players[s].bet == bet
    && !t.players[s].folded && !t.players[s].allIn
  }

  /** The blinds are posted by seats 1 and 2, and nobody else has put anything in. */
  ghost predicate BlindsOnly(t: Table) {
    && t.seats == [0, 1, 2] && t.players.Keys == {0, 1, 2} && t.dealer == 0
    && t.street == PreFlop && t.pot == 150 && t.maxBet == 100 && t.minRaise == 100
    && Sits(t, 0, 1000, 0) && Sits(t, 1, 950, 50) && Sits(t, 2, 900, 100)
  }

  lemma EvenIsSound()
    ensures Starts(EvenTable()) && Chips(EvenTable()) == 3000
  {
    var ps := EvenTable().players;
    assert ChipsBelow(ps, 1) == 1000;
    assert ChipsBelow(ps, 2) == 2000;
    assert ChipsBelow(ps, 3) == 3000;
    NoneBeyond(ps, 3, SEATS);
  }

  lemma {:induction false} NoneBeyond(ps: Players, m: nat, n: nat)
    requires m <= n && forall s :: s in ps ==> s < m
    ensures ChipsBelow(ps, n) == ChipsBelow(ps, m)
  {
    if n > m { NoneBeyond(ps, m, n - 1); }
  }

  lemma EvenDeal(t: Table)
    requires t.seats == [0, 1, 2] && t.players == EvenTable().players
    ensures var u := DealSeats(t, 3);
      u.players.Keys == {0, 1, 2} && Sits(u, 0, 1000, 0) && Sits(u, 1, 1000, 0) && Sits(u, 2, 1000, 0)
  {
    DealSeatsKeep(t, 3);
    var u := DealSeats(t, 3);
    hide DealSeats, DealtFrom, Sits;
    DealtSits(t, u, 0);
    DealtSits(t, u, 1);
    DealtSits(t, u, 2);
  }

  lemma DealtSits(t: Table, u: Table, s: int)
    requires t.seats == [0, 1, 2] && t.players == EvenTable().players && DealtFrom(t, u, 3) && 0 <= s < 3
    ensures Sits(u, s, 1000, 0)
  {
    assert t.seats[..3][s] == s;
  }

  lemma SeatsGoRound()
    ensures NextSeatFrom([0, 1, 2], 0) == 1 && NextSeatFrom([0, 1, 2], 1) == 2 && NextSeatFrom([0, 1, 2], 2) == 0
    ensures NextSeatFrom([0, 1, 2], -1) == 0
  {
    assert [0, 1, 2][1..] == [1, 2] && [1, 2][1..] == [2];
    assert IndexOf([0, 1, 2], 0) == 0 && IndexOf([0, 1, 2], 1) == 1;
    assert IndexOf([1, 2], 2) == 1;
    assert IndexOf([0, 1, 2], 2) == 2;
  }

  lemma EveryoneActs(t: Table)
    requires BlindsOnly(t)
    ensures ActingSeats(t) == {0, 1, 2}
  {
    assert 0 in t.seats && 1 in t.seats && 2 in t.seats;
    forall s ensures s in ActingSeats(t) <==> s in {0, 1, 2} {
    }
  }

  lemma NextIs(t: Table, current: int, next: int)
    requires t.seats == [0, 1, 2] && current in {0, 1, 2} && next == NextSeatFrom([0, 1, 2], current) && next in t.pending
    ensures NextPendingSeat(t, current) == next
  {}

  lemma EvenBlinds(t: Table)
    requires t.seats == [0, 1, 2] && t.players.Keys == {0, 1, 2} && t.dealer == 0 && t.street == PreFlop && t.pot == 0
    requires t.maxBet == 100 && t.minRaise == 100 && Sits(t, 0, 1000, 0) && Sits(t, 1, 1000, 0) && Sits(t, 2, 1000, 0)
    ensures BlindsOnly(PostBlinds(t)) && PostBlinds(t).turn == 0
  {
    SeatsGoRound();
    hide NextSeatFrom;
  }

  lemma EvenFirst(t: Table)
    requires BlindsOnly(t) && t.turn == 0
    ensures var u := FirstAction(ResetPending(t)); BlindsOnly(u) && u.turn == 1 && u.pending == {2}
  {
    EveryoneActs(t);
    SeatsGoRound();
    var r := t.(pending := {1, 2});
    NextIs(r, 0, 1);
    hide NextSeatFrom, NextPendingSeat, ActingSeats;
  }

  /** The first to act is the small blind, and only the big blind is pending. */
  lemma EvenStart(shuffled: seq<Card>)
    ensures var s := StartHand(EvenTable(), shuffled); BlindsOnly(s) && s.turn == 1 && s.pending == {2}
  {
    var t0 := ClearTable(EvenTable(), shuffled);
    SeatsGoRound();
    EvenDeal(t0);
    DealSeatsKeep(t0, 3);
    DealSeatsLimits(t0, 3);
    hide DealSeats, PostBlinds, FirstAction, ResetPending, BlindsOnly, NextSeatFrom;
    StartIsOpen(EvenTable(), shuffled);
    EvenBlinds(DealSeats(t0, 3));
    EvenFirst(PostBlinds(DealSeats(t0, 3)));
  }

  /** A raise by this much, rounded up to the unit, and any bet to call make a sum past INT_MAX. */
  const HUGE: int32 := INT_MAX - 57

  lemma HugeIsRounded(minRaise: int)
    requires minRaise == 100
    ensures NormalizeRaiseBy(HUGE, minRaise) == INT_MAX - 47
  {}

  /** A free raise of the seat on turn hands it to the next seat, everybody else being pending. */
  lemma RaiseForNothing(t: Table)
    requires BlindsOnly(t) && t.turn in {0, 1} && t.turn !in t.pending && t.pending <= {0, 1, 2}
    ensures var a, next := Raise(Some(HUGE)), NextSeatFrom([0, 1, 2], t.turn);
      && Accepts(t, t.turn, a) && Overflows(t, t.turn, a)
      && Act(t, t.turn, a) == t.(turn := next, pending := {0, 1, 2} - {t.turn} - {next})
  {
    RaiseIsFree(t);
    RaiseThenSettles(t);
    SeatsGoRound();
    hide Act, Accepts, Overflows, NextSeatFrom, Settle;
    SettleAsks(t.(pending := {0, 1, 2} - {t.turn}), NextSeatFrom([0, 1, 2], t.turn));
  }

  lemma RaiseThenSettles(t: Table)
    requires BlindsOnly(t) && t.turn in {0, 1}
    ensures Act(t, t.turn, Raise(Some(HUGE))) == Settle(t.(pending := {0, 1, 2} - {t.turn}))
  {
    RaiseIsFree(t);
    EveryoneActs(t);
    FreeRaiseReopens(t, t.turn, Raise(Some(HUGE)));
    hide Accepts, Overflows, FreeRaise, Apply, ActingSeats, Settle;
    var pending := {0, 1, 2} - {t.turn};
    assert pending - {t.turn} == pending;
  }

  lemma RaiseIsFree(t: Table)
    requires BlindsOnly(t) && t.turn in {0, 1}
    ensures var a := Raise(Some(HUGE)); Accepts(t, t.turn, a) && Overflows(t, t.turn, a) && FreeRaise(t, t.turn, a)
  {
    HugeIsRounded(t.minRaise);
    NeedIsZeroIff(t, t.turn, INT_MAX - 47);
    hide NormalizeRaiseBy, RaiseNeed;
  }

  lemma ThreeContend(t: Table)
    requires BlindsOnly(t)
    ensures |Contenders(t)| >= 2
  {
    assert 0 in t.seats && 1 in t.seats;
    ContendersArePlayers(t.seats, t.players);
    TwoContend(t.seats, t.players, 0, 1);
  }

  lemma SettleAsks(u: Table, next: int)
    requires BlindsOnly(u) && u.turn in {0, 1, 2} && next == NextSeatFrom([0, 1, 2], u.turn) && next in u.pending && next >= 0
    ensures Settle(u) == u.(turn := next, pending := u.pending - {next})
  {
    ThreeContend(u);
    NextIs(u, u.turn, next);
    hide Contenders, NextPendingSeat, NextSeatFrom, CloseStreet;
  }

  /** The big blind checks, and seat 0 is asked. */
  lemma BigBlindChecks(t: Table)
    requires BlindsOnly(t) && t.turn == 2 && t.pending == {0}
    ensures Accepts(t, 2, Check) && Act(t, 2, Check) == t.(turn := 0, pending := {})
  {
    SeatsGoRound();
    hide NextSeatFrom;
    assert Act(t, 2, Check) == Settle(t) by {
      hide Settle;
      assert t.pending - {2} == t.pending;
    }
    SettleAsks(t, 0);
  }

  /** The small blind raises, the big blind checks, seat 0 raises; n times. */
  function Rounds(n: nat): seq<(int, Action)> {
    if n == 0 then []
    else Rounds(n - 1) + [(1, Raise(Some(HUGE)))] + [(2, Check)] + [(0, Raise(Some(HUGE)))]
  }

  lemma RunOneMore(t: Table, actions: seq<(int, Action)>, last: (int, Action))
    ensures Run(t, actions + [last]) == Act(Run(t, actions), last.0, last.1)
    ensures AcceptedCount(t, actions + [last]) ==
            AcceptedCount(t, actions) + if Accepts(Run(t, actions), last.0, last.1) then 1 else 0
  {
    hide Act, Accepts;
    assert (actions + [last])[..|actions|] == actions;
  }

  /** After three accepted actions the table is what it was. */
  lemma OneRound(t: Table)
    requires BlindsOnly(t) && t.turn == 1 && t.pending == {2}
    ensures var a := Act(t, 1, Raise(Some(HUGE)));
      var b := Act(a, 2, Check);
      && Accepts(t, 1, Raise(Some(HUGE))) && Accepts(a, 2, Check) && Accepts(b, 0, Raise(Some(HUGE)))
      && Act(b, 0, Raise(Some(HUGE))) == t
  {
    SeatsGoRound();
    hide Act, Accepts, NextSeatFrom;
    RaiseForNothing(t);
    var a := t.(turn := 2, pending := {0});
    assert {0, 1, 2} - {1} - {2} == {0};
    BigBlindChecks(a);
    var b := a.(turn := 0, pending := {});
    RaiseForNothing(b);
    assert {0, 1, 2} - {0} - {1} == {2};
  }

  lemma {:induction false} RoundsGoOn(t: Table, n: nat)
    requires BlindsOnly(t) && t.turn == 1 && t.pending == {2}
    ensures Run(t, Rounds(n)) == t && AcceptedCount(t, Rounds(n)) == 3 * n
  {
    hide BlindsOnly, Act, Accepts;
    if n > 0 {
      RoundsGoOn(t, n - 1);
      OneRound(t);
      var first := Rounds(n - 1) + [(1, Raise(Some(HUGE)))];
      RunOneMore(t, Rounds(n - 1), (1, Raise(Some(HUGE))));
      RunOneMore(t, first, (2, Check));
      RunOneMore(t, first + [(2, Check)], (0, Raise(Some(HUGE))));
    }
  }

  /**
    For every shuffle and every n: three players with a thousand chips can make the gateway
    accept 3 * n actions before the flop, after which the table is what it was at the start.
    */
  lemma HandsWithoutEnd(shuffled: seq<Card>, n: nat)
    ensures Starts(EvenTable()) && Chips(EvenTable()) == 3000
    ensures var s := StartHand(EvenTable(), shuffled);
      s.street == PreFlop && Run(s, Rounds(n)) == s && AcceptedCount(s, Rounds(n)) == 3 * n
  {
    EvenIsSound();
    EvenStart(shuffled);
    hide StartHand, EvenTable;
    RoundsGoOn(StartHand(EvenTable(), shuffled), n);
  }
}
