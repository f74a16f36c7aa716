/**
  When a gateway hand can lose chips: exactly when a single funded seat is dealt in, has put
  a blind in the pot and is asked to act.  The start of a hand counts seats, not chips, and
  between hands a seat may be vacated without recounting who has chips left.
  */
module JavaLoss {
  import opened Common
  import opened HoldemTypes
  import opened JavaRules
  import opened JavaLedger
  import opened JavaProgress

  type Actions = seq<(int, Action)>

  /** The actions end the hand with other chips than it started with. */
  ghost predicate Loses(t: Table, shuffled: seq<Card>, actions: Actions) {
    var u := JavaRules.Run(StartHand(t, shuffled), actions);
    u.street == HandOver && Chips(u) != Chips(t)
  }

  /** One funded player, whose hand is running with a pot: checkable once the blinds are posted. */
  ghost predicate LoneBlind(t: Table, shuffled: seq<Card>) {
    && |Funded(t.seats, t.players)| == 1
    && StartHand(t, shuffled).street != HandOver
    && StartHand(t, shuffled).pot > 0
  }

  ghost predicate Startable(t: Table) {
    SeatsOk(t) && ChipsOk(t) && |t.seats| >= MIN_PLAYERS_TO_START
  }

  // ----- one contender left: any accepted action ends the hand -----

  /** With at most one contender the street settles at once. */
  lemma SettleAlone(t: Table)
    requires SeatsOk(t) && t.street != HandOver && |Contenders(t)| <= 1
    ensures Settle(t).street == HandOver && Settle(t).pot == t.pot && Contenders(Settle(t)) == Contenders(t)
  {
    FinishWorth(t);
    hide FinishHand, Contenders;
    assert Settle(t) == FinishHand(t);
  }

  lemma OnlyFoldKeepsPot(t: Table, s: int, a: Action)
    requires s in t.players && Legal(t, s, a)
    ensures a == Fold ==> Apply(t, s, a).pot == t.pot
    ensures Apply(t, s, a).street == t.street && Apply(t, s, a).seats == t.seats
    ensures Apply(t, s, a).players.Keys == t.players.Keys
  {
    hide NormalizeRaiseBy, ActingSeats, RaiseNeed;
  }

  /** An accepted action ends the hand: a fold leaves the pot as it was, anything else the contender. */
  lemma AloneEnds(s: Table, seat: int, a: Action)
    requires SeatsOk(s) && ChipsOk(s) && Accepts(s, seat, a) && |Contenders(s)| <= 1
    ensures var u := Act(s, seat, a);
      && u.street == HandOver
      && (a == Fold ==> u.pot == s.pot)
      && (a != Fold ==> Contenders(u) == Contenders(s))
  {
    var t1 := Apply(s, seat, a);
    var t2 := t1.(pending := t1.pending - {seat});
    OnlyFoldKeepsPot(s, seat, a);
    if a == Fold {
      FoldTakesOut(s.seats, s.players, seat);
    } else {
      BettingKeeps(s, seat, a);
      ContendersSame(s.seats, t1.players, s.players);
    }
    hide Apply, ContendersOf, Settle, Legal, ChipsOk;
    SettleAlone(t2);
  }

  lemma {:induction false} FoldTakesOut(seats: seq<int>, players: Players, s: int)
    requires s in players
    ensures |ContendersOf(seats, players[s := players[s].(folded := true)])| <= |ContendersOf(seats, players)|
    ensures !players[s].folded && s in seats ==>
      |ContendersOf(seats, players[s := players[s].(folded := true)])| < |ContendersOf(seats, players)|
  {
    if seats != [] {
      assert seats == [seats[0]] + seats[1..];
      FoldTakesOut(seats[1..], players, s);
    }
  }

  // ----- the losing fold -----

  /** The sole contender holds the turn. */
  lemma TurnIsContender(s: Table)
    requires HandOk(s) && s.street != HandOver
    ensures s.turn in Contenders(s) && Accepts(s, s.turn, Fold)
  {
    ContendersArePlayers(s.seats, s.players);
  }

  lemma FoldEmpties(s: Table, seat: int)
    requires SeatsOk(s) && Accepts(s, seat, Fold) && |Contenders(s)| == 1 && seat in s.seats
    ensures Act(s, seat, Fold).street == HandOver && Contenders(Act(s, seat, Fold)) == []
    ensures Act(s, seat, Fold).pot == s.pot
  {
    var t1 := Apply(s, seat, Fold);
    var t2 := t1.(pending := t1.pending - {seat});
    FoldTakesOut(s.seats, s.players, seat);
    hide ContendersOf, Settle;
    SettleAlone(t2);
  }

  /** The lone player folds its blind away. */
  lemma LoneFoldLoses(t: Table, shuffled: seq<Card>)
    requires Startable(t) && LoneBlind(t, shuffled)
    ensures Loses(t, shuffled, [(StartHand(t, shuffled).turn, Fold)])
    ensures Chips(JavaRules.Run(StartHand(t, shuffled), [(StartHand(t, shuffled).turn, Fold)])) ==
            Chips(t) - StartHand(t, shuffled).pot
  {
    var s := StartHand(t, shuffled);
    StartOk(t, shuffled);
    StartWorth(t, shuffled);
    hide StartHand, Chips, ChipsOk, Funded, Act, Contenders;
    TurnIsContender(s);
    FoldEmpties(s, s.turn);
    ActionKeepsWorth(s, s.turn, Fold);
    OneAction(s, s.turn, Fold);
  }

  lemma OneAction(s: Table, seat: int, a: Action)
    ensures JavaRules.Run(s, [(seat, a)]) == Act(s, seat, a)
  {
    hide Act;
    assert [(seat, a)][..0] == [];
    assert JavaRules.Run(s, []) == s;
  }

  // ----- and nothing else loses -----

  /** Over a run from a started hand with at most one funded player. */
  ghost predicate AloneSoFar(s: Table, u: Table) {
    if u.street != HandOver then u == s
    else Contenders(u) != [] || u.pot == s.pot
  }

  lemma AloneStep(s: Table, u: Table, e: (int, Action))
    requires AloneSoFar(s, u) && |Contenders(s)| == 1 && SeatsOk(u) && ChipsOk(u)
    ensures AloneSoFar(s, Act(u, e.0, e.1))
  {
    ActStaysOver(u, e.0, e.1);
    hide Act, Contenders, ChipsOk, Accepts;
    if Accepts(u, e.0, e.1) {
      AloneEnds(u, e.0, e.1);
    }
  }

  lemma {:induction false} AloneRun(t: Table, shuffled: seq<Card>, actions: Actions)
    requires Startable(t) && |Funded(t.seats, t.players)| == 1
    ensures AloneSoFar(StartHand(t, shuffled), JavaRules.Run(StartHand(t, shuffled), actions))
  {
    var s := StartHand(t, shuffled);
    StartWorth(t, shuffled);
    hide StartHand, Act, Contenders, ChipsOk, Funded, Chips, AloneSoFar;
    if actions == [] {
      AloneAtStart(s);
    } else {
      var init, last := actions[..|actions| - 1], actions[|actions| - 1];
      AloneRun(t, shuffled, init);
      HandWorth(t, shuffled, init);
      AloneStep(s, JavaRules.Run(s, init), last);
    }
  }

  lemma AloneAtStart(s: Table)
    requires |Contenders(s)| == 1
    ensures AloneSoFar(s, s)
  {
    hide Contenders;
  }

  /** With nobody funded nothing is posted and the hand is over at once. */
  lemma NobodyFunded(t: Table, shuffled: seq<Card>)
    requires Startable(t) && Funded(t.seats, t.players) == []
    ensures StartHand(t, shuffled).street == HandOver && StartHand(t, shuffled).pot == 0
  {
    var u := Open(t, shuffled);
    OpenKeeps(t, shuffled);
    OpenOk(t, shuffled);
    NothingPosted(t, shuffled);
    StartIsOpen(t, shuffled);
    hide Open, StartHand, Funded, Chips, ChipsOk, PendingOk, BetsOk;
    if u.turn >= 0 {
      ContendersArePlayers(u.seats, u.players);
      assert false;
    } else {
      SettleAlone(u);
    }
  }

  lemma NothingPosted(t: Table, shuffled: seq<Card>)
    requires Startable(t) && Funded(t.seats, t.players) == []
    ensures Open(t, shuffled).pot == 0
  {
    var u := DealSeats(ClearTable(t, shuffled), |t.seats|);
    DealtKeeps(t, shuffled);
    ContendersArePlayers(t.seats, u.players);
    SeatsFollow(t.seats, u.dealer);
    SeatsFollow(t.seats, NextSeatFrom(t.seats, u.dealer));
    hide DealSeats, ClearTable, NextSeatFrom, FirstAction, ResetPending, Funded, Chips, ChipsOk, ContendersOf;
    assert forall s :: s in t.seats && s in u.players ==> u.players[s].folded;
    assert PostBlinds(u).pot == u.pot;
    FirstActionSame(PostBlinds(u));
    OpenIs(t, shuffled);
  }

  lemma SeatsFollow(seats: seq<int>, current: int)
    requires seats != []
    ensures NextSeatFrom(seats, current) in seats
  {
    hide IndexOf;
  }

  /**
    A gateway hand can lose chips, for some sequence of actions, exactly when one player is
    funded, the hand is running and there is a pot.
    */
  lemma LosesIffLoneBlind(t: Table, shuffled: seq<Card>)
    requires Startable(t)
    ensures (exists actions: Actions :: Loses(t, shuffled, actions)) <==> LoneBlind(t, shuffled)
  {
    if LoneBlind(t, shuffled) {
      LoneFoldLoses(t, shuffled);
    }
    if actions: Actions :| Loses(t, shuffled, actions) {
      LossNeedsLoneBlind(t, shuffled, actions);
    }
  }

  lemma LossNeedsLoneBlind(t: Table, shuffled: seq<Card>, actions: Actions)
    requires Startable(t) && Loses(t, shuffled, actions)
    ensures LoneBlind(t, shuffled)
  {
    var s := StartHand(t, shuffled);
    var u := JavaRules.Run(s, actions);
    FinishedHandConserves(t, shuffled, actions);
    StartWorth(t, shuffled);
    hide StartHand, Act, Contenders, ChipsOk, SeatsOk, Chips;
    if |Funded(t.seats, t.players)| >= 2 {
      TwoFundedPlayersConserve(t, shuffled, actions);
      assert false;
    } else if Funded(t.seats, t.players) == [] {
      NobodyFunded(t, shuffled);
      OverStays(s, actions);
      assert false;
    } else {
      AloneRun(t, shuffled, actions);
      HandWorth(t, shuffled, actions);
      OverStays(s, actions);
      StartPotOk(s);
    }
  }

  lemma {:induction false} OverStays(s: Table, actions: Actions)
    ensures s.street == HandOver ==> JavaRules.Run(s, actions) == s
  {
    if actions != [] {
      OverStays(s, actions[..|actions| - 1]);
      ActStaysOver(s, actions[|actions| - 1].0, actions[|actions| - 1].1);
      hide Act, Accepts;
    }
  }

  lemma StartPotOk(s: Table)
    requires ChipsOk(s)
    ensures s.pot >= 0
  {}

  // ----- the same, read off the table before the hand -----

  /** The funded player posts a blind it can afford and is not the seat after the big blind. */
  ghost predicate StartsLone(t: Table) {
    && |Funded(t.seats, t.players)| == 1
    && var c := Funded(t.seats, t.players)[0];
      var sb := NextSeatFrom(t.seats, NextSeatFrom(t.seats, t.dealer));
      var bb := NextSeatFrom(t.seats, sb);
      && c in t.players && c != NextSeatFrom(t.seats, bb)
      && ((c == sb && t.players[c].chips > SMALL_BLIND) || (c == bb && t.players[c].chips > BIG_BLIND))
  }

  /** The chips are more than the blind that c posts, if any. */
  predicate Covers(chips: int, c: int, sb: int, bb: int) {
    (c == sb ==> chips > SMALL_BLIND) && (c == bb ==> chips > BIG_BLIND)
  }

  /** c is the only seat dealt in. */
  ghost predicate OnlyDealtIn(u: Table, c: int) {
    && c in u.seats && c in u.players && !u.players[c].folded && !u.players[c].allIn && u.players[c].chips > 0
    && forall s :: s in u.seats && s in u.players && s != c ==> u.players[s].folded
  }

  lemma OneBlind(u: Table, c: int, s: int, blind: nat)
    requires OnlyDealtIn(u, c) && s in u.seats && blind > 0
    ensures s != c ==> PostBlind(u, s, blind) == u
    ensures s == c ==>
      var v := PostBlind(u, s, blind);
      && c in v.players && v == u.(players := u.players[c := v.players[c]], pot := u.pot + Min(u.players[c].chips, blind))
      && !v.players[c].folded && (CanAct(v, c) <==> u.players[c].chips > blind)
  {}

  /** What the blinds leave of a table with one seat dealt in. */
  lemma LoneBlinds(u: Table, c: int)
    requires OnlyDealtIn(u, c) && SeatList(u.seats) && |u.seats| >= 2 && u.pot == 0
    ensures var v := PostBlinds(u);
      var sb := NextSeatFrom(u.seats, u.dealer);
      var bb := NextSeatFrom(u.seats, sb);
      && v.seats == u.seats && v.street == u.street && v.turn == NextSeatFrom(u.seats, bb)
      && (v.pot > 0 <==> c == sb || c == bb)
      && ActingSeats(v) <= {c}
      && (c in ActingSeats(v) <==> Covers(u.players[c].chips, c, sb, bb))
  {
    var sb := NextSeatFrom(u.seats, u.dealer);
    var bb := NextSeatFrom(u.seats, sb);
    BlindSeatsDiffer(u.seats, u.dealer);
    SeatsFollow(u.seats, sb);
    hide NextSeatFrom, PostBlind;
    OneBlind(u, c, sb, SMALL_BLIND);
    var v := PostBlind(u, sb, SMALL_BLIND);
    if c == sb {
      FoldedPostsNothing(v, bb, BIG_BLIND);
    } else {
      OneBlind(u, c, bb, BIG_BLIND);
    }
  }

  lemma FoldedPostsNothing(t: Table, s: int, blind: nat)
    requires s in t.players ==> t.players[s].folded
    ensures PostBlind(t, s, blind) == t
  {}

  lemma OpenTurnIff(v: Table)
    requires SeatList(v.seats) && v.street == PreFlop
    ensures FirstAction(ResetPending(v)).turn >= 0 <==> ActingSeats(v) - {v.turn} != {}
    ensures FirstAction(ResetPending(v)).pot == v.pot
  {
    var r := ResetPending(v);
    assert PendingOk(r);
    FoundSeat(r, r.turn);
    hide NextPendingSeat, ActingSeats;
    if v.seats == [] {
      NobodySeated(v);
    }
  }

  lemma NobodySeated(v: Table)
    requires v.seats == []
    ensures ActingSeats(v) == {}
  {}

  lemma DealtIn(t: Table, shuffled: seq<Card>)
    requires Startable(t) && |Funded(t.seats, t.players)| == 1
    ensures var u, c := DealSeats(ClearTable(t, shuffled), |t.seats|), Funded(t.seats, t.players)[0];
      && OnlyDealtIn(u, c) && u.pot == 0 && u.seats == t.seats && u.street == PreFlop
      && u.dealer == NextSeatFrom(t.seats, t.dealer) && c in t.players && u.players[c].chips == t.players[c].chips
  {
    hide DealSeats, NextSeatFrom, Funded, Chips, ContendersOf;
    var t0 := ClearTable(t, shuffled);
    var u, c := DealSeats(t0, |t.seats|), Funded(t.seats, t.players)[0];
    DealSeatsKeep(t0, |t.seats|);
    assert t.seats[..|t.seats|] == t.seats;
    DealtKeeps(t, shuffled);
    SoleContender(u, c);
  }

  lemma SoleContender(u: Table, c: int)
    requires Contenders(u) == [c]
    ensures c in u.seats && c in u.players && !u.players[c].folded
    ensures forall s :: s in u.seats && s in u.players && s != c ==> u.players[s].folded
  {
    ContendersArePlayers(u.seats, u.players);
    hide ContendersOf;
    assert c in Contenders(u);
    forall s | s in u.seats && s in u.players && s != c ensures u.players[s].folded {
      assert s !in [c];
    }
  }

  lemma LiveIff(t: Table, shuffled: seq<Card>)
    requires Startable(t) && |Funded(t.seats, t.players)| == 1
    ensures StartHand(t, shuffled).street != HandOver <==> Open(t, shuffled).turn >= 0
    ensures StartHand(t, shuffled).pot == Open(t, shuffled).pot
  {
    var u := Open(t, shuffled);
    OpenKeeps(t, shuffled);
    OpenOk(t, shuffled);
    StartIsOpen(t, shuffled);
    hide Open, StartHand, Funded, Chips, ChipsOk, PendingOk, BetsOk, Contenders;
    if u.turn < 0 {
      SettleAlone(u);
    }
  }

  /** c plays the blind it posts, or none, and the turn would not pass over it. */
  ghost predicate PlaysOn(t: Table, c: int) {
    var sb := NextSeatFrom(t.seats, NextSeatFrom(t.seats, t.dealer));
    var bb := NextSeatFrom(t.seats, sb);
    c in t.players && c != NextSeatFrom(t.seats, bb) && Covers(t.players[c].chips, c, sb, bb)
  }

  /** The first turn of a table with one seat dealt in. */
  lemma LoneTurn(u: Table, c: int)
    requires OnlyDealtIn(u, c) && SeatList(u.seats) && |u.seats| >= 2 && u.pot == 0 && u.street == PreFlop
    ensures var w := FirstAction(ResetPending(PostBlinds(u)));
      var sb := NextSeatFrom(u.seats, u.dealer);
      var bb := NextSeatFrom(u.seats, sb);
      && (w.pot > 0 <==> c == sb || c == bb)
      && (w.turn >= 0 <==> c != NextSeatFrom(u.seats, bb) && Covers(u.players[c].chips, c, sb, bb))
  {
    hide PostBlinds, FirstAction, ResetPending, NextSeatFrom, ActingSeats, OnlyDealtIn;
    LoneBlinds(u, c);
    var v := PostBlinds(u);
    OpenTurnIff(v);
    assert ActingSeats(v) - {v.turn} == if c in ActingSeats(v) && c != v.turn then {c} else {};
  }

  lemma LoneOpens(t: Table, shuffled: seq<Card>)
    requires Startable(t) && |Funded(t.seats, t.players)| == 1
    ensures Open(t, shuffled).turn >= 0 <==> PlaysOn(t, Funded(t.seats, t.players)[0])
    ensures var c := Funded(t.seats, t.players)[0];
      var sb := NextSeatFrom(t.seats, NextSeatFrom(t.seats, t.dealer));
      Open(t, shuffled).pot > 0 <==> c == sb || c == NextSeatFrom(t.seats, sb)
  {
    hide Open, Funded, DealSeats, PostBlinds, FirstAction, ResetPending, NextSeatFrom, OnlyDealtIn, Chips, ChipsOk;
    var u, c := DealSeats(ClearTable(t, shuffled), |t.seats|), Funded(t.seats, t.players)[0];
    DealtIn(t, shuffled);
    hide ClearTable;
    LoneTurn(u, c);
    OpenIs(t, shuffled);
  }

  /** The condition, seen before the cards are shuffled. */
  lemma LoneBlindIff(t: Table, shuffled: seq<Card>)
    requires Startable(t)
    ensures LoneBlind(t, shuffled) <==> StartsLone(t)
  {
    hide Open, StartHand, Funded, NextSeatFrom, Chips, ChipsOk, SeatsOk;
    if |Funded(t.seats, t.players)| == 1 {
      LoneOpens(t, shuffled);
      LiveIff(t, shuffled);
      BlindsApart(t);
    }
  }

  lemma BlindsApart(t: Table)
    requires SeatsOk(t) && |t.seats| >= 2
    ensures var sb := NextSeatFrom(t.seats, NextSeatFrom(t.seats, t.dealer));
      NextSeatFrom(t.seats, sb) != sb
  {
    BlindSeatsDiffer(t.seats, NextSeatFrom(t.seats, t.dealer));
  }

  /** Whether the coming hand can lose chips, decided on the table before it starts. */
  lemma CanLoseIff(t: Table, shuffled: seq<Card>)
    requires Startable(t)
    ensures (exists actions: Actions :: Loses(t, shuffled, actions)) <==> StartsLone(t)
  {
    LosesIffLoneBlind(t, shuffled);
    LoneBlindIff(t, shuffled);
  }

  // ----- such a table -----

  /** Two seats are taken, but only one of them has chips. */
  function LonelyTable(): Table {
    Table([0, 1], map[0 := Player(1000, 0, false, false, []), 1 := Player(0, 0, false, false, [])],
      0, -1, -1, 0, 0, 50, Waiting, [], [], {})
  }

  lemma LonelyDeal(t: Table)
    requires t.seats == [0, 1] && t.players == LonelyTable().players && t.dealer == 0 && t.pot == 0
    requires t.street == PreFlop
    ensures var u := DealSeats(t, 2);
      && u.seats == [0, 1] && u.dealer == 0 && u.pot == 0 && u.street == PreFlop && u.players.Keys == {0, 1}
      && u.players[0].chips == 1000 && u.players[0].bet == 0 && !u.players[0].folded && !u.players[0].allIn
      && u.players[1].folded
  {
    hide DrawHole;
    var u1 := DealSeat(t, 0);
    DealSeatKeeps(t, 0);
    assert DealSeats(t, 1) == u1;
    DealSeatKeeps(u1, 1);
    hide DealSeat;
    assert DealSeats(t, 2) == DealSeat(u1, 1);
  }

  lemma LonelyBlinds(u: Table)
    requires u.seats == [0, 1] && u.dealer == 0 && u.pot == 0 && u.street == PreFlop && u.players.Keys == {0, 1}
    requires u.players[0].chips == 1000 && u.players[0].bet == 0 && !u.players[0].folded && !u.players[0].allIn
    requires u.players[1].folded
    ensures var v := FirstAction(ResetPending(PostBlinds(u)));
      && v.turn == 0 && v.pot == 100 && v.street == PreFlop && v.seats == [0, 1]
      && 0 in v.players && v.players[0].chips == 900 && !v.players[0].folded
  {
    assert IndexOf([0, 1], 0) == 0 && IndexOf([0, 1], 1) == 1;
    var v := PostBlinds(u);
    assert v.players[0].chips == 900 && v.turn == 1 && v.pot == 100;
    var w := ResetPending(v);
    assert ActingSeats(v) == {0};
    assert ScanPending(w.seats, w.pending, 1, SEATS + 1) == 0;
  }

  /** The lone player of that table folds the big blind to nobody. */
  lemma SoleContenderMayFold(shuffled: seq<Card>)
    ensures LoneBlind(LonelyTable(), shuffled)
    ensures var u := JavaRules.Run(StartHand(LonelyTable(), shuffled), [(0, Fold)]);
      u.street == HandOver && Chips(u) == Chips(LonelyTable()) - BIG_BLIND
  {
    hide StartHand, Act, Chips;
    LonelyStart(shuffled);
    LoneFoldLoses(LonelyTable(), shuffled);
  }

  lemma LonelyStart(shuffled: seq<Card>)
    ensures var s := StartHand(LonelyTable(), shuffled);
      && s.turn == 0 && s.street == PreFlop && s.pot == 100 && s.seats == [0, 1] && Contenders(s) == [0]
      && 0 in s.players && s.players[0].chips > 0 && !s.players[0].folded
      && Worth(s) == Chips(LonelyTable()) && SeatsOk(s) && ChipsOk(s)
  {
    hide StartHand, Open, Contenders, Funded, Worth, Chips, ChipsOk, SeatsOk, LonelyTable;
    LonelyIsSound();
    StartWorth(LonelyTable(), shuffled);
    StartIsOpen(LonelyTable(), shuffled);
    LonelyOpens(shuffled);
  }

  lemma LonelyIsSound()
    ensures var t := LonelyTable(); SeatsOk(t) && ChipsOk(t) && |t.seats| == 2 && Funded(t.seats, t.players) == [0]
  {
    assert [0, 1][1..] == [1] && [1][1..] == [];
  }

  lemma LonelyOpens(shuffled: seq<Card>)
    ensures var s := Open(LonelyTable(), shuffled);
      && s.turn == 0 && s.street == PreFlop && s.pot == 100 && s.seats == [0, 1]
      && 0 in s.players && s.players[0].chips > 0 && !s.players[0].folded
  {
    var t0 := ClearTable(LonelyTable(), shuffled);
    assert t0.dealer == 0;
    LonelyDeal(t0);
    hide ClearTable, DealSeats, FirstAction, ResetPending, PostBlinds;
    LonelyBlinds(DealSeats(t0, 2));
  }
}
