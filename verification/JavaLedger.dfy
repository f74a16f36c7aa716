/**
  Chips at the gateway: what a hand is worth, chips and pot together, never changes, and the
  settlement hands out the whole pot whenever somebody is left to take it.
  */
module JavaLedger {
  import opened Common
  import opened HoldemTypes
  import opened JavaRules

  function ChipsBelow(players: Players, n: nat): int {
    if n == 0 then 0 else ChipsBelow(players, n - 1) + if n - 1 in players then players[n - 1].chips else 0
  }

  function Chips(t: Table): int {
    ChipsBelow(t.players, SEATS)
  }

  /** Chips behind plus the pot; a pot that was paid out counts as chips only. */
  function Worth(t: Table): int {
    if t.street == HandOver && Contenders(t) != [] then Chips(t) else Chips(t) + t.pot
  }

  ghost predicate ChipsOk(t: Table) {
    t.pot >= 0 && forall s :: s in t.players ==> t.players[s].chips >= 0 && t.players[s].bet >= 0
  }

  ghost predicate SeatsOk(t: Table) {
    SeatList(t.seats) && forall s :: s in t.players ==> 0 <= s < SEATS
  }

  lemma {:induction false} ChipsUpdate(players: Players, s: int, p: Player, n: nat)
    requires s in players
    ensures ChipsBelow(players[s := p], n) ==
            ChipsBelow(players, n) + if 0 <= s < n then p.chips - players[s].chips else 0
  {
    if n > 0 {
      ChipsUpdate(players, s, p, n - 1);
    }
  }

  lemma {:induction false} ChipsSame(a: Players, b: Players, n: nat)
    requires a.Keys == b.Keys && forall s :: s in a ==> a[s].chips == b[s].chips
    ensures ChipsBelow(a, n) == ChipsBelow(b, n)
  {
    if n > 0 {
      ChipsSame(a, b, n - 1);
    }
  }

  /** The contenders depend only on who is folded. */
  lemma {:induction false} ContendersSame(seats: seq<int>, a: Players, b: Players)
    requires a.Keys == b.Keys && forall s :: s in a ==> a[s].folded == b[s].folded
    ensures ContendersOf(seats, a) == ContendersOf(seats, b)
  {
    if seats != [] {
      ContendersSame(seats[1..], a, b);
    }
  }

  // ----- payouts -----

  lemma {:induction false} PayWinnersTotal(players: Players, winners: seq<int>, share: int, rem: int, n: nat)
    requires n <= |winners| && forall s :: s in winners ==> s in players && 0 <= s < SEATS
    ensures ChipsBelow(PayWinners(players, winners, share, rem, n), SEATS) ==
            ChipsBelow(players, SEATS) + n * share + if n > 0 then rem else 0
  {
    if n > 0 {
      PayWinnersTotal(players, winners, share, rem, n - 1);
      var before := PayWinners(players, winners, share, rem, n - 1);
      var s := winners[n - 1];
      var p := before[s].(chips := before[s].chips + share + if n == 1 then rem else 0);
      ChipsUpdate(before, s, p, SEATS);
      assert (n - 1) * share + share == n * share;
    }
  }

  lemma {:induction false} PayWinnersKeepsRest(players: Players, winners: seq<int>, share: int, rem: int, n: nat)
    requires n <= |winners| && forall s :: s in winners ==> s in players
    ensures forall s :: s in players ==>
      && PayWinners(players, winners, share, rem, n)[s].folded == players[s].folded
      && PayWinners(players, winners, share, rem, n)[s].bet == players[s].bet
      && (share >= 0 && rem >= 0 ==> PayWinners(players, winners, share, rem, n)[s].chips >= players[s].chips)
  {
    if n > 0 {
      PayWinnersKeepsRest(players, winners, share, rem, n - 1);
    }
  }

  /** The winners between them receive the pot, odd chips included. */
  lemma PotPaidInFull(players: Players, winners: seq<int>, pot: int)
    requires winners != [] && forall s :: s in winners ==> s in players && 0 <= s < SEATS
    ensures ChipsBelow(Settled(players, winners, pot), SEATS) == ChipsBelow(players, SEATS) + pot
  {
    PayWinnersTotal(players, winners, pot / |winners|, pot % |winners|, |winners|);
    assert |winners| * (pot / |winners|) + pot % |winners| == pot;
  }

  lemma {:induction false} TopIsAttained(t: Table, seats: seq<int>)
    requires seats != [] && forall s :: s in seats ==> s in t.players
    ensures forall s :: s in seats ==> SeatStrength(t, s) <= TopStrength(t, seats)
    ensures exists s :: s in seats && SeatStrength(t, s) == TopStrength(t, seats)
  {
    hide SeatStrength, Max;
    var init, last := seats[..|seats| - 1], seats[|seats| - 1];
    assert last in seats;
    if |seats| > 1 {
      TopIsAttained(t, init);
      TopStep(t, seats);
      var s :| s in init && SeatStrength(t, s) == TopStrength(t, init);
      assert s in seats;
      hide TopStrength;
      forall s | s in seats
        ensures SeatStrength(t, s) <= TopStrength(t, seats)
      {
        assert s in init || s == last;
      }
    }
  }

  lemma TopStep(t: Table, seats: seq<int>)
    requires |seats| > 1 && forall s :: s in seats ==> s in t.players
    ensures var top, rest, last := TopStrength(t, seats), TopStrength(t, seats[..|seats| - 1]), SeatStrength(t, seats[|seats| - 1]);
      rest <= top && last <= top && (top == rest || top == last)
  {
    hide SeatStrength;
  }

  /** Somebody wins exactly when somebody is left. */
  lemma SomebodyWins(t: Table, contenders: seq<int>)
    requires forall s :: s in contenders ==> s in t.players
    ensures Winners(t, contenders) == [] <==> contenders == []
  {
    if |contenders| > 1 {
      TopIsAttained(t, contenders);
      hide TopStrength, SeatStrength;
      StrengthSubset(t, contenders, TopStrength(t, contenders));
    }
  }

  lemma FinishWorth(t: Table)
    requires SeatsOk(t) && t.street != HandOver
    ensures FinishHand(t).street == HandOver && Worth(FinishHand(t)) == Worth(t)
    ensures Contenders(FinishHand(t)) == Contenders(t) && FinishHand(t).pot == t.pot
    ensures ChipsOk(t) ==> ChipsOk(FinishHand(t))
  {
    var c := Contenders(t);
    ContendersArePlayers(t.seats, t.players);
    WinnersArePlayers(t, c);
    SomebodyWins(t, c);
    hide Winners;
    var w := Winners(t, c);
    FinishPlayers(t, w);
  }

  lemma FinishPlayers(t: Table, w: seq<int>)
    requires SeatsOk(t) && forall s :: s in w ==> s in t.players && s in t.seats
    ensures ChipsBelow(Settled(t.players, w, t.pot), SEATS) == Chips(t) + if w == [] then 0 else t.pot
    ensures ContendersOf(t.seats, Settled(t.players, w, t.pot)) == Contenders(t)
    ensures ChipsOk(t) ==> ChipsOk(t.(players := Settled(t.players, w, t.pot)))
  {
    var r := Settled(t.players, w, t.pot);
    if w != [] {
      PayWinnersKeepsRest(t.players, w, t.pot / |w|, t.pot % |w|, |w|);
      PotPaidInFull(t.players, w, t.pot);
      hide PayWinners;
      ContendersSame(t.seats, r, t.players);
    }
  }

  // ----- one street -----

  lemma EndStreetWorth(t: Table)
    ensures Chips(EndStreet(t)) == Chips(t) && Contenders(EndStreet(t)) == Contenders(t)
    ensures ChipsOk(t) ==> ChipsOk(EndStreet(t))
    ensures EndStreet(t).pot == t.pot && EndStreet(t).street == t.street && EndStreet(t).seats == t.seats
    ensures EndStreet(t).players.Keys == t.players.Keys
  {
    ChipsSame(ClearBets(t), t.players, SEATS);
    ContendersSame(t.seats, ClearBets(t), t.players);
  }

  lemma NextStreetWorth(t: Table)
    requires StreetsLeft(t.street) > 1
    ensures NextStreet(t).players == t.players && NextStreet(t).pot == t.pot && NextStreet(t).seats == t.seats
    ensures NextStreet(t).street != HandOver && NextStreet(t).street != Waiting
  {
    hide DealStreet, NextPendingSeat, NextSeatFrom;
    DealStreetKeeps(t);
  }

  ghost predicate SettleKeeps(t: Table, u: Table) {
    && Worth(u) == Worth(t) && Contenders(u) == Contenders(t) && u.seats == t.seats
    && u.players.Keys == t.players.Keys && u.pot == t.pot
    && (ChipsOk(t) ==> ChipsOk(u))
    && (u.street != HandOver ==> |Contenders(u)| > 1)
  }

  /** The whole of settleStreetOrAdvanceTurn, runout included, keeps the worth. */
  lemma {:induction false} SettleWorth(t: Table)
    requires SeatsOk(t) && t.street != HandOver
    ensures SettleKeeps(t, Settle(t))
    decreases StreetsLeft(t.street), 1
  {
    hide FinishHand, CloseStreet, NextPendingSeat, Contenders;
    if |Contenders(t)| <= 1 {
      FinishWorth(t);
      FinishFrame(t);
    } else if t.pending != {} && NextPendingSeat(t, t.turn) >= 0 {
      SamePlayers(t, GiveTurn(t, NextPendingSeat(t, t.turn)));
    } else {
      CloseWorth(t);
    }
  }

  lemma {:induction false} CloseWorth(t: Table)
    requires SeatsOk(t) && t.street != HandOver && |Contenders(t)| > 1
    ensures SettleKeeps(t, CloseStreet(t))
    decreases StreetsLeft(t.street), 0
  {
    hide FinishHand, EndStreet, NextStreet, Contenders, Settle;
    var t1 := EndStreet(t);
    EndStreetWorth(t);
    if StreetsLeft(t1.street) <= 1 {
      FinishWorth(t1);
      FinishFrame(t1);
    } else {
      NextStreetAdvances(t1);
      NextStreetWorth(t1);
      var t2 := NextStreet(t1);
      SamePlayers(t1, t2);
      if t2.turn < 0 {
        SettleWorth(t2);
      }
    }
  }

  lemma SamePlayers(a: Table, b: Table)
    requires a.players == b.players && a.seats == b.seats
    ensures Contenders(a) == Contenders(b)
  {}

  lemma FinishFrame(t: Table)
    ensures FinishHand(t).seats == t.seats && FinishHand(t).players.Keys == t.players.Keys
  {
    ContendersArePlayers(t.seats, t.players);
    WinnersArePlayers(t, Contenders(t));
    hide Winners;
  }

  // ----- actions -----

  /** A betting step: chips may move to the pot, nobody folds or leaves. */
  ghost predicate BetKeeps(t: Table, u: Table) {
    && Chips(u) + u.pot == Chips(t) + t.pot && u.pot >= t.pot
    && u.street == t.street && u.seats == t.seats && u.players.Keys == t.players.Keys
    && (forall s :: s in t.players ==> u.players[s].folded == t.players[s].folded)
    && (ChipsOk(t) ==> ChipsOk(u))
  }

  lemma PayKeeps(t: Table, s: int, paid: int)
    requires s in t.players && 0 <= s < SEATS && 0 <= paid <= t.players[s].chips
    ensures BetKeeps(t, Pay(t, s, paid))
  {
    var p := t.players[s];
    ChipsUpdate(t.players, s, p.(chips := p.chips - paid, bet := p.bet + paid), SEATS);
  }

  lemma MarkKeeps(t: Table, s: int)
    requires s in t.players
    ensures BetKeeps(t, MarkAllIn(t, s))
  {
    ChipsUpdate(t.players, s, t.players[s].(allIn := true), SEATS);
  }

  lemma KeepsTrans(t: Table, u: Table, v: Table)
    requires BetKeeps(t, u) && BetKeeps(u, v)
    ensures BetKeeps(t, v)
  {
    hide Chips, ChipsOk;
  }

  lemma SameBooksKeep(t: Table, u: Table)
    requires u.players == t.players && u.pot == t.pot && u.street == t.street && u.seats == t.seats
    ensures BetKeeps(t, u)
  {}

  lemma GoAllInKeeps(t: Table, s: int)
    requires s in t.players && 0 <= s < SEATS && t.players[s].chips >= 0
    ensures BetKeeps(t, GoAllIn(t, s))
  {
    hide BetKeeps, Lift, Reopen;
    var paid := Pay(t, s, t.players[s].chips);
    PayKeeps(t, s, t.players[s].chips);
    MarkKeeps(paid, s);
    var t1 := MarkAllIn(paid, s);
    KeepsTrans(t, paid, t1);
    LiftSame(t1, s);
    SameBooksKeep(t1, Reopen(Lift(t1, s), s));
    KeepsTrans(t, t1, Reopen(Lift(t1, s), s));
  }

  lemma LiftSame(t: Table, s: int)
    requires s in t.players
    ensures var u := Reopen(Lift(t, s), s);
      u.players == t.players && u.pot == t.pot && u.street == t.street && u.seats == t.seats
  {}

  lemma RaiseKeeps(t: Table, s: int, raiseBy: int)
    requires s in t.players && 0 <= s < SEATS && t.players[s].chips >= 0
    ensures BetKeeps(t, DoRaise(t, s, raiseBy))
  {
    hide BetKeeps, Lift, Reopen, GoAllIn, Signed;
    var need := RaiseNeed(t, s, raiseBy);
    if need >= t.players[s].chips {
      GoAllInKeeps(t, s);
    } else {
      var paid := Pay(t, s, need);
      PayKeeps(t, s, need);
      LiftSame(paid, s);
      SameBooksKeep(paid, Reopen(Lift(paid, s), s));
      KeepsTrans(t, paid, Reopen(Lift(paid, s), s));
    }
  }

  lemma CallKeeps(t: Table, s: int)
    requires s in t.players && 0 <= s < SEATS && t.players[s].chips >= 0
    ensures BetKeeps(t, DoCall(t, s))
  {
    if CallNeed(t, s) <= 0 {
      SameBooksKeep(t, t);
    } else {
      var amount := Min(CallNeed(t, s), t.players[s].chips);
      PayKeeps(t, s, amount);
      var paid := Pay(t, s, amount);
      MarkKeeps(paid, s);
      KeepsTrans(t, paid, MarkAllIn(paid, s));
    }
  }

  lemma FoldKeeps(t: Table, s: int)
    requires s in t.players
    ensures var u := Apply(t, s, Fold);
      Chips(u) == Chips(t) && u.pot == t.pot && u.street == t.street && (ChipsOk(t) ==> ChipsOk(u))
  {
    ChipsUpdate(t.players, s, t.players[s].(folded := true), SEATS);
  }

  /** An action that is not a fold is a betting step. */
  lemma BettingKeeps(t: Table, s: int, a: Action)
    requires s in t.players && 0 <= s < SEATS && t.players[s].chips >= 0 && a != Fold
    ensures BetKeeps(t, Apply(t, s, a))
  {
    hide BetKeeps, DoRaise, GoAllIn, DoCall, RaiseBy;
    match a
    case AllIn => GoAllInKeeps(t, s);
    case Raise(amount) => RaiseKeeps(t, s, RaiseBy(t, amount));
    case _ => CallKeeps(t, s);
  }

  /** Folding takes at most one contender away. */
  lemma {:induction false} FoldLosesOne(seats: seq<int>, players: Players, s: int)
    requires s in players && forall i, j :: 0 <= i < j < |seats| ==> seats[i] < seats[j]
    ensures |ContendersOf(seats, players[s := players[s].(folded := true)])| >= |ContendersOf(seats, players)| - 1
  {
    if seats != [] {
      if seats[0] == s {
        assert forall i :: 0 <= i < |seats[1..]| ==> seats[1..][i] != s;
        OthersSame(seats[1..], players, s);
      } else {
        FoldLosesOne(seats[1..], players, s);
      }
    }
  }

  lemma {:induction false} OthersSame(seats: seq<int>, players: Players, s: int)
    requires s in players && forall i :: 0 <= i < |seats| ==> seats[i] != s
    ensures ContendersOf(seats, players[s := players[s].(folded := true)]) == ContendersOf(seats, players)
  {
    if seats != [] {
      OthersSame(seats[1..], players, s);
    }
  }

  /** Every action, accepted or rejected, keeps what the hand is worth. */
  lemma ActionKeepsWorth(t: Table, s: int, a: Action)
    requires SeatsOk(t) && ChipsOk(t)
    ensures var u := Act(t, s, a);
      && Worth(u) == Worth(t) && ChipsOk(u) && SeatsOk(u) && u.seats == t.seats && u.players.Keys == t.players.Keys
      && |Contenders(u)| >= |Contenders(t)| - (if a == Fold then 1 else 0)
      && (Accepts(t, s, a) && u.street != HandOver ==> |Contenders(u)| > 1)
  {
    if Accepts(t, s, a) {
      var t1 := Apply(t, s, a);
      var t2 := t1.(pending := t1.pending - {s});
      if a == Fold {
        FoldKeeps(t, s);
        FoldLosesOne(t.seats, t.players, s);
      } else {
        BettingKeeps(t, s, a);
        ContendersSame(t.seats, t1.players, t.players);
      }
      hide Apply, Settle, Legal, ContendersOf;
      SettleWorth(t2);
    }
  }

  // ----- a new hand -----

  lemma BlindKeeps(t: Table, s: int, blind: nat)
    requires SeatsOk(t) && ChipsOk(t)
    ensures BetKeeps(t, PostBlind(t, s, blind)) && SeatsOk(PostBlind(t, s, blind))
  {
    if s in t.players && !t.players[s].folded {
      var pay := Min(t.players[s].chips, blind);
      PayKeeps(t, s, pay);
      var paid := Pay(t, s, pay);
      MarkKeeps(paid, s);
      KeepsTrans(t, paid, MarkAllIn(paid, s));
    } else {
      SameBooksKeep(t, t);
    }
  }

  lemma BlindsKeep(t: Table)
    requires SeatsOk(t) && ChipsOk(t)
    ensures BetKeeps(t, PostBlinds(t))
  {
    var sb := NextSeatFrom(t.seats, t.dealer);
    var bb := NextSeatFrom(t.seats, sb);
    hide PostBlind, BetKeeps, NextSeatFrom;
    var t1 := PostBlind(t, sb, SMALL_BLIND);
    BlindKeeps(t, sb, SMALL_BLIND);
    assert ChipsOk(t1) by {
      KeepsOk(t, t1);
    }
    var t2 := PostBlind(t1, bb, BIG_BLIND);
    BlindKeeps(t1, bb, BIG_BLIND);
    KeepsTrans(t, t1, t2);
    SameBooksKeep(t2, PostBlinds(t));
    KeepsTrans(t, t2, PostBlinds(t));
  }

  lemma KeepsOk(t: Table, u: Table)
    requires BetKeeps(t, u) && ChipsOk(t)
    ensures ChipsOk(u)
  {}

  /** Dealing moves no chips, and folds exactly the seats without chips. */
  ghost predicate DealtFrom(t: Table, u: Table, n: nat)
    requires n <= |t.seats|
  {
    && u.seats == t.seats && u.pot == t.pot && u.street == t.street && u.dealer == t.dealer && u.maxBet == t.maxBet
    && u.players.Keys == t.players.Keys
    && (forall s :: s in t.players ==> u.players[s].chips == t.players[s].chips)
    && (forall s :: s in t.players && t.players[s].bet >= 0 ==> u.players[s].bet >= 0)
    && (forall s :: s in t.players && s in t.seats[..n] ==>
          u.players[s].folded == (t.players[s].chips <= 0) && u.players[s].bet == 0 && !u.players[s].allIn)
  }

  lemma DealSeatKeeps(t: Table, s: int)
    requires s in t.players
    ensures var u := DealSeat(t, s);
      && u.pot == t.pot && u.street == t.street && u.dealer == t.dealer && u.maxBet == t.maxBet
      && (forall x :: x in t.players && x != s ==> u.players[x] == t.players[x])
      && u.players[s].chips == t.players[s].chips && u.players[s].bet == 0
      && u.players[s].folded == (t.players[s].chips <= 0) && !u.players[s].allIn
  {
    hide FreshDeck;
  }

  lemma DealtOneMore(t: Table, u: Table, v: Table, n: nat)
    requires 0 < n <= |t.seats| && DealtFrom(t, u, n - 1)
    requires v == if t.seats[n - 1] in u.players then DealSeat(u, t.seats[n - 1]) else u
    ensures DealtFrom(t, v, n)
  {
    hide DealSeat;
    var s := t.seats[n - 1];
    assert t.seats[..n] == t.seats[..n - 1] + [s];
    if s in u.players {
      DealSeatKeeps(u, s);
    }
  }

  lemma {:induction false} DealSeatsKeep(t: Table, n: nat)
    requires n <= |t.seats|
    ensures DealtFrom(t, DealSeats(t, n), n)
  {
    if n > 0 {
      DealSeatsKeep(t, n - 1);
      hide DealSeat, DealtFrom;
      DealtOneMore(t, DealSeats(t, n - 1), DealSeats(t, n), n);
    }
  }

  /** The seated players with chips, in seat order. */
  function Funded(seats: seq<int>, players: Players): seq<int> {
    if seats == [] then []
    else (if seats[0] in players && players[seats[0]].chips > 0 then [seats[0]] else []) + Funded(seats[1..], players)
  }

  lemma {:induction false} FundedContend(seats: seq<int>, a: Players, b: Players)
    requires a.Keys == b.Keys
    requires forall s :: s in seats && s in a ==> b[s].folded == (a[s].chips <= 0)
    ensures ContendersOf(seats, b) == Funded(seats, a)
  {
    if seats != [] {
      var s := seats[0];
      assert s in seats && (s in a <==> s in a.Keys) && (s in b <==> s in b.Keys);
      assert s in a ==> b[s].folded == (a[s].chips <= 0);
      FundedContend(seats[1..], a, b);
    }
  }

  ghost predicate Opened(t: Table, u: Table) {
    && Chips(u) + u.pot == Chips(t) && u.street == PreFlop && u.seats == t.seats
    && u.players.Keys == t.players.Keys && ChipsOk(u)
    && Contenders(u) == Funded(t.seats, t.players)
  }

  /** The table when the blinds are posted and the first actor is chosen. */
  function Open(t: Table, shuffled: seq<Card>): Table {
    FirstAction(ResetPending(PostBlinds(DealSeats(ClearTable(t, shuffled), |t.seats|))))
  }

  lemma DealtKeeps(t: Table, shuffled: seq<Card>)
    requires SeatsOk(t) && ChipsOk(t)
    ensures var u := DealSeats(ClearTable(t, shuffled), |t.seats|);
      Opened(t, u) && u.pot == 0
  {
    hide DealSeats;
    var t0 := ClearTable(t, shuffled);
    var u := DealSeats(t0, |t.seats|);
    DealSeatsKeep(t0, |t.seats|);
    assert t.seats[..|t.seats|] == t.seats;
    ChipsSame(u.players, t.players, SEATS);
    FundedContend(t.seats, t.players, u.players);
  }

  lemma BetOpens(t: Table, u: Table, v: Table)
    requires Opened(t, u) && BetKeeps(u, v)
    ensures Opened(t, v)
  {
    ContendersSame(u.seats, v.players, u.players);
    hide ContendersOf, Funded, ChipsBelow;
  }

  lemma FirstActionSame(t: Table)
    ensures var u := FirstAction(ResetPending(t));
      u.players == t.players && u.pot == t.pot && u.street == t.street && u.seats == t.seats
  {
    hide NextPendingSeat, NextSeatFrom, ActingSeats;
  }

  lemma OpenKeeps(t: Table, shuffled: seq<Card>)
    requires SeatsOk(t) && ChipsOk(t)
    ensures Opened(t, Open(t, shuffled))
  {
    hide DealSeats, PostBlinds, FirstAction, ResetPending;
    var t1 := DealSeats(ClearTable(t, shuffled), |t.seats|);
    DealtKeeps(t, shuffled);
    BlindsKeep(t1);
    var t2 := PostBlinds(t1);
    FirstActionSame(t2);
    SameBooksKeep(t2, Open(t, shuffled));
    KeepsTrans(t1, t2, Open(t, shuffled));
    hide BetKeeps, Opened, Open;
    BetOpens(t, t1, FirstAction(ResetPending(t2)));
    OpenIs(t, shuffled);
  }

  lemma OpenIs(t: Table, shuffled: seq<Card>)
    ensures Open(t, shuffled) == FirstAction(ResetPending(PostBlinds(DealSeats(ClearTable(t, shuffled), |t.seats|))))
  {
    hide DealSeats, PostBlinds, FirstAction, ResetPending;
  }

  /** A hand starts worth the chips on the table, even when it is over before anyone acts. */
  lemma StartWorth(t: Table, shuffled: seq<Card>)
    requires SeatsOk(t) && ChipsOk(t) && |t.seats| >= MIN_PLAYERS_TO_START
    ensures var u := StartHand(t, shuffled);
      && Worth(u) == Chips(t) && SeatsOk(u) && ChipsOk(u) && Contenders(u) == Funded(t.seats, t.players)
  {
    OpenKeeps(t, shuffled);
    var t2 := Open(t, shuffled);
    hide Open, FirstAction, ResetPending, PostBlinds, DealSeats, ClearTable;
    if t2.turn < 0 {
      SettleWorth(t2);
    }
  }

  // ----- whole hands -----

  /** Over any run of actions the hand is worth the chips it started with. */
  lemma {:induction false} HandWorth(t: Table, shuffled: seq<Card>, actions: seq<(int, Action)>)
    requires SeatsOk(t) && ChipsOk(t) && |t.seats| >= MIN_PLAYERS_TO_START
    ensures var u := Run(StartHand(t, shuffled), actions);
      Worth(u) == Chips(t) && SeatsOk(u) && ChipsOk(u)
  {
    hide StartHand, Act;
    if actions == [] {
      StartWorth(t, shuffled);
    } else {
      HandWorth(t, shuffled, actions[..|actions| - 1]);
      var last := actions[|actions| - 1];
      ActionKeepsWorth(Run(StartHand(t, shuffled), actions[..|actions| - 1]), last.0, last.1);
    }
  }

  /**
    When the hand is over, the chips on the table are those it started with exactly when
    somebody is left to take the pot, or there was no pot.
    */
  lemma FinishedHandConserves(t: Table, shuffled: seq<Card>, actions: seq<(int, Action)>)
    requires SeatsOk(t) && ChipsOk(t) && |t.seats| >= MIN_PLAYERS_TO_START
    requires Run(StartHand(t, shuffled), actions).street == HandOver
    ensures var u := Run(StartHand(t, shuffled), actions);
      Chips(u) == Chips(t) <==> Contenders(u) != [] || u.pot == 0
  {
    HandWorth(t, shuffled, actions);
    hide StartHand, Run, Chips, Contenders, ChipsOk;
  }

  lemma StartEnough(t: Table, shuffled: seq<Card>)
    requires SeatsOk(t) && ChipsOk(t) && |t.seats| >= MIN_PLAYERS_TO_START && |Funded(t.seats, t.players)| >= 2
    ensures Enough(StartHand(t, shuffled))
  {
    StartWorth(t, shuffled);
    hide StartHand, Funded, Contenders;
  }

  /** Somebody is left; while the hand runs, at least two are. */
  ghost predicate Enough(t: Table) {
    |Contenders(t)| >= if t.street == HandOver then 1 else 2
  }

  lemma {:induction false} SomebodyIsLeft(t: Table, shuffled: seq<Card>, actions: seq<(int, Action)>)
    requires SeatsOk(t) && ChipsOk(t) && |t.seats| >= MIN_PLAYERS_TO_START && |Funded(t.seats, t.players)| >= 2
    ensures Enough(Run(StartHand(t, shuffled), actions))
  {
    hide StartHand, Act, Contenders, ChipsOk, SeatsOk, Funded;
    if actions == [] {
      StartEnough(t, shuffled);
    } else {
      var before := Run(StartHand(t, shuffled), actions[..|actions| - 1]);
      var last := actions[|actions| - 1];
      SomebodyIsLeft(t, shuffled, actions[..|actions| - 1]);
      HandWorth(t, shuffled, actions[..|actions| - 1]);
      ActionKeepsWorth(before, last.0, last.1);
      ActStaysOver(before, last.0, last.1);
    }
  }

  lemma ActStaysOver(t: Table, s: int, a: Action)
    ensures !Accepts(t, s, a) ==> Act(t, s, a) == t
    ensures t.street == HandOver ==> !Accepts(t, s, a)
  {}

  /** With two funded players at the start no sequence of actions loses or makes a chip. */
  lemma TwoFundedPlayersConserve(t: Table, shuffled: seq<Card>, actions: seq<(int, Action)>)
    requires SeatsOk(t) && ChipsOk(t) && |t.seats| >= MIN_PLAYERS_TO_START && |Funded(t.seats, t.players)| >= 2
    requires Run(StartHand(t, shuffled), actions).street == HandOver
    ensures Chips(Run(StartHand(t, shuffled), actions)) == Chips(t)
  {
    SomebodyIsLeft(t, shuffled, actions);
    FinishedHandConserves(t, shuffled, actions);
  }
}
