/**
  The chip ledger of a hand: every chip is in a stack or in the pot, bets stay within
  contributions, and settlement pays out exactly the claimed pots.
  */
module HandLedger {
  import opened Common
  import opened HoldemTypes
  import opened HoldemEvaluator
  import opened PotManager
  import opened Settlement
  import opened TableState
  import opened HandRules

  // ----- invariants -----

  /** Fixed for the whole hand. */
  ghost predicate Frame(t: Table) {
    && |t.seats| == SEATS && 0 <= t.dealer < SEATS
    && (forall i :: i in t.players ==> 0 <= i < SEATS)
  }

  ghost predicate StackOk(p: Player) {
    p.chips >= 0 && 0 <= p.currentBet <= p.contribution
  }

  /** Every stack is sound, and the pot is the sum of the contributions. */
  ghost predicate Ledger(t: Table) {
    && (forall i :: i in t.players ==> StackOk(t.players[i]))
    && t.pot == Total(t.players, Contribution, SEATS)
    && t.minRaise > 0
  }

  /** No bet is above the current maximum. */
  ghost predicate Capped(t: Table) {
    forall i :: i in t.players ==> t.players[i].currentBet <= t.currentMaxBet
  }

  /** All chips of a running hand. */
  ghost function Bank(t: Table): int { Total(t.players, Chips, SEATS) + t.pot }

  /** b is the same hand as a, later on. */
  ghost predicate SameHand(a: Table, b: Table) {
    && b.seats == a.seats && b.dealer == a.dealer && b.handNum == a.handNum && b.bigBlind == a.bigBlind
    && b.players.Keys == a.players.Keys
    && forall i :: i in a.players ==>
         && b.players[i].bankrupt == a.players[i].bankrupt
         && b.players[i].sitOutUntil == a.players[i].sitOutUntil
         && b.players[i].hand == a.players[i].hand
         && (a.players[i].folded ==> b.players[i].folded)
         && a.players[i].contribution <= b.players[i].contribution
  }

  // ----- place_bet -----

  ghost function PaidIn(t: Table, i: int, amount: int): int
    requires i in t.players
  {
    Max(0, Min(amount, t.players[i].chips))
  }

  lemma PlaceBetMovesChips(t: Table, i: int, amount: int)
    requires Frame(t) && i in t.players && t.players[i].chips >= 0
    ensures var t1 := PlaceBet(t, i, amount);
            && Frame(t1) && SameHand(t, t1)
            && Bank(t1) == Bank(t)
            && (t.pot == Total(t.players, Contribution, SEATS) ==> t1.pot == Total(t1.players, Contribution, SEATS))
  {
    if !t.players[i].folded && !t.players[i].bankrupt {
      var p1 := PlaceBet(t, i, amount).players[i];
      TotalUpdate(t.players, Chips, i, p1, SEATS);
      TotalUpdate(t.players, Contribution, i, p1, SEATS);
    }
  }

  /** Betting keeps the ledger, whatever becomes of the maximum. */
  lemma BetKeepsLedger(t: Table, i: int, amount: int, maxBet: int)
    requires Frame(t) && Ledger(t) && i in t.players
    requires !t.players[i].folded && !t.players[i].bankrupt
    ensures Ledger(PlaceBet(t, i, amount).(currentMaxBet := maxBet))
    ensures Bank(PlaceBet(t, i, amount).(currentMaxBet := maxBet)) == Bank(t)
  {
    PlaceBetMovesChips(t, i, amount);
  }

  // ----- actions -----

  lemma ActionKeepsLedger(t: Table, seat: int, a: Action)
    requires Frame(t) && Ledger(t) && seat in t.players
    requires !t.players[seat].folded && !t.players[seat].bankrupt && Legal(t, seat, a)
    ensures Frame(Apply(t, seat, a)) && Ledger(Apply(t, seat, a)) && SameHand(t, Apply(t, seat, a))
    ensures Bank(Apply(t, seat, a)) == Bank(t)
  {
    var p := t.players[seat];
    match a
    case Fold =>
      TotalSame(t.players, Apply(t, seat, a).players, Contribution, SEATS);
      TotalSame(t.players, Apply(t, seat, a).players, Chips, SEATS);
    case Check =>
    case Call =>
      CallKeepsLedger(t, seat);
    case Raise(raiseBy) =>
      RaiseKeepsLedger(t, seat, raiseBy);
    case AllIn =>
      AllInKeepsLedger(t, seat);
  }

  lemma CallKeepsLedger(t: Table, seat: int)
    requires Frame(t) && Ledger(t) && seat in t.players && !t.players[seat].folded && !t.players[seat].bankrupt
    ensures Frame(ApplyCall(t, seat)) && Ledger(ApplyCall(t, seat)) && SameHand(t, ApplyCall(t, seat))
    ensures Bank(ApplyCall(t, seat)) == Bank(t)
  {
    var call := CallAmount(t, seat);
    if call > 0 {
      var amount := Min(call, t.players[seat].chips);
      PlaceBetMovesChips(t, seat, amount);
      BetKeepsLedger(t, seat, amount, t.currentMaxBet);
    }
  }

  lemma RaiseKeepsLedger(t: Table, seat: int, raiseBy: int32)
    requires Frame(t) && Ledger(t) && seat in t.players && !t.players[seat].folded && !t.players[seat].bankrupt
    requires raiseBy >= t.minRaise
    ensures Frame(ApplyRaise(t, seat, raiseBy)) && Ledger(ApplyRaise(t, seat, raiseBy))
    ensures SameHand(t, ApplyRaise(t, seat, raiseBy)) && Bank(ApplyRaise(t, seat, raiseBy)) == Bank(t)
  {
    hide Signed;
    var amount := RaiseAmount(t, seat, raiseBy);
    PlaceBetMovesChips(t, seat, amount);
    BetKeepsLedger(t, seat, amount, t.currentMaxBet);
  }

  lemma AllInKeepsLedger(t: Table, seat: int)
    requires Frame(t) && Ledger(t) && seat in t.players && !t.players[seat].folded && !t.players[seat].bankrupt
    ensures Frame(ApplyAllIn(t, seat)) && Ledger(ApplyAllIn(t, seat)) && SameHand(t, ApplyAllIn(t, seat))
    ensures Bank(ApplyAllIn(t, seat)) == Bank(t)
  {
    var all := t.players[seat].chips;
    PlaceBetMovesChips(t, seat, all);
    BetKeepsLedger(t, seat, all, t.currentMaxBet);
  }

  // ----- raises whose sum does not fit an int -----

  /** What the raise comes to is more than an int holds. */
  ghost predicate Overflows(t: Table, seat: int, raiseBy: int32)
    requires seat in t.players
  {
    CallAmount(t, seat) + raiseBy > INT_MAX
  }

  /** A raise that puts nothing in. */
  ghost predicate FreeRaise(t: Table, seat: int, a: Action)
    requires seat in t.players
  {
    a.Raise? && RaiseAmount(t, seat, a.raiseBy) <= 0
  }

  /** The current maximum and the minimum raise as the engine can hold them. */
  ghost predicate LimitsFit(t: Table) {
    0 <= t.currentMaxBet <= INT_MAX && 0 < t.minRaise <= INT_MAX
  }

  /** A legal raise is free exactly when its sum overflows. */
  lemma FreeIffOverflows(t: Table, seat: int, raiseBy: int32)
    requires LimitsFit(t) && seat in t.players && t.players[seat].currentBet >= 0 && raiseBy >= t.minRaise
    ensures FreeRaise(t, seat, Raise(raiseBy)) <==> Overflows(t, seat, raiseBy)
  {
    hide Signed;
    SignedIs(CallAmount(t, seat) + raiseBy);
  }

  /** Only a seat facing a bet can raise for nothing. */
  lemma FreeRaiseFacesBet(t: Table, seat: int, raiseBy: int32)
    requires seat in t.players && raiseBy > 0 && FreeRaise(t, seat, Raise(raiseBy))
    ensures Overflows(t, seat, raiseBy) && CallAmount(t, seat) > 0
  {
    hide Signed;
    SignedIs(CallAmount(t, seat) + raiseBy);
  }

  /** A free raise moves no chips and makes the raiser's own bet the maximum. */
  lemma FreeRaiseEffect(t: Table, seat: int, a: Action)
    requires seat in t.players && FreeRaise(t, seat, a) && t.players[seat].chips >= 0
    ensures Apply(t, seat, a) ==
      t.(currentMaxBet := t.players[seat].currentBet, minRaise := a.raiseBy, pending := Actable(t) - {seat})
  {
    hide Signed, Actable;
    var t1 := PlaceBet(t, seat, RaiseAmount(t, seat, a.raiseBy));
    assert t1 == t by {
      assert t1.players == t.players;
    }
    ActableIgnoresLimits(t, t.(currentMaxBet := t.players[seat].currentBet, minRaise := a.raiseBy));
  }

  lemma ActableIgnoresLimits(a: Table, b: Table)
    requires b == a.(currentMaxBet := b.currentMaxBet, minRaise := b.minRaise)
    ensures Actable(b) == Actable(a)
  {
    forall i ensures i in Actable(a) <==> i in Actable(b) {
    }
  }

  /** The sum overflows, and somebody has bet more than the raiser. */
  ghost predicate LowersBelowBet(t: Table, seat: int, a: Action)
    requires seat in t.players
  {
    && a.Raise? && Overflows(t, seat, a.raiseBy)
    && exists j :: j in t.players && t.players[j].currentBet > t.players[seat].currentBet
  }

  /**
    The maximum stays at or above every bet through every legal action, unless it is a raise
    whose sum overflows while somebody has bet more than the raiser; and then it does not.
    */
  lemma ActionKeepsCap(t: Table, seat: int, a: Action)
    requires Ledger(t) && Capped(t) && LimitsFit(t) && seat in t.players
    requires !t.players[seat].folded && !t.players[seat].bankrupt && Legal(t, seat, a)
    ensures Capped(Apply(t, seat, a)) <==> !LowersBelowBet(t, seat, a)
  {
    if a.Raise? {
      hide Signed, Actable;
      SignedIs(CallAmount(t, seat) + a.raiseBy);
      FreeIffOverflows(t, seat, a.raiseBy);
      if Overflows(t, seat, a.raiseBy) {
        FreeRaiseEffect(t, seat, a);
      }
    }
  }

  // ----- the next street -----

  lemma ClearingBetsKeepsTotals(ps: Players, f: Field)
    requires f != Bet
    ensures Total(ClearBets(ps), f, SEATS) == Total(ps, f, SEATS)
  {
    TotalSame(ps, ClearBets(ps), f, SEATS);
  }

  /** The next street: bets cleared, the round moved on, cards from the deck to the board. */
  lemma NextStreetTouches(t: Table)
    ensures var u := NextStreet(t);
      && u == t.(players := ClearBets(t.players), currentMaxBet := 0, round := u.round, board := u.board, deck := u.deck)
      && (u.round == Showdown || StreetsLeft(u.round) > 0)
  {
    hide ClearBets;
    var t1 := t.(players := ClearBets(t.players), currentMaxBet := 0);
    DealCommunityKeepsRound(t1.(round := Flop), 3);
    DealCommunityKeepsRound(t1.(round := Turn), 1);
    DealCommunityKeepsRound(t1.(round := River), 1);
  }

  lemma NextStreetKeepsLedger(t: Table)
    requires Frame(t) && Ledger(t)
    ensures Frame(NextStreet(t)) && Ledger(NextStreet(t)) && SameHand(t, NextStreet(t))
    ensures Bank(NextStreet(t)) == Bank(t)
    ensures NextStreet(t).players == ClearBets(t.players) && Capped(NextStreet(t))
  {
    hide Total, NextStreet;
    ClearingBetsKeepsTotals(t.players, Chips);
    ClearingBetsKeepsTotals(t.players, Contribution);
    NextStreetTouches(t);
  }

  // ----- settlement -----

  lemma {:induction false} ContributorsHoldContributions(ps: Players, n: nat)
    requires forall i :: i in ps ==> ps[i].contribution >= 0
    ensures Contributed(ContributorsBelow(ps, n)) == Total(ps, Contribution, n)
  {
    if n > 0 {
      ContributorsHoldContributions(ps, n - 1);
      var init := ContributorsBelow(ps, n - 1);
      if n - 1 in ps && ps[n - 1].contribution > 0 {
        var c := PotContributor(n - 1, ps[n - 1].contribution, !ps[n - 1].folded);
        assert (init + [c])[..|init|] == init;
        assert Contributed(init + [c]) == Contributed(init) + c.committed;
      } else {
        assert init + [] == init;
      }
    }
  }

  lemma {:induction false} ContributorIsPlayer(ps: Players, n: nat, k: nat)
    requires k < |ContributorsBelow(ps, n)|
    ensures var c := ContributorsBelow(ps, n)[k];
            0 <= c.seat < n && c.seat in ps && c.committed == ps[c.seat].contribution > 0 && c.eligible == !ps[c.seat].folded
  {
    if k < |ContributorsBelow(ps, n - 1)| {
      ContributorIsPlayer(ps, n - 1, k);
    }
  }

  lemma {:induction false} ContributorListed(ps: Players, n: nat, i: int) returns (k: nat)
    requires 0 <= i < n && i in ps && ps[i].contribution > 0
    ensures k < |ContributorsBelow(ps, n)|
    ensures ContributorsBelow(ps, n)[k] == PotContributor(i, ps[i].contribution, !ps[i].folded)
  {
    if i == n - 1 {
      k := |ContributorsBelow(ps, n)| - 1;
    } else {
      k := ContributorListed(ps, n - 1, i);
    }
  }

  /** Chips do not enter into who contributed what. */
  lemma {:induction false} ContributorsIgnoreChips(a: Players, b: Players, n: nat)
    requires a.Keys == b.Keys
    requires forall i :: i in a ==> a[i].contribution == b[i].contribution && a[i].folded == b[i].folded
    ensures ContributorsBelow(a, n) == ContributorsBelow(b, n)
  {
    if n > 0 { ContributorsIgnoreChips(a, b, n - 1); }
  }

  lemma {:induction false} PaySoleTotal(ps: Players, x: int, amount: int, n: nat)
    requires x in ps
    ensures Total(PaySole(ps, {x}, amount), Chips, n) == Total(ps, Chips, n) + if 0 <= x < n then amount else 0
  {
    if n > 0 { PaySoleTotal(ps, x, amount, n - 1); }
  }

  lemma {:induction false} NotEvaluatedNotPaid(hands: Hands, dealer: int, pots: seq<Pot>, s: int)
    requires ValidHands(hands) && 0 <= dealer < SEATS && s !in hands
    ensures Payout(hands, dealer, pots, s) == 0
  {
    hide PotCredit, ValidHands;
    if pots != [] {
      var last := pots[|pots| - 1];
      NotEvaluatedNotPaid(hands, dealer, pots[..|pots| - 1], s);
      NotEvaluatedNoCredit(hands, dealer, last, s);
    }
  }

  lemma NotEvaluatedNoCredit(hands: Hands, dealer: int, pot: Pot, s: int)
    requires ValidHands(hands) && 0 <= dealer < SEATS && s !in hands
    ensures PotCredit(hands, dealer, pot, s) == 0
  {
    hide Clockwise, SplitCredit, Compare;
    var order := Clockwise(dealer, Winners(hands, pot.eligible), 1);
    OrderIsTheWinners(hands, dealer, pot);
    assert s !in order;
    if order != [] {
      NotInOrderNoCredit(order, pot.amount / |order|, pot.amount % |order|, s);
    }
  }

  lemma {:induction false} PayAllTotal(ps: Players, hands: Hands, dealer: int, pots: seq<Pot>, n: nat)
    requires ValidHands(hands) && 0 <= dealer < SEATS && hands.Keys <= ps.Keys
    ensures Total(PayAll(ps, hands, dealer, pots), Chips, n) == Total(ps, Chips, n) + PayoutTotal(hands, dealer, pots, n)
  {
    hide Payout, ValidHands;
    if n > 0 {
      PayAllTotal(ps, hands, dealer, pots, n - 1);
      if n - 1 !in ps {
        NotEvaluatedNotPaid(hands, dealer, pots, n - 1);
      }
    }
  }

  lemma HandsAreValid(t: Table)
    requires Frame(t)
    ensures ValidHands(ShowdownHands(t))
  {
    forall s | s in ShowdownHands(t) ensures 0 <= s < SEATS && Evaluated(ShowdownHands(t)[s]) {
      BestIsEvaluated(t.players[s].hand + t.board);
    }
  }

  /** The contributions no live seat can claim at a contested showdown; nothing when one seat is left. */
  ghost function Unclaimed(t: Table): int {
    var pots := PotsOf(Contributors(t));
    if |InHand(t)| == 1 then 0 else AmountSum(pots) - ClaimedSum(ShowdownHands(t), pots)
  }

  /** The hand is over; `bank` chips were on the table while it ran. */
  ghost predicate Settled(t: Table, bank: int) {
    && t.round == HandOver && t.pot == 0 && t.pending == {} && t.active == -1
    && (forall i :: i in t.players ==> t.players[i].chips >= 0 && 0 <= t.players[i].contribution)
    && Total(t.players, Chips, SEATS) == bank - Unclaimed(t)
  }

  /** Chips and bets do not enter into who is in the hand. */
  lemma InHandIgnoresChips(a: Table, b: Table)
    requires SameHand(a, b) && forall i :: i in a.players ==> a.players[i].folded == b.players[i].folded
    ensures InHand(a) == InHand(b)
  {
    forall i ensures i in InHand(a) <==> i in InHand(b) {
    }
  }

  lemma SoleWinnerTakesAll(t: Table)
    requires Frame(t) && Ledger(t) && |InHand(t)| == 1
    ensures Settled(FinishHand(t), Bank(t)) && Frame(FinishHand(t)) && SameHand(t, FinishHand(t))
    ensures |InHand(FinishHand(t))| == 1
  {
    var t0 := t.(pending := {}, active := -1);
    var live := InHand(t0);
    InHandIgnoresChips(t, t0);
    var x := Member(live);
    assert live == {x} by {
      OnlyMember(live, x);
    }
    var amount := AmountSum(PotsOf(Contributors(t0)));
    PotsHoldEverything(Contributors(t0));
    ContributorsHoldContributions(t.players, SEATS);
    TotalNotNegative(t.players, Contribution, SEATS);
    PaySoleTotal(t.players, x, amount, SEATS);
    InHandIgnoresChips(t, FinishHand(t));
  }

  lemma OnlyMember(s: set<int>, x: int)
    requires |s| == 1 && x in s
    ensures s == {x}
  {
    assert |s - {x}| == 0;
    assert s == (s - {x}) + {x};
  }

  lemma PayAllKeepsRest(t: Table, hands: Hands, pots: seq<Pot>)
    requires Frame(t) && (forall i :: i in t.players ==> StackOk(t.players[i]))
    requires ValidHands(hands) && forall k :: 0 <= k < |pots| ==> pots[k].amount >= 0
    ensures var paid := PayAll(t.players, hands, t.dealer, pots);
            && paid.Keys == t.players.Keys
            && forall i :: i in paid ==> paid[i] == t.players[i].(chips := paid[i].chips) && paid[i].chips >= 0
  {
    hide Payout, ValidHands, AmountSum;
    forall i | i in t.players ensures Payout(hands, t.dealer, pots, i) >= 0 {
      PayoutAtMostAmounts(hands, t.dealer, pots, i);
    }
  }

  /** The chip totals on both sides of a contested settlement. */
  lemma ShowdownTotals(t: Table)
    requires Frame(t) && Ledger(t)
    ensures var hands, pots := ShowdownHands(t), PotsOf(Contributors(t));
            && Total(PayAll(t.players, hands, t.dealer, pots), Chips, SEATS)
               == Total(t.players, Chips, SEATS) + ClaimedSum(hands, pots)
            && AmountSum(pots) == t.pot
  {
    hide Payout, PayoutTotal, AmountSum, ClaimedSum, PotsOf, ContributorsBelow, ValidHands;
    var hands, pots := ShowdownHands(t), PotsOf(Contributors(t));
    HandsAreValid(t);
    PayAllTotal(t.players, hands, t.dealer, pots, SEATS);
    ExactSettlement(hands, t.dealer, pots);
    PotsHoldEverything(Contributors(t));
    ContributorsHoldContributions(t.players, SEATS);
  }

  /** The table after a contested settlement of t, whose board is complete. */
  function PaidOut(t: Table): Table {
    t.(players := PayAll(t.players, ShowdownHands(t), t.dealer, PotsOf(Contributors(t))),
       pot := 0, round := HandOver, pending := {}, active := -1)
  }

  /** The same hole cards, board and live seats give the same showdown hands. */
  lemma SameShowdown(a: Table, b: Table)
    requires SameHand(a, b) && a.board == b.board
    requires forall i :: i in a.players ==> a.players[i].folded == b.players[i].folded
    ensures ShowdownHands(a) == ShowdownHands(b)
  {
    InHandIgnoresChips(a, b);
    forall i ensures i in ShowdownHands(a) <==> i in ShowdownHands(b) {
    }
  }

  /** b is a with chips moved, and over or not. */
  ghost predicate ChipsMoved(a: Table, b: Table) {
    && b == a.(players := b.players, pot := b.pot, round := b.round, pending := b.pending, active := b.active)
    && b.players.Keys == a.players.Keys
    && forall i :: i in a.players ==> b.players[i] == a.players[i].(chips := b.players[i].chips)
  }

  lemma ChipsMovedSame(a: Table, b: Table)
    requires ChipsMoved(a, b)
    ensures SameHand(a, b) && InHand(b) == InHand(a)
    ensures Contributors(b) == Contributors(a) && ShowdownHands(b) == ShowdownHands(a)
  {
    hide ContributorsBelow, Best;
    InHandIgnoresChips(a, b);
    ContributorsIgnoreChips(a.players, b.players, SEATS);
    SameShowdown(a, b);
  }

  lemma PaidOutMoves(t: Table)
    ensures ChipsMoved(t, PaidOut(t))
  {
    hide Payout, PotsOf, ContributorsBelow, Best;
  }

  lemma NobodyInDebt(t: Table)
    requires Frame(t) && Ledger(t)
    ensures forall i :: i in t.players ==> PaidOut(t).players[i].chips >= 0 && 0 <= t.players[i].contribution
  {
    hide Payout, PotsOf, ContributorsBelow, ValidHands, Total;
    HandsAreValid(t);
    PotsMatchCaps(Contributors(t));
    PayAllKeepsRest(t, ShowdownHands(t), PotsOf(Contributors(t)));
  }

  lemma PaidOutIsSettled(t: Table)
    requires Frame(t) && Ledger(t) && |InHand(t)| >= 2
    ensures Settled(PaidOut(t), Bank(t)) && Frame(PaidOut(t)) && SameHand(t, PaidOut(t))
    ensures InHand(PaidOut(t)) == InHand(t)
  {
    hide PayAll, AmountSum, ClaimedSum, PotsOf, Contributors, ShowdownHands, InHand, Total, Ledger;
    PaidOutMoves(t);
    ChipsMovedSame(t, PaidOut(t));
    ShowdownTotals(t);
    NobodyInDebt(t);
  }

  /** Completing the board touches nobody's chips, cards or place in the hand. */
  lemma RunoutSame(t: Table)
    ensures var u := Runout(t.(pending := {}, active := -1));
      && u == t.(pending := {}, active := -1, board := u.board, deck := u.deck)
      && SameHand(t, u) && InHand(u) == InHand(t)
  {
    var t0 := t.(pending := {}, active := -1);
    DealCommunityKeepsRound(t0, if |t0.board| < 5 then 5 - |t0.board| else 0);
    InHandIgnoresChips(t, Runout(t0));
  }

  lemma SameHandTrans(a: Table, b: Table, c: Table)
    requires SameHand(a, b) && SameHand(b, c)
    ensures SameHand(a, c)
  {}

  lemma ShowdownPaysClaimedPots(t: Table)
    requires Frame(t) && Ledger(t) && |InHand(t)| >= 2
    ensures Settled(FinishHand(t), Bank(t)) && Frame(FinishHand(t)) && SameHand(t, FinishHand(t))
    ensures InHand(FinishHand(t)) == InHand(t)
  {
    hide Settled, PaidOut, Runout, FinishHand, InHand, SameHand;
    RunoutSame(t);
    var u := Runout(t.(pending := {}, active := -1));
    PaidOutIsSettled(u);
    FinishIsPaidOut(t);
    SameHandTrans(t, u, PaidOut(u));
  }

  lemma FinishIsPaidOut(t: Table)
    requires |InHand(t)| >= 2
    ensures FinishHand(t) == PaidOut(Runout(t.(pending := {}, active := -1)))
  {
    hide PayAll, PotsOf, ContributorsBelow, Best;
    var t0 := t.(pending := {}, active := -1);
    DealCommunityKeepsRound(t0, if |t0.board| < 5 then 5 - |t0.board| else 0);
    InHandIgnoresChips(t, t0);
  }

  // ----- when settlement conserves every chip -----

  /** A live seat has contributed at least as much as everybody else. */
  ghost predicate LiveSeatCovers(t: Table) {
    exists i :: i in InHand(t) && Covers(t, i)
  }

  ghost predicate Covers(t: Table, i: int)
    requires i in t.players
  {
    forall j :: j in t.players ==> t.players[j].contribution <= t.players[i].contribution
  }

  lemma TopIsLiveIff(t: Table)
    requires Frame(t) && (forall i :: i in t.players ==> t.players[i].contribution >= 0)
    requires Total(t.players, Contribution, SEATS) > 0
    ensures TopIsLive(Contributors(t), ShowdownHands(t)) <==> LiveSeatCovers(t)
  {
    hide ContributorsBelow, Total, Best;
    var cs := Contributors(t);
    if k :| 0 <= k < |cs| && cs[k].eligible && cs[k].seat in ShowdownHands(t) && Largest(cs, k) {
      ContributorIsPlayer(t.players, SEATS, k);
      forall j | j in t.players ensures t.players[j].contribution <= cs[k].committed {
        if t.players[j].contribution > 0 {
          var m := ContributorListed(t.players, SEATS, j);
        }
      }
      assert cs[k].seat in InHand(t);
    }
    if i :| i in InHand(t) && Covers(t, i) {
      CoveringSeatContributes(t, i);
      var k := ContributorListed(t.players, SEATS, i);
      forall m | 0 <= m < |cs| ensures cs[m].committed <= cs[k].committed {
        ContributorIsPlayer(t.players, SEATS, m);
      }
      assert cs[k].seat in ShowdownHands(t) && Largest(cs, k);
    }
  }

  lemma CoveringSeatContributes(t: Table, i: int)
    requires i in t.players && Covers(t, i) && Total(t.players, Contribution, SEATS) > 0
    ensures t.players[i].contribution > 0
  {
    if t.players[i].contribution <= 0 {
      AllNonPositive(t.players, SEATS);
    }
  }

  lemma {:induction false} AllNonPositive(ps: Players, n: nat)
    requires forall j :: j in ps ==> ps[j].contribution <= 0
    ensures Total(ps, Contribution, n) <= 0
  {
    if n > 0 { AllNonPositive(ps, n - 1); }
  }

  /** Chips are lost at settlement exactly when no live seat covers every contribution and the showdown is contested. */
  lemma UnclaimedIff(t: Table)
    requires Frame(t) && (forall i :: i in t.players ==> t.players[i].contribution >= 0)
    requires Total(t.players, Contribution, SEATS) > 0 && |InHand(t)| >= 1
    ensures 0 <= Unclaimed(t) <= Total(t.players, Contribution, SEATS)
    ensures Unclaimed(t) == 0 <==> |InHand(t)| == 1 || LiveSeatCovers(t)
  {
    hide Total, ContributorsBelow, PotsOf, AmountSum, ClaimedSum, Best, PayoutTotal, LiveSeatCovers, ValidHands;
    var cs, hands := Contributors(t), ShowdownHands(t);
    ContributorsHoldContributions(t.players, SEATS);
    HandsAreValid(t);
    PotsHoldEverything(cs);
    ExactSettlement(hands, t.dealer, PotsOf(cs));
    NothingLostIff(hands, t.dealer, cs);
    ClaimedNotNegative(hands, cs);
    TopIsLiveIff(t);
  }

  lemma {:induction false} ClaimedSumNotNegative(hands: Hands, pots: seq<Pot>)
    requires forall k :: 0 <= k < |pots| ==> pots[k].amount >= 0
    ensures ClaimedSum(hands, pots) >= 0
  {
    if pots != [] {
      var init := pots[..|pots| - 1];
      assert forall k :: 0 <= k < |init| ==> init[k] == pots[k];
      ClaimedSumNotNegative(hands, init);
    }
  }

  lemma ClaimedNotNegative(hands: Hands, cs: seq<PotContributor>)
    ensures ClaimedSum(hands, PotsOf(cs)) >= 0
  {
    hide PotsOf;
    PotsMatchCaps(cs);
    ClaimedSumNotNegative(hands, PotsOf(cs));
  }
}
