/**
  What one action does at the gateway, told by fields: when it is accepted, what the actor
  puts in, what becomes of the bet limits and the pending seats, and how the hand goes on.
  */
module JavaMoves {
  import opened Common
  import opened HoldemTypes
  import opened JavaRules
  import opened JavaTurns
  import opened JavaLedger
  import opened JavaProgress
  import opened JavaCards
  import opened JavaOverflow
  import opened JavaPayouts
  import opened JavaStreets

  // ----- an action, told by fields -----

  /** The least multiple of the chip unit that is not below x. */
  function RoundedUp(x: int): (r: int)
    ensures r % 50 == 0 && x <= r < x + 50
  {
    (x + 49) / 50 * 50
  }

  ghost function Owes(t: Table, s: int): int
    requires s in t.players
  {
    Max(0, t.maxBet - t.players[s].bet)
  }

  /** What a raise asks for before rounding: the client's number, and at least the minimum raise. */
  function Asked(t: Table, amount: Option<int32>): int {
    if amount.Some? then Max(t.minRaise, amount.value) else t.minRaise
  }

  ghost predicate TooLarge(t: Table, s: int, amount: Option<int32>)
    requires s in t.players
  {
    Owes(t, s) + RoundedUp(Asked(t, amount)) > INT_MAX
  }

  /** What the actor puts in. */
  ghost function Puts(t: Table, s: int, a: Action): int
    requires s in t.players
  {
    match a
    case Call => Min(Owes(t, s), t.players[s].chips)
    case AllIn => t.players[s].chips
    case Raise(amount) =>
      if TooLarge(t, s, amount) then 0
      else Min(Owes(t, s) + RoundedUp(Asked(t, amount)), t.players[s].chips)
    case _ => 0
  }

  /** How far the actor's bet comes to lie above the maximum. */
  ghost function Lifts(t: Table, s: int, a: Action): int
    requires s in t.players
  {
    t.players[s].bet + Puts(t, s, a) - t.maxBet
  }

  ghost predicate Reopens(t: Table, s: int, a: Action)
    requires s in t.players
  {
    a.Raise? || (a == AllIn && Lifts(t, s, a) > 0)
  }

  /** Whether the seat on turn may do this; a raise that rounds up past an int is refused. */
  ghost predicate Allowed(t: Table, s: int, a: Action)
    requires s in t.players
  {
    match a
    case Fold => true
    case AllIn => true
    case Call => true
    case Check => t.players[s].bet >= t.maxBet
    case Raise(amount) => t.players[s].chips > Owes(t, s) && Asked(t, amount) <= INT_MAX - 49
    case Unsupported => false
  }

  ghost predicate PaidBy(t: Table, s: int, a: Action, v: Table) {
    && s in t.players && v.players.Keys == t.players.Keys
    && (forall x :: x in t.players && x != s ==> v.players[x] == t.players[x])
    && var put := Puts(t, s, a);
      && v.players[s] == t.players[s].(chips := t.players[s].chips - put, bet := t.players[s].bet + put,
                                       folded := a == Fold, allIn := put == t.players[s].chips)
      && v.pot == t.pot + put
  }

  ghost predicate LimitedBy(t: Table, s: int, a: Action, v: Table) {
    && s in t.players
    && v.maxBet == Max(t.maxBet, t.players[s].bet + Puts(t, s, a))
    && v.minRaise == (if Lifts(t, s, a) > 0 then RoundedUp(Max(t.minRaise, Lifts(t, s, a))) else t.minRaise)
    && v.pending == (if Reopens(t, s, a) then Able(v) else t.pending) - {s}
  }

  ghost predicate OnlyPlayed(t: Table, v: Table) {
    v == t.(players := v.players, pot := v.pot, maxBet := v.maxBet, minRaise := v.minRaise, pending := v.pending)
  }

  /** v is t when s has acted and the street has not been settled yet. */
  ghost predicate Played(t: Table, s: int, a: Action, v: Table) {
    PaidBy(t, s, a, v) && LimitedBy(t, s, a, v) && OnlyPlayed(t, v)
  }

  /** A running table as any hand reaches it. */
  ghost predicate Playing(t: Table) {
    && HandOk(t) && Running(t) && Within(t) && Worth(t) <= CHIP_LIMIT
    && CardsOk(t) && t.dealer in t.seats
  }

  // ----- normalizeRaiseBy -----

  lemma QuotientNegative(x: int)
    requires x < 0
    ensures Quotient(x, 50) * 50 <= 0
  {}

  lemma NormalizeMeans(raiseBy: int, minRaise: int)
    requires minRaise >= 50 && Max(minRaise, raiseBy) <= INT_MAX
    ensures var v := Max(minRaise, raiseBy);
      if v <= INT_MAX - 49 then NormalizeRaiseBy(raiseBy, minRaise) == RoundedUp(v)
      else NormalizeRaiseBy(raiseBy, minRaise) <= 0
  {
    var v := Max(minRaise, raiseBy);
    SignedIs(v + 49);
    hide Signed;
    if v > INT_MAX - 49 {
      QuotientNegative(v + 49 - TWO32);
    }
  }

  /** Nothing is asked for but ints. */
  lemma AskedRaise(t: Table, amount: Option<int32>)
    requires 50 <= t.minRaise <= INT_MAX
    ensures Asked(t, amount) <= INT_MAX
    ensures if Asked(t, amount) <= INT_MAX - 49 then RaiseBy(t, amount) == RoundedUp(Asked(t, amount))
            else RaiseBy(t, amount) <= 0
  {
    hide NormalizeRaiseBy, RoundedUp;
    NormalizeMeans(if amount.Some? then Max(1, amount.value) else t.minRaise, t.minRaise);
  }

  // ----- acceptance -----

  lemma Actor(t: Table)
    requires Playing(t)
    ensures t.turn in t.players && t.turn in t.seats && t.turn in Able(t) && t.turn >= 0
    ensures t.players[t.turn].chips > 0 && 0 <= t.players[t.turn].bet <= t.maxBet
    ensures 50 <= t.minRaise <= CHIP_LIMIT && t.maxBet <= CHIP_LIMIT && t.turn !in t.pending
  {
    hide Worth, CardsOk;
    PotWithin(t);
  }

  lemma PotWithin(t: Table)
    requires HandOk(t) && Running(t) && Worth(t) <= CHIP_LIMIT
    ensures t.pot <= CHIP_LIMIT
  {
    PotWithinWorth(t);
    hide Worth, ChipsOk;
  }

  /** The gateway accepts exactly the allowed actions of the seat on turn. */
  lemma AcceptedIff(t: Table, s: int, a: Action)
    requires Playing(t)
    ensures t.turn in t.players
    ensures Accepts(t, s, a) <==> s == t.turn && Allowed(t, s, a)
  {
    Actor(t);
    RunningHere(t);
    if a.Raise? {
      AskedRaise(t, a.amount);
    }
    hide Playing, RaiseBy, RoundedUp, Asked;
  }

  lemma RunningHere(t: Table)
    requires Playing(t)
    ensures t.street != HandOver && t.street != Waiting && !t.players[t.turn].folded && !t.players[t.turn].allIn
  {
    hide Worth, CardsOk, Within;
  }

  // ----- what the action does -----

  /** The seat on turn with what it takes to act. */
  ghost predicate OnTurn(t: Table, s: int) {
    && s in t.players && s in t.seats && s !in t.pending
    && !t.players[s].folded && !t.players[s].allIn && t.players[s].chips > 0
    && 0 <= t.players[s].bet <= t.maxBet <= CHIP_LIMIT
    && 50 <= t.minRaise <= CHIP_LIMIT && t.players[s].chips <= CHIP_LIMIT
  }

  lemma LiftMeans(t: Table, s: int)
    requires s in t.players && 50 <= t.minRaise <= CHIP_LIMIT && t.players[s].bet - t.maxBet <= INT_MAX - 49
    ensures var u, lift := Lift(t, s), t.players[s].bet - t.maxBet;
      && u == t.(maxBet := u.maxBet, minRaise := u.minRaise)
      && u.maxBet == Max(t.maxBet, t.players[s].bet)
      && u.minRaise == if lift > 0 then RoundedUp(Max(t.minRaise, lift)) else t.minRaise
  {
    var lift := t.players[s].bet - t.maxBet;
    hide NormalizeRaiseBy, RoundedUp;
    if lift > 0 {
      NormalizeMeans(Max(t.minRaise, lift), 50);
    }
  }

  /** What is missing to the target of a raise. */
  lemma NeedMeans(t: Table, s: int, raiseBy: int)
    requires OnTurn(t, s) && 0 < raiseBy <= INT_MAX
    ensures RaiseNeed(t, s, raiseBy) == if Owes(t, s) + raiseBy > INT_MAX then 0 else Owes(t, s) + raiseBy
  {
    SignedSum(t.maxBet + raiseBy, -t.players[s].bet);
    SignedIs(t.maxBet + raiseBy - t.players[s].bet);
    hide Signed;
  }

  ghost function Paid(t: Table, s: int, put: int): Table
    requires s in t.players
  {
    var p := t.players[s];
    t.(players := t.players[s := p.(chips := p.chips - put, bet := p.bet + put, allIn := put == p.chips)], pot := t.pot + put)
  }

  /** v is t after s put in that much, the others being asked again if `reopen`. */
  ghost predicate PutIn(t: Table, s: int, put: int, reopen: bool, v: Table)
    requires s in t.players
  {
    var bet := t.players[s].bet + put;
    v == Paid(t, s, put).(
      maxBet := Max(t.maxBet, bet),
      minRaise := if bet > t.maxBet then RoundedUp(Max(t.minRaise, bet - t.maxBet)) else t.minRaise,
      pending := (if reopen then Able(v) else t.pending) - {s})
  }

  lemma PayIs(t: Table, s: int, put: int)
    requires OnTurn(t, s) && 0 <= put <= t.players[s].chips
    ensures (if put == t.players[s].chips then MarkAllIn(Pay(t, s, put), s) else Pay(t, s, put)) == Paid(t, s, put)
  {}

  lemma LiftPutsIn(t: Table, s: int, put: int)
    requires OnTurn(t, s) && 0 <= put <= t.players[s].chips
    ensures PutIn(t, s, put, true, Reopen(Lift(Paid(t, s, put), s), s))
    ensures t.players[s].bet + put <= t.maxBet ==> PutIn(t, s, put, false, Paid(t, s, put))
  {
    var u := Paid(t, s, put);
    LiftMeans(u, s);
    hide Lift, RoundedUp, ActingSeats, Able;
    AbleAct(Lift(u, s));
    AskedSame(Lift(u, s), Reopen(Lift(u, s), s));
    assert t.pending - {s} == t.pending;
  }

  lemma AllInPutsIn(t: Table, s: int)
    requires OnTurn(t, s)
    ensures var p := t.players[s]; PutIn(t, s, p.chips, p.bet + p.chips > t.maxBet, GoAllIn(t, s))
  {
    PayIs(t, s, t.players[s].chips);
    LiftPutsIn(t, s, t.players[s].chips);
    hide Lift, Reopen, Pay, MarkAllIn, PutIn;
  }

  lemma PutInPlays(t: Table, s: int, a: Action, v: Table)
    requires OnTurn(t, s) && a != Fold && PutIn(t, s, Puts(t, s, a), Reopens(t, s, a), v)
    ensures Played(t, s, a, v.(pending := v.pending - {s}))
  {
    hide Puts, RoundedUp, Able;
    AskedSame(v, v.(pending := v.pending - {s}));
    assert v.pending - {s} == v.pending;
  }

  lemma AllInPlays(t: Table, s: int)
    requires OnTurn(t, s)
    ensures Played(t, s, AllIn, GoAllIn(t, s).(pending := GoAllIn(t, s).pending - {s}))
  {
    AllInPutsIn(t, s);
    hide PutIn, GoAllIn, Played;
    PutInPlays(t, s, AllIn, GoAllIn(t, s));
  }

  lemma CallPlays(t: Table, s: int, a: Action)
    requires OnTurn(t, s) && (a == Call || (a == Check && t.players[s].bet >= t.maxBet))
    ensures Played(t, s, a, DoCall(t, s).(pending := DoCall(t, s).pending - {s}))
  {
    var put := Puts(t, s, a);
    PayIs(t, s, put);
    LiftPutsIn(t, s, put);
    NothingPaid(t, s);
    hide PutIn, Pay, MarkAllIn, Paid, Played, Lift, Reopen;
    PutInPlays(t, s, a, DoCall(t, s));
  }

  lemma NothingPaid(t: Table, s: int)
    requires OnTurn(t, s)
    ensures Paid(t, s, 0) == t
  {
    assert t.players[s := t.players[s]] == t.players;
  }

  lemma RaisePlays(t: Table, s: int, amount: Option<int32>)
    requires OnTurn(t, s) && Allowed(t, s, Raise(amount))
    ensures var v := DoRaise(t, s, RaiseBy(t, amount));
      Played(t, s, Raise(amount), v.(pending := v.pending - {s}))
  {
    AskedRaise(t, amount);
    var raiseBy := RaiseBy(t, amount);
    NeedMeans(t, s, raiseBy);
    var need := RaiseNeed(t, s, raiseBy);
    var v := DoRaise(t, s, raiseBy);
    hide RaiseBy, RaiseNeed, PutIn, Pay, MarkAllIn, Paid, Played, Lift, Reopen, GoAllIn, Asked;
    if need >= t.players[s].chips {
      AllInPutsIn(t, s);
    } else {
      PayIs(t, s, need);
      LiftPutsIn(t, s, need);
    }
    PutInPlays(t, s, Raise(amount), v);
  }

  lemma FoldPlays(t: Table, s: int)
    requires OnTurn(t, s)
    ensures Played(t, s, Fold, Apply(t, s, Fold).(pending := Apply(t, s, Fold).pending - {s}))
  {
    hide Able, RoundedUp;
  }

  lemma ActionPlays(t: Table, s: int, a: Action)
    requires OnTurn(t, s) && Allowed(t, s, a) && a != Unsupported
    ensures Played(t, s, a, Apply(t, s, a).(pending := Apply(t, s, a).pending - {s}))
  {
    hide Played, OnTurn, DoCall, DoRaise, GoAllIn, Puts, RaiseBy;
    match a
    case Fold => FoldPlays(t, s);
    case AllIn => AllInPlays(t, s);
    case Raise(amount) => RaisePlays(t, s, amount);
    case _ => CallPlays(t, s, a);
  }

  lemma ActorOnTurn(t: Table)
    requires Playing(t)
    ensures OnTurn(t, t.turn)
  {
    Actor(t);
    RunningHere(t);
    ActorsChips(t);
    hide Playing;
  }

  lemma ActorsChips(t: Table)
    requires Playing(t)
    ensures t.turn in t.players && t.players[t.turn].chips <= CHIP_LIMIT
  {
    Actor(t);
    hide CardsOk, ChipsOk;
    OneOfMany(t.players, t.turn, SEATS);
  }

  // ----- the whole step -----

  /** Everybody pending sits at the table. */
  lemma PlayedOrderly(t: Table, s: int, a: Action, v: Table)
    requires Playing(t) && s == t.turn && Accepts(t, s, a)
    requires v == Apply(t, s, a).(pending := Apply(t, s, a).pending - {s})
    ensures Orderly(v) && v.turn in v.seats && v.turn == s && forall x :: x in v.pending ==> x in v.seats
  {
    ApplyOk(t, s, a);
    ApplyCards(t, s, a);
    ApplyTurn(t, s, a);
    PlayingCards(t);
    hide Playing, Apply, CardsOk, Accepts, ChipsBelow;
    SameCardsOk(t, v);
  }

  lemma PlayingCards(t: Table)
    requires Playing(t)
    ensures CardsOk(t) && Running(t) && SeatsOk(t) && t.turn in t.seats && t.dealer in t.seats
    ensures Ready(t, t.turn)
  {
    hide CardsOk, Worth, Within;
  }

  lemma ApplyTurn(t: Table, s: int, a: Action)
    requires s in t.players
    ensures Apply(t, s, a).turn == t.turn && Apply(t, s, a).dealer == t.dealer
  {
    hide ActingSeats, NormalizeRaiseBy, RaiseNeed;
  }

  /**
    Every accepted action of a running hand, by fields: v is the table once the actor has
    played, and the hand goes on from it.
    */
  lemma ActionMeaning(t: Table, s: int, a: Action) returns (v: Table)
    requires Playing(t) && Accepts(t, s, a)
    ensures Played(t, s, a, v) && GoesOn(v, Act(t, s, a))
  {
    AcceptedIff(t, s, a);
    ActorOnTurn(t);
    hide Playing, OnTurn, Apply, Settle, GoesOn, Orderly, Accepts;
    ActionPlays(t, s, a);
    v := Apply(t, s, a).(pending := Apply(t, s, a).pending - {s});
    PlayedOrderly(t, s, a, v);
    SettleMeans(v);
  }

  /** A hand that goes on keeps its dealer. */
  lemma DealerStays(v: Table, u: Table)
    requires GoesOn(v, u) && Running(u)
    ensures u.dealer == v.dealer && u.seats == v.seats
  {
    hide BetsTakenIn, StillIn, Able, PaidOut, AskedFrom;
  }

  lemma ActKeepsPlaying(t: Table, s: int, a: Action)
    requires Playing(t) && Accepts(t, s, a) && Running(Act(t, s, a))
    ensures Playing(Act(t, s, a))
  {
    var v := ActionMeaning(t, s, a);
    DealerStays(v, Act(t, s, a));
    PlayedDealer(t, s, a, v);
    AcceptedActionDescends(t, s, a);
    ActWithin(t, s, a);
    ActionKeepsWorth(t, s, a);
    PlayingCards(t);
    ActCards(t, s, a);
    hide Act, Accepts, Worth, CardsOk, Within, HandOk;
  }

  lemma PlayedDealer(t: Table, s: int, a: Action, v: Table)
    requires Played(t, s, a, v)
    ensures v.dealer == t.dealer && v.seats == t.seats && v.street == t.street && v.handNum == t.handNum
  {
    hide PaidBy, LimitedBy;
  }
}
