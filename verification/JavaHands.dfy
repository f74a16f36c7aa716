/**
  Whole hands at the gateway: what holds of every action of every hand, the minimum raise as
  the largest lift of the street so far, and what a finished hand has paid to each seat.
  */
module JavaHands {
  import opened Common
  import opened HoldemTypes
  import opened JavaRules
  import opened JavaTurns
  import opened JavaLedger
  import opened JavaProgress
  import opened JavaCards
  import opened JavaOverflow
  import opened JavaPayouts
  import opened JavaStreets
  import opened JavaMoves
  import opened JavaOpening

  // ----- every running table is in order -----

  lemma StartDealer(t: Table, shuffled: seq<Card>)
    requires SeatsOk(t) && ChipsOk(t) && |t.seats| >= 2 && multiset(shuffled) == multiset(FreshDeck())
    requires Running(StartHand(t, shuffled))
    ensures StartHand(t, shuffled).dealer in StartHand(t, shuffled).seats && StartHand(t, shuffled).minRaise == 100
  {
    var o, sb, bb, utg := StartMeaning(t, shuffled);
    hide StartHand, FreshDeck, Able, StillIn, SeatOpened, PaidOut, BetsTakenIn, AskedFrom, Chips;
  }

  lemma StartPlaying(t: Table, shuffled: seq<Card>)
    requires Starts(t) && multiset(shuffled) == multiset(FreshDeck()) && Running(StartHand(t, shuffled))
    ensures Playing(StartHand(t, shuffled))
  {
    StartDealer(t, shuffled);
    StartReaches(t, shuffled, []);
    StartCards(t, shuffled);
    assert JavaRules.Run(StartHand(t, shuffled), []) == StartHand(t, shuffled);
    hide StartHand, FreshDeck, CardsOk, HandOk, Within, Worth;
  }

  /** Every running table of a hand is one that ActionMeaning speaks of. */
  lemma {:induction false} RunPlaying(t: Table, shuffled: seq<Card>, actions: seq<(int, Action)>)
    requires Starts(t) && multiset(shuffled) == multiset(FreshDeck())
    requires Running(JavaRules.Run(StartHand(t, shuffled), actions))
    ensures Playing(JavaRules.Run(StartHand(t, shuffled), actions))
  {
    hide StartHand, FreshDeck, Act, Accepts, Playing, Starts, HandOk, Within, Worth;
    if actions == [] {
      StartPlaying(t, shuffled);
    } else {
      var init, last := actions[..|actions| - 1], actions[|actions| - 1];
      var before := JavaRules.Run(StartHand(t, shuffled), init);
      StartReaches(t, shuffled, init);
      if Accepts(before, last.0, last.1) {
        AcceptsOnlyRunning(before, last.0, last.1);
        RunPlaying(t, shuffled, init);
        ActKeepsPlaying(before, last.0, last.1);
      } else {
        ActStaysOver(before, last.0, last.1);
        RunPlaying(t, shuffled, init);
      }
    }
  }

  // ----- what a finished hand has paid -----

  lemma OverIsFinished(v: Table, u: Table)
    requires GoesOn(v, u) && Running(v) && u.street == HandOver
    ensures Finished(v, u)
  {
    hide StillIn, Able, BetsTakenIn, PaidOut, AskedFrom;
  }

  /**
    The action that ends a hand: v is the table once the actor has played, and from there the
    pot goes to the seats the engine's evaluator names as winners, in equal shares, with what
    is left over to the lowest-numbered of them.
    */
  lemma LastActionPays(t: Table, shuffled: seq<Card>, actions: seq<(int, Action)>, s: int, a: Action) returns (v: Table)
    requires Starts(t) && multiset(shuffled) == multiset(FreshDeck())
    requires var r := JavaRules.Run(StartHand(t, shuffled), actions); Accepts(r, s, a) && Act(r, s, a).street == HandOver
    ensures var r := JavaRules.Run(StartHand(t, shuffled), actions); Played(r, s, a, v) && Finished(v, Act(r, s, a))
  {
    hide StartHand, FreshDeck, Act, Accepts, Playing, Starts, Finished, Played, HandOk, Within, Worth, JavaRules.Run;
    var r := JavaRules.Run(StartHand(t, shuffled), actions);
    StartReaches(t, shuffled, actions);
    AcceptsOnlyRunning(r, s, a);
    RunPlaying(t, shuffled, actions);
    v := EndingPays(r, s, a);
  }

  lemma EndingPays(r: Table, s: int, a: Action) returns (v: Table)
    requires Playing(r) && Accepts(r, s, a) && Act(r, s, a).street == HandOver
    ensures Played(r, s, a, v) && Finished(v, Act(r, s, a))
  {
    PlayingCards(r);
    hide Act, Accepts, Playing, Finished, GoesOn, Played, CardsOk;
    v := ActionMeaning(r, s, a);
    PlayedDealer(r, s, a, v);
    OverIsFinished(v, Act(r, s, a));
  }

  // ----- the raises of a street -----

  /** How far seat s has come to lie above the maximum before its action. */
  ghost function LiftOf(a: Table, b: Table, s: int): int {
    if s in a.seats && s in a.players && s in b.players then b.players[s].bet - a.maxBet else 0
  }

  /** The largest lift of the current street; the big blind counts as the first. */
  ghost function Largest(s: Table, actions: seq<(int, Action)>): int {
    if actions == [] then 100
    else
      var init := actions[..|actions| - 1];
      var a, b := JavaRules.Run(s, init), JavaRules.Run(s, actions);
      if a.street != b.street then 100 else Max(Largest(s, init), LiftOf(a, b, actions[|actions| - 1].0))
  }

  lemma RoundTwice(largest: int, lift: int)
    ensures RoundedUp(Max(RoundedUp(largest), lift)) == RoundedUp(Max(largest, lift))
  {
    var r := RoundedUp(largest);
    UpFromMultiple(r);
    if largest < lift <= r {
      SameMultiple(largest, lift);
    }
  }

  lemma UpFromMultiple(r: int)
    requires r % 50 == 0
    ensures RoundedUp(r) == r
  {}

  lemma SameMultiple(a: int, b: int)
    requires a <= b <= RoundedUp(a)
    ensures RoundedUp(b) == RoundedUp(a)
  {}

  lemma AcceptedLift(t: Table, s: int, a: Action, largest: int)
    requires Playing(t) && Accepts(t, s, a) && t.minRaise == RoundedUp(largest) && Running(Act(t, s, a))
    ensures var u := Act(t, s, a);
      u.minRaise == if u.street != t.street then 100 else RoundedUp(Max(largest, LiftOf(t, u, s)))
  {
    Actor(t);
    AcceptedIff(t, s, a);
    PlayingCards(t);
    hide Playing, Act, Accepts, Played, GoesOn, RoundedUp, CardsOk, Ready, LiftOf;
    var v := ActionMeaning(t, s, a);
    LiftFrom(t, s, a, v, Act(t, s, a), largest);
  }

  lemma LiftFrom(t: Table, s: int, a: Action, v: Table, u: Table, largest: int)
    requires Played(t, s, a, v) && GoesOn(v, u) && Running(t) && Running(u) && s in t.seats
    requires t.minRaise == RoundedUp(largest) && t.minRaise >= 50
    ensures u.minRaise == if u.street != t.street then 100 else RoundedUp(Max(largest, LiftOf(t, u, s)))
  {
    PlayedDealer(t, s, a, v);
    hide GoesOn, RoundedUp, Played;
    StreetOrSame(v, u);
    if u.street == t.street {
      PlayedLift(t, s, a, v, largest);
      AskedSameBets(v, u, s);
    }
  }

  /** A hand goes on with the limits of v, or on another street with fresh ones. */
  lemma StreetOrSame(v: Table, u: Table)
    requires GoesOn(v, u) && Running(v) && Running(u)
    ensures if u.street == v.street then u == v.(turn := u.turn, pending := u.pending) else u.minRaise == 100
  {
    hide StillIn, Able, PaidOut, BetsTakenIn, AskedFrom;
  }

  lemma AskedSameBets(v: Table, u: Table, s: int)
    requires u == v.(turn := u.turn, pending := u.pending)
    ensures u.minRaise == v.minRaise && (s in u.players <==> s in v.players)
    ensures s in v.players ==> u.players[s] == v.players[s]
  {}

  lemma PlayedLift(t: Table, s: int, a: Action, v: Table, largest: int)
    requires Played(t, s, a, v) && s in t.seats && t.minRaise == RoundedUp(largest) && t.minRaise >= 50
    ensures v.minRaise == RoundedUp(Max(largest, LiftOf(t, v, s)))
  {
    var lift := Lifts(t, s, a);
    RoundTwice(largest, lift);
    hide Puts, Reopens, Able, RoundedUp;
    assert lift == LiftOf(t, v, s);
    if lift <= 0 {
      assert largest > 0 by { assert RoundedUp(largest) < largest + 50; }
    }
  }

  lemma {:induction false} MinRaiseIsLargest(t: Table, shuffled: seq<Card>, actions: seq<(int, Action)>)
    requires Starts(t) && multiset(shuffled) == multiset(FreshDeck())
    requires Running(JavaRules.Run(StartHand(t, shuffled), actions))
    ensures JavaRules.Run(StartHand(t, shuffled), actions).minRaise == RoundedUp(Largest(StartHand(t, shuffled), actions))
  {
    hide StartHand, FreshDeck, Act, Accepts, Playing, Starts, HandOk, Within, Worth, LiftOf, RoundedUp;
    var s := StartHand(t, shuffled);
    if actions == [] {
      HundredFirst(t, shuffled);
    } else {
      var init, last := actions[..|actions| - 1], actions[|actions| - 1];
      var before := JavaRules.Run(s, init);
      StartReaches(t, shuffled, init);
      if Accepts(before, last.0, last.1) {
        AcceptsOnlyRunning(before, last.0, last.1);
        RunPlaying(t, shuffled, init);
        MinRaiseIsLargest(t, shuffled, init);
        AcceptedLift(before, last.0, last.1, Largest(s, init));
        UpFromMultiple(100);
      } else {
        ActStaysOver(before, last.0, last.1);
        MinRaiseIsLargest(t, shuffled, init);
        RunPlaying(t, shuffled, init);
        RefusedLift(before, last.0);
        LargestFromStart(s, init);
      }
    }
  }

  lemma HundredFirst(t: Table, shuffled: seq<Card>)
    requires Starts(t) && multiset(shuffled) == multiset(FreshDeck()) && Running(StartHand(t, shuffled))
    ensures StartHand(t, shuffled).minRaise == RoundedUp(100)
  {
    StartDealer(t, shuffled);
    UpFromMultiple(100);
  }

  lemma {:induction false} LargestFromStart(s: Table, actions: seq<(int, Action)>)
    ensures Largest(s, actions) >= 100
  {
    hide LiftOf, JavaRules.Run;
    if actions != [] {
      LargestFromStart(s, actions[..|actions| - 1]);
    }
  }

  /** A refused action lifts nothing. */
  lemma RefusedLift(t: Table, s: int)
    requires Playing(t)
    ensures LiftOf(t, t, s) <= 0
  {
    hide CardsOk, Worth, Within;
  }

  /**
    At every point of every hand: a raise is accepted exactly when the seat is on turn, it has
    more than it owes, and the amount does not round up past an int.  If its sum fits as well,
    it takes the seat all-in, or lifts the bet above the maximum by the amount asked for, the
    largest lift of the street at least, rounded up to the chip unit.
    */
  lemma RaiseMeaning(t: Table, shuffled: seq<Card>, actions: seq<(int, Action)>, s: int, amount: Option<int32>)
    returns (v: Table)
    requires Starts(t) && multiset(shuffled) == multiset(FreshDeck())
    requires Running(JavaRules.Run(StartHand(t, shuffled), actions))
    ensures var r := JavaRules.Run(StartHand(t, shuffled), actions);
      var asked := Max(RoundedUp(Largest(StartHand(t, shuffled), actions)), if amount.Some? then amount.value else 0);
      && r.turn in r.players
      && (Accepts(r, s, Raise(amount)) <==>
            s == r.turn && r.players[s].chips > Owes(r, s) && asked <= INT_MAX - 49)
      && (Accepts(r, s, Raise(amount)) ==> Played(r, s, Raise(amount), v) && GoesOn(v, Act(r, s, Raise(amount))))
      && (Accepts(r, s, Raise(amount)) && Owes(r, s) + RoundedUp(asked) <= INT_MAX ==>
            v.players[s].chips == 0 || v.players[s].bet - r.maxBet == RoundedUp(asked))
  {
    var r := JavaRules.Run(StartHand(t, shuffled), actions);
    RunPlaying(t, shuffled, actions);
    MinRaiseIsLargest(t, shuffled, actions);
    LargestFromStart(StartHand(t, shuffled), actions);
    hide StartHand, FreshDeck, Act, Playing, Starts, JavaRules.Run, Largest, RoundedUp;
    v := RaiseAt(r, Largest(StartHand(t, shuffled), actions), s, amount);
  }

  lemma RaiseAt(r: Table, largest: int, s: int, amount: Option<int32>) returns (v: Table)
    requires Playing(r) && r.minRaise == RoundedUp(largest) && largest >= 100
    ensures var asked := Max(RoundedUp(largest), if amount.Some? then amount.value else 0);
      && r.turn in r.players
      && (Accepts(r, s, Raise(amount)) <==>
            s == r.turn && r.players[s].chips > Owes(r, s) && asked <= INT_MAX - 49)
      && (Accepts(r, s, Raise(amount)) ==> Played(r, s, Raise(amount), v) && GoesOn(v, Act(r, s, Raise(amount))))
      && (Accepts(r, s, Raise(amount)) && Owes(r, s) + RoundedUp(asked) <= INT_MAX ==>
            v.players[s].chips == 0 || v.players[s].bet - r.maxBet == RoundedUp(asked))
  {
    AcceptedIff(r, s, Raise(amount));
    Actor(r);
    hide Playing, Accepts, Act, GoesOn, LimitedBy, RoundedUp;
    assert RoundedUp(largest) >= largest;
    v := r;
    if Accepts(r, s, Raise(amount)) {
      v := ActionMeaning(r, s, Raise(amount));
    }
  }
}
