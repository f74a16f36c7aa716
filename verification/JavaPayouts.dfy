/**
  What the gateway pays to each seat: the winners share the pot equally, the lowest-numbered
  of them takes what is left over, and nobody else gets anything.
  */
module JavaPayouts {
  import opened Common
  import opened HoldemTypes
  import opened HoldemEvaluator
  import opened JavaEvaluator
  import opened JavaRules
  import opened JavaLedger
  import opened JavaCards
  import PotManager

  /** Seated and not folded. */
  ghost function StillIn(t: Table): set<int> {
    set s | s in t.seats && s in t.players && !t.players[s].folded
  }

  /** One seat's part of the pot when the seats of w share it. */
  ghost function PotShare(pot: int, w: set<int>, s: int): int {
    if s !in w then 0
    else pot / |w| + if forall x :: x in w ==> s <= x then pot % |w| else 0
  }

  /** A sole seat left takes the pot; otherwise those do whom nobody outscores. */
  ghost function Takers(t: Table): set<int> {
    if |StillIn(t)| <= 1 then StillIn(t)
    else set s | s in StillIn(t) && forall x :: x in StillIn(t) ==> SeatStrength(t, x) <= SeatStrength(t, s)
  }

  lemma StillInPlays(t: Table)
    ensures forall s :: s in StillIn(t) ==> s in t.players && s in t.seats
  {}

  // ----- lists of seats in ascending order -----

  lemma {:induction false} ContendersAscend(seats: seq<int>, players: Players)
    requires PotManager.Increasing(seats)
    ensures PotManager.Increasing(ContendersOf(seats, players))
  {
    if seats != [] {
      assert forall i :: 0 <= i < |seats[1..]| ==> seats[0] < seats[1..][i];
      ContendersAscend(seats[1..], players);
      ContendersArePlayers(seats[1..], players);
      var rest := ContendersOf(seats[1..], players);
      forall i | 0 <= i < |rest| ensures seats[0] < rest[i] {
        assert rest[i] in rest && rest[i] in seats[1..];
      }
    }
  }

  lemma {:induction false} StrongestAscend(t: Table, seats: seq<int>, score: int)
    requires PotManager.Increasing(seats) && forall s :: s in seats ==> s in t.players
    ensures PotManager.Increasing(WithStrength(t, seats, score))
  {
    hide SeatStrength;
    if seats != [] {
      var init, last := seats[..|seats| - 1], seats[|seats| - 1];
      StrongestAscend(t, init, score);
      StrengthSubset(t, init, score);
      var rest := WithStrength(t, init, score);
      forall i | 0 <= i < |rest| ensures rest[i] < last {
        assert rest[i] in rest && rest[i] in init;
      }
    }
  }

  lemma WinnersAscend(t: Table, c: seq<int>)
    requires SeatsOk(t) && c == Contenders(t) && forall s :: s in c ==> s in t.players
    ensures PotManager.Increasing(Winners(t, c))
  {
    ContendersAscend(t.seats, t.players);
    hide SeatStrength, TopStrength, WithStrength;
    if |c| > 1 {
      StrongestAscend(t, c, TopStrength(t, c));
    }
  }

  lemma {:induction false} SizeOfAscending(a: seq<int>, w: set<int>)
    requires PotManager.Increasing(a) && forall s :: s in a <==> s in w
    ensures |w| == |a|
  {
    if a == [] {
      assert w == {} by {
        if w != {} { var x := Member(w); }
      }
    } else {
      var init, last := a[..|a| - 1], a[|a| - 1];
      assert a == init + [last];
      SizeOfAscending(init, w - {last});
      assert w == (w - {last}) + {last};
    }
  }

  // ----- finishHand -----

  lemma PrefixGrows(w: seq<int>, n: nat, s: int)
    requires 0 < n <= |w| && PotManager.Increasing(w)
    ensures s in w[..n] <==> s in w[..n - 1] || s == w[n - 1]
    ensures s == w[n - 1] ==> s !in w[..n - 1]
  {
    assert w[..n] == w[..n - 1] + [w[n - 1]];
  }

  lemma {:induction false} PaidAlong(players: Players, w: seq<int>, share: int, rem: int, n: nat, s: int)
    requires n <= |w| && PotManager.Increasing(w) && (forall x :: x in w ==> x in players) && s in players
    ensures PayWinners(players, w, share, rem, n)[s] ==
      players[s].(chips := players[s].chips + if s in w[..n] then share + (if s == w[0] then rem else 0) else 0)
  {
    if n > 0 {
      PaidAlong(players, w, share, rem, n - 1, s);
      PrefixGrows(w, n, s);
      assert n > 1 ==> w[0] < w[n - 1];
    }
  }

  /** Settling gives each winner its share, and the first of them the remainder. */
  lemma SettledPays(players: Players, w: seq<int>, pot: int, all: set<int>, s: int)
    requires PotManager.Increasing(w) && (forall x :: x in w ==> x in players) && s in players
    requires forall x :: x in w <==> x in all
    ensures s in Settled(players, w, pot)
    ensures Settled(players, w, pot)[s] == players[s].(chips := players[s].chips + PotShare(pot, all, s))
  {
    hide PayWinners;
    if w != [] {
      PaidAlong(players, w, pot / |w|, pot % |w|, |w|, s);
      assert w[..|w|] == w;
      SizeOfAscending(w, all);
      assert w[0] in w;
    }
  }

  lemma ContendersAreIn(t: Table)
    requires SeatsOk(t)
    ensures forall s :: s in Contenders(t) <==> s in StillIn(t)
    ensures |StillIn(t)| == |Contenders(t)|
  {
    ContendersArePlayers(t.seats, t.players);
    ContendersAscend(t.seats, t.players);
    hide Contenders, ContendersOf;
    SizeOfAscending(ContendersOf(t.seats, t.players), StillIn(t));
    assert Contenders(t) == ContendersOf(t.seats, t.players) by { ContendersUnfold(t); }
  }

  lemma ContendersUnfold(t: Table)
    ensures Contenders(t) == ContendersOf(t.seats, t.players)
  {}

  lemma WinnersAreTakers(t: Table)
    requires SeatsOk(t) && forall x :: x in Contenders(t) ==> x in t.players
    ensures forall s :: s in Winners(t, Contenders(t)) <==> s in Takers(t)
  {
    ContendersAreIn(t);
    hide Contenders, SeatStrength, StillIn;
    var c := Contenders(t);
    if |c| > 1 {
      WinnersArePlayers(t, c);
      forall s | s in c ensures s in Winners(t, c) <==> s in Takers(t) {
        WinnersOutscored(t, c, s);
      }
    }
  }

  /** finishHand pays exactly the takers, each an equal share and the lowest-numbered the rest. */
  lemma FinishPays(t: Table)
    requires SeatsOk(t)
    ensures FinishHand(t) == t.(street := HandOver, turn := -1, players := FinishHand(t).players)
    ensures FinishHand(t).players.Keys == t.players.Keys
    ensures forall s :: s in t.players ==>
      FinishHand(t).players[s] == t.players[s].(chips := t.players[s].chips + PotShare(t.pot, Takers(t), s))
  {
    ContendersArePlayers(t.seats, t.players);
    WinnersArePlayers(t, Contenders(t));
    WinnersAscend(t, Contenders(t));
    WinnersAreTakers(t);
    FinishFrame(t);
    hide Contenders, Winners, Takers, PotShare, Settled;
    forall s | s in t.players
      ensures FinishHand(t).players[s] == t.players[s].(chips := t.players[s].chips + PotShare(t.pot, Takers(t), s))
    {
      SettledPays(t.players, Winners(t, Contenders(t)), t.pot, Takers(t), s);
    }
  }

  // ----- the engine's view -----

  /** The engine's best hand of a seat. */
  function EngineHand(t: Table, s: int): HandEval
    requires s in t.players
  {
    Best(t.players[s].hole + t.board)
  }

  /** A sole seat left, or those whose hand no other beats by the engine's compare_hands. */
  ghost function EngineTakers(t: Table): set<int> {
    if |StillIn(t)| <= 1 then StillIn(t)
    else set s | s in StillIn(t) && forall x :: x in StillIn(t) ==> Compare(EngineHand(t, x), EngineHand(t, s)) <= 0
  }

  lemma StrengthsCompare(t: Table, x: int, s: int)
    requires CardsOk(t) && t.street == River && x in StillIn(t) && s in StillIn(t) && SeatsOk(t)
    ensures SeatStrength(t, x) <= SeatStrength(t, s) <==> Compare(EngineHand(t, x), EngineHand(t, s)) <= 0
  {
    ContendersAreIn(t);
    ContendersArePlayers(t.seats, t.players);
    HandsShown(t, Contenders(t));
    hide CardsOk, Contenders, SeatStrength, Best, Encode, Compare;
    var c := Contenders(t);
    var i :| 0 <= i < |c| && c[i] == x;
    var j :| 0 <= j < |c| && c[j] == s;
    BestIsEncodable(ShownHands(t, c)[i]);
    BestIsEncodable(ShownHands(t, c)[j]);
    EncodeKeepsOrder(Best(ShownHands(t, c)[i]), Best(ShownHands(t, c)[j]));
  }

  /** At a showdown on the river both evaluators name the same takers. */
  lemma TakersAreEngineTakers(t: Table)
    requires SeatsOk(t) && (|StillIn(t)| > 1 ==> CardsOk(t) && t.street == River)
    ensures Takers(t) == EngineTakers(t)
  {
    StillInPlays(t);
    hide CardsOk, SeatStrength, EngineHand, Compare, StillIn;
    if |StillIn(t)| > 1 {
      forall s | s in StillIn(t)
        ensures s in Takers(t) <==> s in EngineTakers(t)
      {
        forall x | x in StillIn(t)
          ensures SeatStrength(t, x) <= SeatStrength(t, s) <==> Compare(EngineHand(t, x), EngineHand(t, s)) <= 0
        {
          StrengthsCompare(t, x, s);
        }
      }
    }
  }
}
