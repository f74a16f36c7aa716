/**
  The showdown branch of finish_hand (main.cpp): evaluation rows, winner selection, the
  odd-chip order and the chip updates, each against the specification in Settlement.
  */
module EngineSettlement {
  import opened HoldemTypes
  import opened HoldemEvaluator
  import opened PotManager
  import opened Settlement
  import opened TableState

  datatype EvalRow = EvalRow(seat: int, hand: HandEval)

  ghost predicate DistinctRows(rows: seq<EvalRow>) {
    forall i, j :: 0 <= i < j < |rows| ==> rows[i].seat != rows[j].seat
  }

  function HandsOf(rows: seq<EvalRow>): (hands: Hands)
    requires DistinctRows(rows)
    ensures forall i :: 0 <= i < |rows| ==> rows[i].seat in hands && hands[rows[i].seat] == rows[i].hand
    ensures forall s :: s in hands ==> exists i :: 0 <= i < |rows| && rows[i].seat == s
  {
    if rows == [] then map[]
    else
      var init, last := rows[..|rows| - 1], rows[|rows| - 1];
      var hands := HandsOf(init)[last.seat := last.hand];
      assert forall i :: 0 <= i < |init| ==> init[i] == rows[i] && rows[i].seat != last.seat;
      assert rows[|rows| - 1].seat == last.seat;
      hands
  }

  /** Row i takes part in the pot. */
  ghost predicate Plays(rows: seq<EvalRow>, eligible: seq<int>, i: int) {
    0 <= i < |rows| && rows[i].seat in eligible
  }

  /** The first row holding a best hand among the eligible ones, or -1. */
  method BestRow(rows: seq<EvalRow>, eligible: seq<int>) returns (best: int)
    requires forall i :: 0 <= i < |rows| ==> Evaluated(rows[i].hand)
    ensures best == -1 ==> forall i :: 0 <= i < |rows| ==> !Plays(rows, eligible, i)
    ensures best != -1 ==> Plays(rows, eligible, best)
    ensures forall i :: best != -1 && Plays(rows, eligible, i) ==> Compare(rows[i].hand, rows[best].hand) <= 0
  {
    hide Compare, Evaluated;
    best := -1;
    for k := 0 to |rows|
      invariant best == -1 ==> forall i :: 0 <= i < k ==> !Plays(rows, eligible, i)
      invariant best != -1 ==> Plays(rows, eligible, best)
      invariant forall i :: best != -1 && i < k && Plays(rows, eligible, i) ==> Compare(rows[i].hand, rows[best].hand) <= 0
    {
      if rows[k].seat in eligible {
        CompareIsTotalPreorder(rows[k].hand, rows[k].hand, rows[k].hand);
        if best == -1 {
          best := k;
        } else {
          var c := CompareHands(rows[k].hand, rows[best].hand);
          if c > 0 {
            forall i | i < k && Plays(rows, eligible, i) ensures Compare(rows[i].hand, rows[k].hand) <= 0 {
              NewBestBeats(rows[k].hand, rows[best].hand, rows[i].hand);
            }
            best := k;
          }
        }
      }
    }
  }

  /** The winning seats, in row order: the eligible rows that tie with the best one. */
  method PotWinners(rows: seq<EvalRow>, eligible: seq<int>) returns (winners: seq<int>)
    requires DistinctRows(rows) && forall i :: 0 <= i < |rows| ==> Evaluated(rows[i].hand)
    ensures NoRepeats(winners)
    ensures forall s :: s in winners <==> s in Winners(HandsOf(rows), eligible)
  {
    var best := BestRow(rows, eligible);
    winners := [];
    if best != -1 {
      for k := 0 to |rows|
        invariant NoRepeats(winners)
        invariant forall s :: s in winners ==> exists i :: 0 <= i < k && rows[i].seat == s
        invariant forall s :: s in winners <==>
                    exists i :: i < k && Plays(rows, eligible, i) && rows[i].seat == s
                             && Compare(rows[i].hand, rows[best].hand) == 0
      {
        if rows[k].seat in eligible {
          var c := CompareHands(rows[k].hand, rows[best].hand);
          if c == 0 {
            assert rows[k].seat !in winners;
            winners := winners + [rows[k].seat];
          }
        }
      }
    }
    WinnersAreTheTies(rows, eligible, best, winners);
  }

  lemma WinnersAreTheTies(rows: seq<EvalRow>, eligible: seq<int>, best: int, winners: seq<int>)
    requires DistinctRows(rows) && forall i :: 0 <= i < |rows| ==> Evaluated(rows[i].hand)
    requires best == -1 ==> winners == [] && forall i :: 0 <= i < |rows| ==> !Plays(rows, eligible, i)
    requires best != -1 ==>
      && Plays(rows, eligible, best)
      && (forall i :: Plays(rows, eligible, i) ==> Compare(rows[i].hand, rows[best].hand) <= 0)
      && (forall s :: s in winners <==>
            exists i :: i < |rows| && Plays(rows, eligible, i) && rows[i].seat == s
                     && Compare(rows[i].hand, rows[best].hand) == 0)
    ensures forall s :: s in winners <==> s in Winners(HandsOf(rows), eligible)
  {
    hide Compare, Evaluated;
    var hands := HandsOf(rows);
    forall s ensures s in winners <==> s in Winners(hands, eligible) {
      if s in winners {
        var i :| i < |rows| && Plays(rows, eligible, i) && rows[i].seat == s
              && Compare(rows[i].hand, rows[best].hand) == 0;
        CompareIsTotalPreorder(rows[i].hand, rows[best].hand, rows[best].hand);
        assert hands[s] == hands[rows[best].seat];
      }
      if s in Winners(hands, eligible) {
        var i :| 0 <= i < |rows| && rows[i].seat == s;
        assert Plays(rows, eligible, i);
        assert rows[best].seat in hands && rows[best].seat in eligible;
        assert Compare(rows[best].hand, rows[i].hand) <= 0;
        CompareIsTotalPreorder(rows[i].hand, rows[best].hand, rows[best].hand);
      }
    }
  }

  // ----- winners_by_odd_chip_priority -----

  function InsertByDistance(dealer: int, x: int, s: seq<int>): (r: seq<int>)
    requires InDistanceOrder(dealer, s) && forall y :: y in s ==> Distance(dealer, y) != Distance(dealer, x)
    ensures InDistanceOrder(dealer, r)
    ensures forall y :: y in r <==> y == x || y in s
  {
    if s == [] || Distance(dealer, x) < Distance(dealer, s[0]) then [x] + s
    else
      assert s == [s[0]] + s[1..];
      var tail := InsertByDistance(dealer, x, s[1..]);
      assert forall i :: 0 <= i < |tail| ==> tail[i] in tail;
      assert s[0] in s;
      [s[0]] + tail
  }

  lemma DistanceSeparates(dealer: int, a: int, b: int)
    requires 0 <= a < SEATS && 0 <= b < SEATS && Distance(dealer, a) == Distance(dealer, b)
    ensures a == b
  {}

  /** std::sort by distance from the first seat after the dealer. */
  method WinnersByOddChipPriority(dealer: int, winners: seq<int>) returns (ordered: seq<int>)
    requires 0 <= dealer < SEATS && NoRepeats(winners)
    requires forall s :: s in winners ==> 0 <= s < SEATS
    ensures ordered == Clockwise(dealer, set s | s in winners, 1)
  {
    hide Distance;
    ordered := [];
    for k := 0 to |winners|
      invariant InDistanceOrder(dealer, ordered)
      invariant forall s :: s in ordered <==> s in winners[..k]
    {
      forall y | y in ordered ensures Distance(dealer, y) != Distance(dealer, winners[k]) {
        var i :| 0 <= i < k && winners[i] == y;
        assert winners[i] in winners && winners[k] in winners;
        if Distance(dealer, y) == Distance(dealer, winners[k]) {
          DistanceSeparates(dealer, y, winners[k]);
        }
      }
      ordered := InsertByDistance(dealer, winners[k], ordered);
    }
    SortedIsClockwise(dealer, winners, ordered);
  }

  lemma SortedIsClockwise(dealer: int, winners: seq<int>, ordered: seq<int>)
    requires 0 <= dealer < SEATS && forall s :: s in winners ==> 0 <= s < SEATS
    requires InDistanceOrder(dealer, ordered) && forall s :: s in ordered <==> s in winners
    ensures ordered == Clockwise(dealer, set s | s in winners, 1)
  {
    hide Clockwise;
    var w := set s | s in winners;
    ClockwiseMembers(dealer, w, 1);
    ClockwiseOrdered(dealer, w, 1);
    forall s ensures s in ordered <==> s in Clockwise(dealer, w, 1) {
      if s in winners { DistanceInRange(dealer, s); }
    }
    DistanceOrderUnique(dealer, ordered, Clockwise(dealer, w, 1));
  }

  lemma DistanceInRange(dealer: int, s: int)
    ensures 0 <= Distance(dealer, s) < SEATS
  {}

  // ----- paying the winners -----

  /** The players with each seat's chips raised by what `credit` gives it. */
  ghost predicate Paid(before: Players, after: Players, credit: int -> int) {
    && after.Keys == before.Keys
    && forall s :: s in before ==> after[s] == before[s].(chips := before[s].chips + credit(s))
  }

  /** `chips += amount` for each of the seats in turn. */
  method AddToEach(players: Players, seats: seq<int>, amount: int) returns (paid: Players)
    requires NoRepeats(seats) && forall s :: s in seats ==> s in players
    ensures Paid(players, paid, s => if s in seats then amount else 0)
  {
    paid := players;
    for k := 0 to |seats|
      invariant Paid(players, paid, s => if s in seats[..k] then amount else 0)
    {
      var s := seats[k];
      assert s in seats && s !in seats[..k];
      assert seats[..k + 1] == seats[..k] + [s];
      paid := paid[s := paid[s].(chips := paid[s].chips + amount)];
    }
    assert seats[..|seats|] == seats;
  }

  /** The share for every winner, then one odd chip each down the order until they run out. */
  method PaySplit(players: Players, winners: seq<int>, order: seq<int>, share: int, odd: int)
    returns (paid: Players)
    requires NoRepeats(winners) && NoRepeats(order) && 0 <= odd <= |order|
    requires forall s :: s in winners <==> s in order
    requires forall s :: s in winners ==> s in players
    ensures Paid(players, paid, s => SplitCredit(order, share, odd, s))
  {
    hide SplitCredit;
    var shared := AddToEach(players, winners, share);
    assert forall s :: s in order[..odd] ==> s in order;
    paid := AddToEach(shared, order[..odd], 1);
    forall s ensures SplitCredit(order, share, odd, s) == (if s in order then share else 0) + (if s in order[..odd] then 1 else 0) {
      SplitCreditByPlace(order, share, odd, s);
    }
  }

  lemma SplitCreditByPlace(order: seq<int>, share: int, odd: int, s: int)
    requires NoRepeats(order) && 0 <= odd <= |order|
    ensures SplitCredit(order, share, odd, s) == (if s in order then share else 0) + (if s in order[..odd] then 1 else 0)
  {
    hide SplitCredit;
    if s in order {
      var k :| 0 <= k < |order| && order[k] == s;
      OddChipsGoLeftOfDealer(order, share, odd, k);
      assert s in order[..odd] <==> k < odd;
    } else {
      NotInOrderNoCredit(order, share, odd, s);
    }
  }

  /** One pot: skipped when no evaluated seat is eligible, otherwise split among the winners. */
  method PayPot(players: Players, rows: seq<EvalRow>, dealer: int, pot: Pot) returns (paid: Players)
    requires DistinctRows(rows) && ValidHands(HandsOf(rows)) && 0 <= dealer < SEATS && pot.amount >= 0
    requires forall i :: 0 <= i < |rows| ==> rows[i].seat in players
    ensures Paid(players, paid, s => PotCredit(HandsOf(rows), dealer, pot, s))
  {
    hide Clockwise, SplitCredit, Winners, Evaluated;
    ghost var hands := HandsOf(rows);
    forall i | 0 <= i < |rows| ensures Evaluated(rows[i].hand) {
      assert hands[rows[i].seat] == rows[i].hand;
    }
    var winners := PotWinners(rows, pot.eligible);
    OrderIsTheWinners(hands, dealer, pot);
    assert (set s | s in winners) == Winners(hands, pot.eligible);
    var order := WinnersByOddChipPriority(dealer, winners);
    ClockwiseNoRepeats(dealer, Winners(hands, pot.eligible));
    SameLength(winners, order);
    if winners == [] {
      assert |order| == 0;
      return players;
    }
    WinnersAreEvaluated(hands, pot.eligible);
    forall s | s in winners ensures s in players {
      var i :| 0 <= i < |rows| && rows[i].seat == s;
    }
    paid := PaySplit(players, winners, order, pot.amount / |winners|, pot.amount % |winners|);
  }

  lemma WinnersAreEvaluated(hands: Hands, eligible: seq<int>)
    ensures forall s :: s in Winners(hands, eligible) ==> s in hands
  {}

  lemma ClockwiseNoRepeats(dealer: int, w: set<int>)
    requires 0 <= dealer < SEATS
    ensures NoRepeats(Clockwise(dealer, w, 1))
  {
    hide Clockwise, Distance;
    ClockwiseOrdered(dealer, w, 1);
  }

  /** Two repetition-free sequences over the same elements are equally long. */
  lemma SameLength(a: seq<int>, b: seq<int>)
    requires NoRepeats(a) && NoRepeats(b) && forall s :: s in a <==> s in b
    ensures |a| == |b|
  {
    LengthIsSize(a);
    LengthIsSize(b);
    assert (set s | s in a) == (set s | s in b);
  }

  /** All pots in turn. */
  method PayPots(players: Players, rows: seq<EvalRow>, dealer: int, pots: seq<Pot>) returns (paid: Players)
    requires DistinctRows(rows) && ValidHands(HandsOf(rows)) && 0 <= dealer < SEATS
    requires forall k :: 0 <= k < |pots| ==> pots[k].amount >= 0
    requires forall i :: 0 <= i < |rows| ==> rows[i].seat in players
    ensures Paid(players, paid, s => Payout(HandsOf(rows), dealer, pots, s))
  {
    hide PotCredit, ValidHands, HandsOf;
    paid := players;
    for k := 0 to |pots|
      invariant Paid(players, paid, s => Payout(HandsOf(rows), dealer, pots[..k], s))
    {
      assert pots[..k + 1][..k] == pots[..k];
      paid := PayPot(paid, rows, dealer, pots[k]);
    }
    assert pots[..|pots|] == pots;
  }
}
