/** Whose turn it is at the gateway: the clockwise scan, and that nobody waits on a dead seat. */
module JavaTurns {
  import opened HoldemTypes
  import opened JavaRules

  // ----- the scan finds a pending seat exactly when there is one -----

  /** The position k places after p, going round n. */
  function Round(p: nat, k: nat, n: nat): (q: nat)
    requires p < n
    ensures q < n
    decreases k
  {
    if k == 0 then p else Round(if p + 1 == n then 0 else p + 1, k - 1, n)
  }

  function After(seats: seq<int>, p: nat, k: nat): int
    requires p < |seats|
  {
    seats[Round(p, k, |seats|)]
  }

  lemma {:induction false} IndexOfSeat(seats: seq<int>, p: nat)
    requires p < |seats| && forall i, j :: 0 <= i < j < |seats| ==> seats[i] < seats[j]
    ensures IndexOf(seats, seats[p]) == p
  {
    if p > 0 {
      assert seats[0] < seats[p];
      IndexOfSeat(seats[1..], p - 1);
    }
  }

  lemma {:induction false} RoundAhead(p: nat, k: nat, n: nat)
    requires p < n && k <= n
    ensures Round(p, k, n) == if p + k < n then p + k else p + k - n
    decreases k
  {
    if k > 0 {
      RoundAhead(if p + 1 == n then 0 else p + 1, k - 1, n);
    }
  }

  function Next(p: nat, n: nat): (q: nat)
    requires p < n
    ensures q < n
  {
    if p + 1 == n then 0 else p + 1
  }

  lemma NextIsRemainder(p: nat, n: nat)
    requires p < n
    ensures Next(p, n) == (p + 1) % n
  {
    if p + 1 < n {
      SmallRemainder(p + 1, n);
    }
  }

  lemma SmallRemainder(x: nat, n: nat)
    requires x < n
    ensures x % n == x
  {}

  lemma StepFrom(seats: seq<int>, p: nat)
    requires SeatList(seats) && p < |seats|
    ensures NextSeatFrom(seats, seats[p]) == seats[Next(p, |seats|)] == After(seats, p, 1)
  {
    IndexOfSeat(seats, p);
    NextIsRemainder(p, |seats|);
  }

  /** The scan from a taken seat: the first pending seat within n places clockwise, or -1. */
  ghost predicate FirstPending(seats: seq<int>, pending: set<int>, p: nat, n: nat, r: int)
    requires p < |seats|
  {
    if r == -1
    then forall k :: 1 <= k <= n ==> After(seats, p, k) !in pending
    else exists k: nat :: FirstAt(seats, pending, p, n, r, k)
  }

  ghost predicate FirstAt(seats: seq<int>, pending: set<int>, p: nat, n: nat, r: int, k: nat)
    requires p < |seats|
  {
    && 1 <= k <= n && After(seats, p, k) == r && r in pending
    && forall j :: 1 <= j < k ==> After(seats, p, j) !in pending
  }

  lemma AfterStep(seats: seq<int>, p: nat, k: nat)
    requires p < |seats|
    ensures After(seats, Next(p, |seats|), k) == After(seats, p, k + 1)
  {}

  lemma {:induction false} ScanFrom(seats: seq<int>, pending: set<int>, p: nat, n: nat)
    requires SeatList(seats) && p < |seats|
    ensures FirstPending(seats, pending, p, n, ScanPending(seats, pending, seats[p], n))
    decreases n
  {
    if n > 0 {
      StepFrom(seats, p);
      var q := Next(p, |seats|);
      if seats[q] !in pending {
        ScanFrom(seats, pending, q, n - 1);
        ScanShift(seats, pending, p, n, ScanPending(seats, pending, seats[q], n - 1));
      } else {
        assert FirstAt(seats, pending, p, n, seats[q], 1);
      }
    }
  }

  lemma ScanShift(seats: seq<int>, pending: set<int>, p: nat, n: nat, r: int)
    requires p < |seats| && n > 0 && After(seats, p, 1) !in pending
    requires FirstPending(seats, pending, Next(p, |seats|), n - 1, r)
    ensures FirstPending(seats, pending, p, n, r)
  {
    hide After;
    var q := Next(p, |seats|);
    if r == -1 {
      forall k | 1 <= k <= n
        ensures After(seats, p, k) !in pending
      {
        if k > 1 {
          AfterStep(seats, p, k - 1);
          assert After(seats, q, k - 1) !in pending;
        }
      }
    } else {
      var k: nat :| FirstAt(seats, pending, q, n - 1, r, k);
      AfterStep(seats, p, k);
      forall j | 1 <= j < k + 1
        ensures After(seats, p, j) !in pending
      {
        if j > 1 {
          AfterStep(seats, p, j - 1);
          assert After(seats, q, j - 1) !in pending;
        }
      }
      assert FirstAt(seats, pending, p, n, r, k + 1);
    }
  }

  /** Every taken seat is met within one round. */
  lemma RoundMeets(seats: seq<int>, p: nat, i: nat) returns (k: nat)
    requires p < |seats| && i < |seats|
    ensures 1 <= k <= |seats| && After(seats, p, k) == seats[i]
  {
    if i > p {
      k := i - p;
    } else {
      k := i - p + |seats|;
    }
    RoundAhead(p, k, |seats|);
  }

  lemma {:induction false} SeatsAreFew(seats: seq<int>, top: int)
    requires forall i :: 0 <= i < |seats| ==> 0 <= seats[i] < top
    requires forall i, j :: 0 <= i < j < |seats| ==> seats[i] < seats[j]
    ensures seats != [] ==> |seats| <= top
  {
    if |seats| > 1 {
      SeatsAreFew(seats[..|seats| - 1], seats[|seats| - 1]);
    }
  }

  /** nextPendingSeat finds a seat exactly when some pending seat is taken. */
  lemma NextPendingFinds(t: Table, current: int)
    requires SeatList(t.seats)
    ensures var r := NextPendingSeat(t, current);
      if exists s :: s in t.pending && s in t.seats then r in t.pending && r in t.seats && r >= 0 else r == -1
  {
    if t.pending != {} && t.seats != [] {
      SeatsAreFew(t.seats, SEATS);
      if current >= 0 && IndexOf(t.seats, current) < |t.seats| {
        ScanCovers(t.seats, t.pending, IndexOf(t.seats, current), SEATS + 1);
      } else if t.seats[0] !in t.pending {
        ScanCovers(t.seats, t.pending, 0, SEATS);
      }
    } else {
      if t.seats == [] {
        EmptyScan(t.pending, current, SEATS + 1);
      }
    }
  }

  lemma {:induction false} EmptyScan(pending: set<int>, idx: int, n: nat)
    ensures ScanPending([], pending, idx, n) == -1
    decreases n
  {
    if n > 0 {
      EmptyScan(pending, -1, n - 1);
    }
  }

  lemma ScanCovers(seats: seq<int>, pending: set<int>, p: nat, n: nat)
    requires SeatList(seats) && p < |seats| <= n
    ensures var r := ScanPending(seats, pending, seats[p], n);
      if exists s :: s in pending && s in seats then r in pending && r in seats && r >= 0 else r == -1
  {
    ScanFrom(seats, pending, p, n);
    hide ScanPending, Round;
    if s :| s in pending && s in seats {
      var i :| 0 <= i < |seats| && seats[i] == s;
      var k := RoundMeets(seats, p, i);
    }
  }
}
