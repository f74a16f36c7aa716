/**
  The matching loop (MatchmakingService.maybeMatchBeans): sweeps over one tier's queue with
  entries taken out in place.  The clock and the outcome of creating a room are inputs, and
  both may change from one call to the next.
  */
module Matchmaking {
  import opened Common

  const THRESHOLD := 2

  datatype BeanEntry = BeanEntry(userId: int, beans: int, mmr: int, queuedAt: int)

  /** Dropped: logged and skipped.  The two Threw cases end the call with an exception. */
  datatype Outcome = Started | Dropped | StartedThenThrew | DroppedThenThrew

  /** A group as it was taken from the queue; `tick` is the clock reading that gave `range`. */
  datatype Group = Group(anchor: BeanEntry, range: int, tick: nat, members: seq<BeanEntry>)

  datatype Matching = Matching(
    queue: seq<BeanEntry>, matched: seq<Group>, dropped: seq<Group>,
    ticks: nat, matchedAny: bool, threw: bool)

  /** Milliseconds at each clock reading, and the outcome of each group in turn. */
  datatype World = World(clock: nat -> int, outcome: nat -> Outcome)

  function Abs(x: int): int {
    if x < 0 then -x else x
  }

  function CurrentMmrRange(now: int, queuedAt: int): int {
    var waited := Max(0, now - queuedAt);
    if waited < 5000 then 120 else if waited < 15000 then 260 else 1200
  }

  // ----- the queue -----

  function Insert(e: BeanEntry, q: seq<BeanEntry>): seq<BeanEntry> {
    if q == [] || e.queuedAt <= q[0].queuedAt then [e] + q else [q[0]] + Insert(e, q[1..])
  }

  /** Stable sort by arrival time. */
  function SortedByArrival(q: seq<BeanEntry>): seq<BeanEntry> {
    if q == [] then [] else Insert(q[0], SortedByArrival(q[1..]))
  }

  predicate Compatible(q: seq<BeanEntry>, anchor: nat, range: int, i: nat)
    requires anchor < |q| && i < |q|
  {
    i != anchor && Abs(q[i].mmr - q[anchor].mmr) <= range
  }

  /** The positions picked after the inner loop has looked at the first n. */
  function Picked(q: seq<BeanEntry>, anchor: nat, range: int, n: nat): seq<nat>
    requires anchor < |q| && n <= |q|
  {
    if n == 0 then [anchor]
    else
      var before := Picked(q, anchor, range, n - 1);
      if |before| < THRESHOLD && Compatible(q, anchor, range, n - 1) then before + [n - 1] else before
  }

  function RemoveAt(q: seq<BeanEntry>, i: nat): seq<BeanEntry>
    requires i < |q|
  {
    q[..i] + q[i + 1..]
  }

  ghost predicate Falling(positions: seq<nat>, bound: nat) {
    && (forall k :: 0 <= k < |positions| ==> positions[k] < bound)
    && forall j, k :: 0 <= j < k < |positions| ==> positions[j] > positions[k]
  }

  /** Removing positions one after the other, highest first. */
  function RemoveAll(q: seq<BeanEntry>, positions: seq<nat>): (r: seq<BeanEntry>)
    requires Falling(positions, |q|)
    ensures |r| == |q| - |positions|
  {
    if positions == [] then q
    else
      assert Falling(positions[1..], positions[0]);
      RemoveAll(RemoveAt(q, positions[0]), positions[1..])
  }

  function InsertFalling(x: nat, s: seq<nat>): seq<nat> {
    if s == [] || x >= s[0] then [x] + s else [s[0]] + InsertFalling(x, s[1..])
  }

  function ReverseSorted(s: seq<nat>): seq<nat> {
    if s == [] then [] else InsertFalling(s[0], ReverseSorted(s[1..]))
  }

  function EntriesAt(q: seq<BeanEntry>, positions: seq<nat>): (r: seq<BeanEntry>)
    requires forall k :: 0 <= k < |positions| ==> positions[k] < |q|
    ensures |r| == |positions|
  {
    if positions == [] then [] else [q[positions[0]]] + EntriesAt(q, positions[1..])
  }

  // ----- sorting and removing keep the entries -----

  lemma {:induction false} InsertKeeps(e: BeanEntry, q: seq<BeanEntry>)
    ensures multiset(Insert(e, q)) == multiset{e} + multiset(q)
  {
    if q != [] {
      assert q == [q[0]] + q[1..];
      InsertKeeps(e, q[1..]);
    }
  }

  lemma {:induction false} SortKeeps(q: seq<BeanEntry>)
    ensures multiset(SortedByArrival(q)) == multiset(q)
    ensures |SortedByArrival(q)| == |q|
  {
    if q != [] {
      assert q == [q[0]] + q[1..];
      SortKeeps(q[1..]);
      InsertKeeps(q[0], SortedByArrival(q[1..]));
    }
    assert |multiset(SortedByArrival(q))| == |multiset(q)|;
  }

  ghost predicate InArrivalOrder(q: seq<BeanEntry>) {
    forall j, k :: 0 <= j < k < |q| ==> q[j].queuedAt <= q[k].queuedAt
  }

  lemma {:induction false} InsertOrders(e: BeanEntry, q: seq<BeanEntry>)
    requires InArrivalOrder(q)
    ensures InArrivalOrder(Insert(e, q))
    ensures forall k :: 0 <= k < |Insert(e, q)| ==>
      Insert(e, q)[k].queuedAt >= e.queuedAt || (q != [] && Insert(e, q)[k].queuedAt >= q[0].queuedAt)
  {
    if q != [] && e.queuedAt > q[0].queuedAt {
      InsertOrders(e, q[1..]);
    }
  }

  lemma {:induction false} SortOrders(q: seq<BeanEntry>)
    ensures InArrivalOrder(SortedByArrival(q))
  {
    if q != [] {
      SortOrders(q[1..]);
      InsertOrders(q[0], SortedByArrival(q[1..]));
    }
  }

  lemma RemoveAtKeeps(q: seq<BeanEntry>, i: nat)
    requires i < |q|
    ensures multiset(q) == multiset(RemoveAt(q, i)) + multiset{q[i]}
  {
    assert q == q[..i] + [q[i]] + q[i + 1..];
  }

  lemma {:induction false} EntriesBelow(q: seq<BeanEntry>, r: seq<BeanEntry>, positions: seq<nat>, bound: nat)
    requires Falling(positions, bound) && bound <= |q| && bound <= |r| && q[..bound] == r[..bound]
    ensures EntriesAt(q, positions) == EntriesAt(r, positions)
  {
    if positions != [] {
      assert q[..bound][positions[0]] == r[..bound][positions[0]];
      EntriesBelow(q, r, positions[1..], bound);
    }
  }

  lemma {:induction false} RemoveAllKeeps(q: seq<BeanEntry>, positions: seq<nat>)
    requires Falling(positions, |q|)
    ensures multiset(q) == multiset(RemoveAll(q, positions)) + multiset(EntriesAt(q, positions))
  {
    if positions != [] {
      var i := positions[0];
      var r := RemoveAt(q, i);
      assert Falling(positions[1..], i);
      RemoveAtKeeps(q, i);
      RemoveAllKeeps(r, positions[1..]);
      assert r[..i] == q[..i];
      EntriesBelow(q, r, positions[1..], i);
    }
  }

  // ----- picking -----

  /** The anchor comes first; the others are distinct compatible positions, in queue order. */
  lemma {:induction false} PickedShape(q: seq<BeanEntry>, anchor: nat, range: int, n: nat)
    requires anchor < |q| && n <= |q|
    ensures var p := Picked(q, anchor, range, n);
      && 1 <= |p| <= THRESHOLD && p[0] == anchor
      && (forall k :: 1 <= k < |p| ==> p[k] < n && Compatible(q, anchor, range, p[k]))
      && (forall j, k :: 0 <= j < k < |p| ==> p[j] != p[k])
  {
    if n > 0 {
      PickedShape(q, anchor, range, n - 1);
    }
  }

  /** Too few were picked exactly when too few entries are compatible. */
  lemma {:induction false} PickedMisses(q: seq<BeanEntry>, anchor: nat, range: int, n: nat, i: nat)
    requires anchor < |q| && i < n <= |q| && Compatible(q, anchor, range, i)
    ensures |Picked(q, anchor, range, n)| == THRESHOLD || i in Picked(q, anchor, range, n)
  {
    PickedShape(q, anchor, range, n - 1);
    if i < n - 1 {
      PickedMisses(q, anchor, range, n - 1, i);
    }
  }

  ghost predicate HasPeers(q: seq<BeanEntry>, anchor: nat, range: int)
    requires anchor < |q|
  {
    exists i: nat :: i < |q| && Compatible(q, anchor, range, i)
  }

  lemma PickedIffPeers(q: seq<BeanEntry>, anchor: nat, range: int)
    requires anchor < |q|
    ensures |Picked(q, anchor, range, |q|)| >= THRESHOLD <==> HasPeers(q, anchor, range)
  {
    PickedShape(q, anchor, range, |q|);
    var p := Picked(q, anchor, range, |q|);
    if |p| >= THRESHOLD {
      assert Compatible(q, anchor, range, p[1]);
    }
    if HasPeers(q, anchor, range) {
      var i: nat :| i < |q| && Compatible(q, anchor, range, i);
      PickedMisses(q, anchor, range, |q|, i);
    }
  }

  lemma {:induction false} InsertFalls(x: nat, s: seq<nat>, bound: nat)
    requires Falling(s, bound) && x < bound && x !in s
    ensures Falling(InsertFalling(x, s), bound) && |InsertFalling(x, s)| == |s| + 1
    ensures multiset(InsertFalling(x, s)) == multiset{x} + multiset(s)
  {
    if s != [] && x < s[0] {
      assert s == [s[0]] + s[1..];
      assert Falling(s[1..], s[0]);
      InsertFalls(x, s[1..], s[0]);
    }
  }

  lemma {:induction false} ReverseSortFalls(s: seq<nat>, bound: nat)
    requires forall k :: 0 <= k < |s| ==> s[k] < bound
    requires forall j, k :: 0 <= j < k < |s| ==> s[j] != s[k]
    ensures Falling(ReverseSorted(s), bound) && |ReverseSorted(s)| == |s|
    ensures multiset(ReverseSorted(s)) == multiset(s)
  {
    if s != [] {
      assert s == [s[0]] + s[1..];
      ReverseSortFalls(s[1..], bound);
      assert s[0] !in multiset(s[1..]);
      assert s[0] !in ReverseSorted(s[1..]);
      InsertFalls(s[0], ReverseSorted(s[1..]), bound);
    }
  }

  /** The picked positions, highest first, as the loop removes them. */
  lemma PickedFalls(q: seq<BeanEntry>, anchor: nat, range: int)
    requires anchor < |q|
    ensures var p := Picked(q, anchor, range, |q|);
      && Falling(ReverseSorted(p), |q|) && |ReverseSorted(p)| == |p|
      && multiset(ReverseSorted(p)) == multiset(p)
  {
    PickedShape(q, anchor, range, |q|);
    ReverseSortFalls(Picked(q, anchor, range, |q|), |q|);
  }

  // ----- the two loops -----

  /** Takes the picked group out of the queue and books it under its outcome. */
  function Take(m: Matching, anchor: nat, range: int, o: Outcome): (r: Matching)
    requires anchor < |m.queue|
    requires |Picked(m.queue, anchor, range, |m.queue|)| == THRESHOLD
    ensures |r.queue| == |m.queue| - THRESHOLD
  {
    PickedFalls(m.queue, anchor, range);
    var positions := ReverseSorted(Picked(m.queue, anchor, range, |m.queue|));
    var g := Group(m.queue[anchor], range, m.ticks, EntriesAt(m.queue, positions));
    var started := o == Started || o == StartedThenThrew;
    m.(queue := RemoveAll(m.queue, positions),
       matched := if started then m.matched + [g] else m.matched,
       dropped := if started then m.dropped else m.dropped + [g],
       ticks := m.ticks + 1,
       matchedAny := o == Started,
       threw := o == StartedThenThrew || o == DroppedThenThrew)
  }

  function RangeNow(m: Matching, anchor: nat, w: World): int
    requires anchor < |m.queue|
  {
    CurrentMmrRange(w.clock(m.ticks), m.queue[anchor].queuedAt)
  }

  predicate Groups(m: Matching, anchor: nat, w: World)
    requires anchor < |m.queue|
  {
    PickedShape(m.queue, anchor, RangeNow(m, anchor, w), |m.queue|);
    |Picked(m.queue, anchor, RangeNow(m, anchor, w), |m.queue|)| == THRESHOLD
  }

  function OutcomeNow(m: Matching, w: World): Outcome {
    w.outcome(|m.matched| + |m.dropped|)
  }

  /** One pass over the anchors; a dropped group does not end it, and its entries stay out. */
  function Sweep(m: Matching, anchor: nat, w: World): (r: Matching)
    ensures |r.queue| <= |m.queue|
    ensures r.matchedAny && !m.matchedAny ==> |r.queue| < |m.queue|
    decreases |m.queue| - anchor
  {
    if anchor >= |m.queue| then m
    else if !Groups(m, anchor, w) then Sweep(m.(ticks := m.ticks + 1), anchor + 1, w)
    else
      var t := Take(m, anchor, RangeNow(m, anchor, w), OutcomeNow(m, w));
      if OutcomeNow(m, w) == Dropped then Sweep(t, anchor + 1, w) else t
  }

  function Sorted(m: Matching): (r: Matching)
    ensures |r.queue| == |m.queue| && !r.matchedAny
  {
    SortKeeps(m.queue);
    m.(queue := SortedByArrival(m.queue), matchedAny := false)
  }

  function Sweeps(m: Matching, w: World): Matching
    decreases |m.queue|, m.matchedAny
  {
    if m.threw || !m.matchedAny || |m.queue| < THRESHOLD then m
    else Sweeps(Sweep(Sorted(m), 0, w), w)
  }

  // ----- nobody is lost or grouped twice -----

  ghost function Members(groups: seq<Group>): multiset<BeanEntry> {
    if groups == [] then multiset{}
    else Members(groups[..|groups| - 1]) + multiset(groups[|groups| - 1].members)
  }

  /** Everyone the matching has seen. */
  ghost function Everyone(m: Matching): multiset<BeanEntry> {
    multiset(m.queue) + Members(m.matched) + Members(m.dropped)
  }

  lemma MembersAppend(gs: seq<Group>, g: Group)
    ensures Members(gs + [g]) == Members(gs) + multiset(g.members)
  {
    assert (gs + [g])[..|gs|] == gs;
  }

  lemma TakeKeeps(m: Matching, anchor: nat, range: int, o: Outcome)
    requires anchor < |m.queue| && |Picked(m.queue, anchor, range, |m.queue|)| == THRESHOLD
    ensures Everyone(Take(m, anchor, range, o)) == Everyone(m)
  {
    hide Picked, ReverseSorted;
    PickedFalls(m.queue, anchor, range);
    var positions := ReverseSorted(Picked(m.queue, anchor, range, |m.queue|));
    RemoveAllKeeps(m.queue, positions);
    var g := Group(m.queue[anchor], range, m.ticks, EntriesAt(m.queue, positions));
    MembersAppend(m.matched, g);
    MembersAppend(m.dropped, g);
    hide RemoveAll, EntriesAt, Members, Falling;
  }

  lemma {:induction false} SweepKeeps(m: Matching, anchor: nat, w: World)
    ensures Everyone(Sweep(m, anchor, w)) == Everyone(m)
    decreases |m.queue| - anchor
  {
    hide Picked, RangeNow, OutcomeNow, Members;
    if anchor < |m.queue| {
      if !Groups(m, anchor, w) {
        SweepKeeps(m.(ticks := m.ticks + 1), anchor + 1, w);
      } else {
        TakeStep(m, anchor, w);
      }
    }
  }

  lemma TakeStep(m: Matching, anchor: nat, w: World)
    requires anchor < |m.queue| && Groups(m, anchor, w)
    ensures Everyone(Sweep(m, anchor, w)) == Everyone(m)
    decreases |m.queue| - anchor, 0
  {
    hide Picked, RangeNow, OutcomeNow, Members;
    var o := OutcomeNow(m, w);
    var t := Take(m, anchor, RangeNow(m, anchor, w), o);
    TakeKeeps(m, anchor, RangeNow(m, anchor, w), o);
    hide Take, Groups, Everyone;
    if o == Dropped {
      SweepKeeps(t, anchor + 1, w);
    }
  }

  /**
    The loop ends, and the entries it started with are exactly those still queued, those
    matched and those dropped, each counted once.
    */
  lemma {:induction false} SweepsPartition(m: Matching, w: World)
    ensures Everyone(Sweeps(m, w)) == Everyone(m)
    decreases |m.queue|, m.matchedAny
  {
    if !m.threw && m.matchedAny && |m.queue| >= THRESHOLD {
      SortKeeps(m.queue);
      assert Everyone(Sorted(m)) == Everyone(m);
      SweepKeeps(Sorted(m), 0, w);
      SweepsPartition(Sweep(Sorted(m), 0, w), w);
    }
  }

  // ----- every group is a proper one -----

  /** a accepts a gap in rating of 120, of 260 after five seconds in the queue, and of 1200 after fifteen. */
  ghost predicate Reaches(now: int, a: BeanEntry, b: BeanEntry) {
    var gap, waited := if a.mmr > b.mmr then a.mmr - b.mmr else b.mmr - a.mmr, now - a.queuedAt;
    gap <= 120 || (waited >= 5000 && gap <= 260) || (waited >= 15000 && gap <= 1200)
  }

  lemma RangeMeans(now: int, q: seq<BeanEntry>, anchor: nat, i: nat)
    requires anchor < |q| && i < |q|
    ensures Compatible(q, anchor, CurrentMmrRange(now, q[anchor].queuedAt), i) <==> i != anchor && Reaches(now, q[anchor], q[i])
    ensures CurrentMmrRange(now, q[anchor].queuedAt) >= 0
  {}

  /** Two entries, the anchor one of them, which reached the other at the time. */
  ghost predicate ProperGroup(g: Group, w: World) {
    && |g.members| == 2
    && g.anchor in g.members
    && forall k :: 0 <= k < |g.members| ==> Reaches(w.clock(g.tick), g.anchor, g.members[k])
  }

  ghost predicate ProperGroups(m: Matching, w: World) {
    && (forall k :: 0 <= k < |m.matched| ==> ProperGroup(m.matched[k], w))
    && forall k :: 0 <= k < |m.dropped| ==> ProperGroup(m.dropped[k], w)
  }

  lemma {:induction false} EntryAt(q: seq<BeanEntry>, positions: seq<nat>, k: nat)
    requires k < |positions| && forall j :: 0 <= j < |positions| ==> positions[j] < |q|
    ensures EntriesAt(q, positions)[k] == q[positions[k]]
  {
    if k > 0 {
      EntryAt(q, positions[1..], k - 1);
    }
  }

  lemma PickedInRange(q: seq<BeanEntry>, anchor: nat, range: int, i: nat)
    requires anchor < |q| && range >= 0 && i in Picked(q, anchor, range, |q|)
    ensures i < |q| && Abs(q[i].mmr - q[anchor].mmr) <= range
  {
    PickedShape(q, anchor, range, |q|);
    hide Picked;
  }

  lemma FallingIndex(positions: seq<nat>, p: seq<nat>, i: nat) returns (k: nat)
    requires multiset(positions) == multiset(p) && i in p
    ensures k < |positions| && positions[k] == i
  {
    assert i in multiset(positions);
    k :| 0 <= k < |positions| && positions[k] == i;
  }

  lemma TakenGroupIsProper(q: seq<BeanEntry>, anchor: nat, range: int, positions: seq<nat>)
    requires anchor < |q| && range >= 0 && Falling(positions, |q|)
    requires multiset(positions) == multiset(Picked(q, anchor, range, |q|))
    ensures var members := EntriesAt(q, positions);
      && q[anchor] in members
      && forall k :: 0 <= k < |members| ==> Abs(members[k].mmr - q[anchor].mmr) <= range
  {
    var p := Picked(q, anchor, range, |q|);
    assert anchor in p by {
      PickedShape(q, anchor, range, |q|);
    }
    hide Picked, Abs, EntriesAt;
    var members := EntriesAt(q, positions);
    forall k | 0 <= k < |members|
      ensures Abs(members[k].mmr - q[anchor].mmr) <= range
    {
      MemberInRange(q, anchor, range, positions, k);
    }
    var k := FallingIndex(positions, p, anchor);
    EntryAt(q, positions, k);
  }

  lemma MemberInRange(q: seq<BeanEntry>, anchor: nat, range: int, positions: seq<nat>, k: nat)
    requires anchor < |q| && range >= 0 && Falling(positions, |q|) && k < |positions|
    requires multiset(positions) == multiset(Picked(q, anchor, range, |q|))
    ensures Abs(EntriesAt(q, positions)[k].mmr - q[anchor].mmr) <= range
  {
    hide Picked, Abs;
    EntryAt(q, positions, k);
    assert positions[k] in multiset(positions);
    PickedInRange(q, anchor, range, positions[k]);
  }

  lemma GroupReaches(g: Group, w: World, now: int, range: int)
    requires now == w.clock(g.tick) && range == CurrentMmrRange(now, g.anchor.queuedAt)
    requires |g.members| == 2 && g.anchor in g.members
    requires forall k :: 0 <= k < |g.members| ==> Abs(g.members[k].mmr - g.anchor.mmr) <= range
    ensures ProperGroup(g, w)
  {}

  lemma AppendProper(gs: seq<Group>, g: Group, w: World)
    requires ProperGroup(g, w) && forall k :: 0 <= k < |gs| ==> ProperGroup(gs[k], w)
    ensures forall k :: 0 <= k < |gs + [g]| ==> ProperGroup((gs + [g])[k], w)
  {
    hide ProperGroup;
  }

  lemma TakeIsProper(m: Matching, anchor: nat, w: World, o: Outcome)
    requires ProperGroups(m, w) && anchor < |m.queue| && Groups(m, anchor, w)
    ensures ProperGroups(Take(m, anchor, RangeNow(m, anchor, w), o), w)
  {
    var range := RangeNow(m, anchor, w);
    PickedFalls(m.queue, anchor, range);
    var positions := ReverseSorted(Picked(m.queue, anchor, range, |m.queue|));
    TakenGroupIsProper(m.queue, anchor, range, positions);
    var g := Group(m.queue[anchor], range, m.ticks, EntriesAt(m.queue, positions));
    GroupReaches(g, w, w.clock(m.ticks), range);
    AppendProper(m.matched, g, w);
    AppendProper(m.dropped, g, w);
    hide Picked, ReverseSorted, RemoveAll, EntriesAt, ProperGroup, Groups, RangeNow;
  }

  lemma {:induction false} SweepIsProper(m: Matching, anchor: nat, w: World)
    requires ProperGroups(m, w)
    ensures ProperGroups(Sweep(m, anchor, w), w)
    decreases |m.queue| - anchor
  {
    hide Picked, RangeNow, OutcomeNow, ProperGroup, ReverseSorted, RemoveAll, EntriesAt;
    if anchor < |m.queue| {
      if !Groups(m, anchor, w) {
        hide Groups;
        SweepIsProper(m.(ticks := m.ticks + 1), anchor + 1, w);
      } else {
        var o := OutcomeNow(m, w);
        var t := Take(m, anchor, RangeNow(m, anchor, w), o);
        TakeIsProper(m, anchor, w, o);
        hide Take, Groups, ProperGroups;
        if o == Dropped {
          SweepIsProper(t, anchor + 1, w);
        }
      }
    }
  }

  lemma {:induction false} EveryGroupIsProper(m: Matching, w: World)
    requires ProperGroups(m, w)
    ensures ProperGroups(Sweeps(m, w), w)
    decreases |m.queue|, m.matchedAny
  {
    if !m.threw && m.matchedAny && |m.queue| >= THRESHOLD {
      SweepIsProper(Sorted(m), 0, w);
      EveryGroupIsProper(Sweep(Sorted(m), 0, w), w);
    }
  }

  // ----- nothing is left to match -----

  lemma {:induction false} SweepGrows(m: Matching, anchor: nat, w: World)
    ensures |Sweep(m, anchor, w).dropped| >= |m.dropped|
    decreases |m.queue| - anchor
  {
    hide Picked, ReverseSorted, RemoveAll, EntriesAt, RangeNow, OutcomeNow;
    if anchor < |m.queue| {
      if !Groups(m, anchor, w) {
        SweepGrows(m.(ticks := m.ticks + 1), anchor + 1, w);
      } else if OutcomeNow(m, w) == Dropped {
        SweepGrows(Take(m, anchor, RangeNow(m, anchor, w), Dropped), anchor + 1, w);
      }
    }
  }

  lemma {:induction false} SweepsGrow(m: Matching, w: World)
    ensures |Sweeps(m, w).dropped| >= |m.dropped|
    decreases |m.queue|, m.matchedAny
  {
    if !m.threw && m.matchedAny && |m.queue| >= THRESHOLD {
      SweepGrows(Sorted(m), 0, w);
      SweepsGrow(Sweep(Sorted(m), 0, w), w);
    }
  }

  /** No entry of the queue, from this position on, reaches any other at time now. */
  ghost predicate NobodyMatches(q: seq<BeanEntry>, now: int, from: nat) {
    forall a: nat, i: nat :: from <= a < |q| && i < |q| && i != a ==> !Reaches(now, q[a], q[i])
  }

  lemma NoPeersMeans(q: seq<BeanEntry>, now: int, a: nat)
    requires a < |q|
    ensures HasPeers(q, a, CurrentMmrRange(now, q[a].queuedAt)) <==>
      exists i: nat :: i < |q| && i != a && Reaches(now, q[a], q[i])
  {
    hide Compatible, Reaches, CurrentMmrRange;
    forall i: nat | i < |q|
      ensures Compatible(q, a, CurrentMmrRange(now, q[a].queuedAt), i) <==> i != a && Reaches(now, q[a], q[i])
    {
      RangeMeans(now, q, a, i);
    }
  }

  lemma {:induction false} FruitlessSweep(m: Matching, anchor: nat, w: World, now: int)
    requires forall t :: w.clock(t) == now
    requires var r := Sweep(m, anchor, w);
      !m.matchedAny && !r.matchedAny && !r.threw && |r.dropped| == |m.dropped|
    ensures Sweep(m, anchor, w).queue == m.queue && NobodyMatches(m.queue, now, anchor)
    decreases |m.queue| - anchor
  {
    if anchor < |m.queue| {
      var range := RangeNow(m, anchor, w);
      PickedIffPeers(m.queue, anchor, range);
      PickedShape(m.queue, anchor, range, |m.queue|);
      NoPeersMeans(m.queue, now, anchor);
      if !Groups(m, anchor, w) {
        FruitlessSweep(m.(ticks := m.ticks + 1), anchor + 1, w, now);
      } else {
        var o := OutcomeNow(m, w);
        if o == Dropped {
          SweepGrows(Take(m, anchor, range, o), anchor + 1, w);
        }
        assert false;
      }
    }
  }

  /**
    With the clock standing still and no group dropped, the loop stops only when no remaining
    anchor has enough compatible peers.
    */
  lemma {:induction false} NothingLeftToMatch(m: Matching, w: World, now: int)
    requires forall t :: w.clock(t) == now
    requires m.matchedAny && !m.threw
    requires |Sweeps(m, w).dropped| == |m.dropped| && !Sweeps(m, w).threw
    ensures NobodyMatches(Sweeps(m, w).queue, now, 0)
    decreases |m.queue|
  {
    if |m.queue| >= THRESHOLD {
      var r := Sweep(Sorted(m), 0, w);
      SweepGrows(Sorted(m), 0, w);
      SweepsGrow(r, w);
      if r.threw {
        assert false;
      } else if r.matchedAny {
        NothingLeftToMatch(r, w, now);
      } else {
        FruitlessSweep(Sorted(m), 0, w, now);
      }
    }
  }

  // ----- no user in two places -----

  ghost predicate OncePerUser(all: multiset<BeanEntry>) {
    && (forall e :: all[e] <= 1)
    && forall e, f :: e in all && f in all && e.userId == f.userId ==> e == f
  }

  ghost predicate Apart(a: seq<BeanEntry>, b: seq<BeanEntry>) {
    forall j, k :: 0 <= j < |a| && 0 <= k < |b| ==> a[j].userId != b[k].userId
  }

  ghost predicate DistinctUsers(q: seq<BeanEntry>) {
    forall j, k :: 0 <= j < k < |q| ==> q[j].userId != q[k].userId
  }

  lemma ApartIfOnce(all: multiset<BeanEntry>, a: seq<BeanEntry>, b: seq<BeanEntry>)
    requires OncePerUser(all) && multiset(a) + multiset(b) <= all
    ensures Apart(a, b)
  {
    forall j, k | 0 <= j < |a| && 0 <= k < |b|
      ensures a[j].userId != b[k].userId
    {
      assert a[j] in multiset(a) && b[k] in multiset(b);
      assert a[j] in all && b[k] in all;
      assert (multiset(a) + multiset(b))[a[j]] <= 1;
    }
  }

  lemma DistinctIffOnce(q: seq<BeanEntry>)
    ensures DistinctUsers(q) <==> OncePerUser(multiset(q))
  {
    if OncePerUser(multiset(q)) {
      forall j, k | 0 <= j < k < |q|
        ensures q[j].userId != q[k].userId
      {
        assert q == q[..k] + q[k..];
        assert q[..k][j] == q[j] && q[k..][0] == q[k];
        ApartIfOnce(multiset(q), q[..k], q[k..]);
      }
    }
    if DistinctUsers(q) {
      forall e ensures multiset(q)[e] <= 1 {
        CountsOnce(q, e);
      }
      forall e, f | e in multiset(q) && f in multiset(q) && e.userId == f.userId
        ensures e == f
      {
        assert e in q && f in q;
      }
    }
  }

  lemma {:induction false} CountsOnce(q: seq<BeanEntry>, e: BeanEntry)
    requires DistinctUsers(q)
    ensures multiset(q)[e] <= 1
  {
    if q != [] {
      assert q == [q[0]] + q[1..];
      CountsOnce(q[1..], e);
      if e == q[0] {
        assert e !in q[1..];
      }
    }
  }

  lemma {:induction false} MembersHold(gs: seq<Group>, j: nat)
    requires j < |gs|
    ensures multiset(gs[j].members) <= Members(gs)
  {
    if j < |gs| - 1 {
      MembersHold(gs[..|gs| - 1], j);
    }
  }

  lemma {:induction false} MembersHoldBoth(gs: seq<Group>, j: nat, k: nat)
    requires j < k < |gs|
    ensures multiset(gs[j].members) + multiset(gs[k].members) <= Members(gs)
  {
    if k < |gs| - 1 {
      MembersHoldBoth(gs[..|gs| - 1], j, k);
    } else {
      MembersHold(gs[..k], j);
    }
  }

  lemma GroupsApart(all: multiset<BeanEntry>, gs: seq<Group>)
    requires OncePerUser(all) && Members(gs) <= all
    ensures forall j, k :: 0 <= j < k < |gs| ==> Apart(gs[j].members, gs[k].members)
    ensures forall k :: 0 <= k < |gs| ==> DistinctUsers(gs[k].members)
  {
    hide Apart, DistinctUsers, Members;
    forall j, k | 0 <= j < k < |gs|
      ensures Apart(gs[j].members, gs[k].members)
    {
      MembersHoldBoth(gs, j, k);
      ApartIfOnce(all, gs[j].members, gs[k].members);
    }
    forall k | 0 <= k < |gs|
      ensures DistinctUsers(gs[k].members)
    {
      MembersHold(gs, k);
      DistinctIffOnce(gs[k].members);
    }
  }

  lemma QueueApart(all: multiset<BeanEntry>, q: seq<BeanEntry>, gs: seq<Group>)
    requires OncePerUser(all) && multiset(q) + Members(gs) <= all
    ensures forall k :: 0 <= k < |gs| ==> Apart(q, gs[k].members)
  {
    hide Apart, OncePerUser, Members;
    forall k | 0 <= k < |gs|
      ensures Apart(q, gs[k].members)
    {
      MembersHold(gs, k);
      ApartIfOnce(all, q, gs[k].members);
    }
  }

  /**
    A matching that starts with each user queued once ends with each user either still queued
    once, or in exactly one matched group, or in exactly one dropped group.
    */
  lemma NoUserInTwoGroups(q: seq<BeanEntry>, w: World)
    requires DistinctUsers(q)
    ensures var r := Sweeps(Matching(q, [], [], 0, true, false), w);
      && DistinctUsers(r.queue)
      && (forall k :: 0 <= k < |r.matched| ==> DistinctUsers(r.matched[k].members) && Apart(r.queue, r.matched[k].members))
      && (forall k :: 0 <= k < |r.dropped| ==> DistinctUsers(r.dropped[k].members) && Apart(r.queue, r.dropped[k].members))
      && (forall j, k :: 0 <= j < k < |r.matched| ==> Apart(r.matched[j].members, r.matched[k].members))
      && (forall j, k :: 0 <= j < k < |r.dropped| ==> Apart(r.dropped[j].members, r.dropped[k].members))
      && (forall j, k :: 0 <= j < |r.matched| && 0 <= k < |r.dropped| ==>
            Apart(r.matched[j].members, r.dropped[k].members))
  {
    var m := Matching(q, [], [], 0, true, false);
    var r := Sweeps(m, w);
    SweepsPartition(m, w);
    DistinctIffOnce(q);
    var all := multiset(q);
    assert Everyone(r) == all;
    hide Sweeps, Apart, DistinctUsers, OncePerUser, Members;
    OnceBelow(all, multiset(r.queue));
    DistinctIffOnce(r.queue);
    QueueApart(all, r.queue, r.matched);
    QueueApart(all, r.queue, r.dropped);
    GroupsApart(all, r.matched);
    GroupsApart(all, r.dropped);
    TwoListsApart(all, r.matched, r.dropped);
  }

  lemma TwoListsApart(all: multiset<BeanEntry>, a: seq<Group>, b: seq<Group>)
    requires OncePerUser(all) && Members(a) + Members(b) <= all
    ensures forall j, k :: 0 <= j < |a| && 0 <= k < |b| ==> Apart(a[j].members, b[k].members)
  {
    hide Apart, OncePerUser, Members;
    forall j, k | 0 <= j < |a| && 0 <= k < |b|
      ensures Apart(a[j].members, b[k].members)
    {
      MembersHold(a, j);
      MembersHold(b, k);
      ApartIfOnce(all, a[j].members, b[k].members);
    }
  }

  lemma OnceBelow(all: multiset<BeanEntry>, part: multiset<BeanEntry>)
    requires OncePerUser(all) && part <= all
    ensures OncePerUser(part)
  {
    assert forall e :: e in part ==> e in all;
  }

  // ----- a dropped group hides an anchor -----

  lemma SortedAlready(a: BeanEntry, b: BeanEntry, c: BeanEntry, d: BeanEntry)
    requires a.queuedAt <= b.queuedAt <= c.queuedAt <= d.queuedAt
    ensures SortedByArrival([a, b, c, d]) == [a, b, c, d]
  {
    assert [d][1..] == [] && SortedByArrival([d]) == [d];
    assert [c, d][1..] == [d] && SortedByArrival([c, d]) == [c, d];
    assert [b, c, d][1..] == [c, d] && SortedByArrival([b, c, d]) == [b, c, d];
    assert [a, b, c, d][1..] == [b, c, d];
  }

  lemma FirstTwoTaken(q: seq<BeanEntry>, range: int)
    requires |q| == 4 && Compatible(q, 0, range, 1)
    ensures Picked(q, 0, range, 4) == [0, 1] && ReverseSorted([0, 1]) == [1, 0]
    ensures Falling([1, 0], 4) && RemoveAll(q, [1, 0]) == q[2..]
  {
    assert Picked(q, 0, range, 0) == [0];
    assert Picked(q, 0, range, 1) == [0];
    assert Picked(q, 0, range, 2) == [0, 1];
    assert Picked(q, 0, range, 3) == [0, 1];
    assert [0, 1][1..] == [1] && [1][1..] == [] && ReverseSorted([1]) == [1];
    var r := RemoveAt(q, 1);
    assert [1, 0][1..] == [0] && [0][1..] == [];
    assert RemoveAll(r, [0]) == RemoveAt(r, 0);
    assert RemoveAt(r, 0) == q[2..];
  }

  lemma NobodyPicked(q: seq<BeanEntry>, range: int)
    requires |q| == 2 && !Compatible(q, 1, range, 0)
    ensures Picked(q, 1, range, 2) == [1]
  {
    assert Picked(q, 1, range, 1) == [1];
  }

  /**
    Why no group may fail: after a dropped group the sweep moves on to the next position of
    the shrunken queue, so the entry that slid into the anchor's place is never an anchor,
    although it has a peer.
    */
  lemma DroppedGroupSkipsAnchor()
    ensures var a := BeanEntry(1, 0, 1000, 0);
      var b := BeanEntry(2, 0, 1000, 1);
      var c := BeanEntry(3, 0, 3000, 2);
      var d := BeanEntry(4, 0, 3500, 20000);
      var w := World(_ => 20002, _ => Dropped);
      var r := Sweeps(Matching([a, b, c, d], [], [], 0, true, false), w);
      r.queue == [c, d] && !NobodyMatches(r.queue, 20002, 0)
  {
    var a := BeanEntry(1, 0, 1000, 0);
    var b := BeanEntry(2, 0, 1000, 1);
    var c := BeanEntry(3, 0, 3000, 2);
    var d := BeanEntry(4, 0, 3500, 20000);
    var w := World(_ => 20002, _ => Dropped);
    var m := Matching([a, b, c, d], [], [], 0, true, false);
    SortedAlready(a, b, c, d);
    var s := Sorted(m);
    FirstTwoTaken(s.queue, 1200);
    var t := Take(s, 0, 1200, Dropped);
    assert t.queue == [c, d];
    NobodyPicked(t.queue, 120);
    hide Picked, ReverseSorted, RemoveAll, EntriesAt, SortedByArrival;
    var last := t.(ticks := t.ticks + 1);
    assert Sweep(last, 2, w) == last;
    assert Sweep(t, 1, w) == last;
    assert Sweep(s, 0, w) == last;
    assert Sweeps(last, w) == last;
    assert Reaches(20002, [c, d][0], [c, d][1]);
  }
}
