/**
  Who is matched first: the longest-waiting entry that reaches another, with the longest-waiting
  entry it reaches.
  */
module MatchOrder {
  import opened Common
  import opened Matchmaking

  /** Position p is the first that the entry at k reaches. */
  ghost predicate FirstReached(q: seq<BeanEntry>, now: int, k: nat, p: nat) {
    && k < |q| && p < |q| && p != k && Reaches(now, q[k], q[p])
    && forall i: nat :: i < p && i != k ==> !Reaches(now, q[k], q[i])
  }

  ghost predicate ReachesNobody(q: seq<BeanEntry>, now: int, k: nat) {
    k < |q| && forall i: nat :: i < |q| && i != k ==> !Reaches(now, q[k], q[i])
  }

  /** Whoever is picked second is the first compatible entry. */
  lemma {:induction false} PicksFirst(q: seq<BeanEntry>, anchor: nat, range: int, n: nat)
    requires anchor < |q| && n <= |q|
    ensures var p := Picked(q, anchor, range, n);
      && 1 <= |p| <= 2 && p[0] == anchor
      && (|p| == 1 ==> forall i: nat :: i < n ==> !Compatible(q, anchor, range, i))
      && (|p| == 2 ==> p[1] < n && Compatible(q, anchor, range, p[1])
                       && forall i: nat :: i < p[1] ==> !Compatible(q, anchor, range, i))
  {
    hide Compatible;
    if n > 0 {
      PicksFirst(q, anchor, range, n - 1);
    }
  }

  lemma PairPicked(q: seq<BeanEntry>, now: int, anchor: nat)
    requires anchor < |q|
    ensures var picked := Picked(q, anchor, CurrentMmrRange(now, q[anchor].queuedAt), |q|);
      if |picked| == THRESHOLD then picked == [anchor, picked[1]] && FirstReached(q, now, anchor, picked[1])
      else ReachesNobody(q, now, anchor)
  {
    var range := CurrentMmrRange(now, q[anchor].queuedAt);
    PicksFirst(q, anchor, range, |q|);
    hide Picked, Compatible, Reaches, CurrentMmrRange;
    forall i: nat | i < |q|
      ensures Compatible(q, anchor, range, i) <==> i != anchor && Reaches(now, q[anchor], q[i])
    {
      RangeMeans(now, q, anchor, i);
    }
  }

  /** A group of the entries at two positions. */
  ghost predicate GroupOf(g: Group, q: seq<BeanEntry>, tick: int, k: nat, p: nat) {
    && k < |q| && p < |q| && g.anchor == q[k] && g.tick == tick
    && multiset(g.members) == multiset{q[k], q[p]}
  }

  lemma TwoEntries(q: seq<BeanEntry>, a: nat, b: nat)
    requires a < |q| && b < |q|
    ensures EntriesAt(q, [a, b]) == [q[a], q[b]]
  {
    assert [a, b][1..] == [b] && [b][1..] == [];
    assert EntriesAt(q, [b]) == [q[b]] + EntriesAt(q, []);
  }

  lemma PairReversed(k: nat, p: nat)
    ensures ReverseSorted([k, p]) == if k >= p then [k, p] else [p, k]
  {
    assert [k, p][1..] == [p] && [p][1..] == [];
    assert ReverseSorted([]) == [] && InsertFalling(k, []) == [k];
    assert ReverseSorted([p]) == [p];
    assert ReverseSorted([k, p]) == InsertFalling(k, [p]);
  }

  lemma PairMembers(q: seq<BeanEntry>, k: nat, p: nat)
    requires k < |q| && p < |q| && k != p
    ensures Falling(ReverseSorted([k, p]), |q|) && |ReverseSorted([k, p])| == 2
    ensures multiset(EntriesAt(q, ReverseSorted([k, p]))) == multiset{q[k], q[p]}
  {
    PairReversed(k, p);
    hide ReverseSorted, EntriesAt;
    if k >= p {
      TwoEntries(q, k, p);
    } else {
      TwoEntries(q, p, k);
    }
  }

  /** The groups booked since m, matched ones only at the end. */
  ghost predicate Adds(m: Matching, r: Matching) {
    && m.matched <= r.matched && m.dropped <= r.dropped && |r.matched| <= |m.matched| + 1
  }

  /** The first group booked since m. */
  ghost predicate FirstBooked(m: Matching, r: Matching, g: Group) {
    if |r.dropped| > |m.dropped| then r.dropped[|m.dropped|] == g
    else |r.matched| > |m.matched| && r.matched[|m.matched|] == g
  }

  ghost predicate BookedNothing(m: Matching, r: Matching) {
    |r.matched| <= |m.matched| && |r.dropped| <= |m.dropped|
  }

  lemma {:induction false} SweepAdds(m: Matching, anchor: nat, w: World)
    ensures Adds(m, Sweep(m, anchor, w))
    decreases |m.queue| - anchor
  {
    hide Picked, ReverseSorted, RemoveAll, EntriesAt, RangeNow, OutcomeNow;
    if anchor < |m.queue| {
      if !Groups(m, anchor, w) {
        SweepAdds(m.(ticks := m.ticks + 1), anchor + 1, w);
      } else if OutcomeNow(m, w) == Dropped {
        DroppedAdds(m, anchor, w);
        hide Take, Groups;
        SweepAdds(Take(m, anchor, RangeNow(m, anchor, w), Dropped), anchor + 1, w);
      }
    }
  }

  lemma DroppedAdds(m: Matching, anchor: nat, w: World)
    requires anchor < |m.queue| && Groups(m, anchor, w)
    ensures var t := Take(m, anchor, RangeNow(m, anchor, w), Dropped); t.matched == m.matched && m.dropped <= t.dropped
  {
    hide Picked, ReverseSorted, RemoveAll, EntriesAt, RangeNow;
  }

  lemma TakenGroup(m: Matching, anchor: nat, w: World, o: Outcome) returns (p: nat, g: Group)
    requires anchor < |m.queue| && Groups(m, anchor, w)
    ensures FirstReached(m.queue, w.clock(m.ticks), anchor, p) && GroupOf(g, m.queue, m.ticks, anchor, p)
    ensures var t := Take(m, anchor, RangeNow(m, anchor, w), o);
      && |t.matched| + |t.dropped| == |m.matched| + |m.dropped| + 1 && m.matched <= t.matched && m.dropped <= t.dropped
      && FirstBooked(m, t, g) && (o == Dropped ==> |t.dropped| > |m.dropped|)
  {
    PairPicked(m.queue, w.clock(m.ticks), anchor);
    var picked := Picked(m.queue, anchor, RangeNow(m, anchor, w), |m.queue|);
    p := picked[1];
    PairMembers(m.queue, anchor, p);
    hide Picked, ReverseSorted, RemoveAll, EntriesAt, CurrentMmrRange, Falling, Reaches;
    g := Group(m.queue[anchor], RangeNow(m, anchor, w), m.ticks, EntriesAt(m.queue, ReverseSorted(picked)));
  }

  /** When its turn comes, position j reaches nobody; the clock is read once for each position. */
  ghost predicate PassedOver(q: seq<BeanEntry>, w: World, tick: int, j: nat) {
    tick + j >= 0 && ReachesNobody(q, w.clock(tick + j), j)
  }

  ghost predicate AllPassedOver(q: seq<BeanEntry>, w: World, tick: int, from: nat) {
    forall j: nat :: from <= j < |q| ==> PassedOver(q, w, tick, j)
  }

  /** Position k is the first from the anchor on that reaches anybody, p the first that it reaches. */
  ghost predicate FirstPair(q: seq<BeanEntry>, w: World, tick: int, anchor: nat, k: nat, p: nat) {
    && anchor <= k && tick + k >= 0 && FirstReached(q, w.clock(tick + k), k, p)
    && forall j: nat :: anchor <= j < k ==> PassedOver(q, w, tick, j)
  }

  /**
    One sweep: it books nothing and leaves the queue alone when nobody from the anchor on
    reaches anybody when its turn comes; otherwise the first group it books, started or
    dropped, is the first entry that reaches another and the first entry it reaches.
    */
  lemma {:induction false} FirstGroup(m: Matching, anchor: nat, w: World) returns (k: nat, p: nat, g: Group)
    ensures var r, tick := Sweep(m, anchor, w), m.ticks - anchor;
      if BookedNothing(m, r)
      then r.queue == m.queue && AllPassedOver(m.queue, w, tick, anchor)
      else FirstPair(m.queue, w, tick, anchor, k, p) && GroupOf(g, m.queue, tick + k, k, p) && FirstBooked(m, r, g)
    decreases |m.queue| - anchor
  {
    hide Picked, RangeNow, OutcomeNow, ReverseSorted, RemoveAll, EntriesAt, ReachesNobody, FirstReached, GroupOf, Take;
    hide PassedOver;
    k, p, g := 0, 0, Group(BeanEntry(0, 0, 0, 0), 0, 0, []);
    if anchor < |m.queue| {
      if !Groups(m, anchor, w) {
        NobodyInReach(m, anchor, w);
        hide Groups;
        HerePassedOver(m, anchor, w);
        var m1 := m.(ticks := m.ticks + 1);
        k, p, g := FirstGroup(m1, anchor + 1, w);
        LaterPair(m, m1, Sweep(m1, anchor + 1, w), w, anchor, k, p);
      } else {
        hide Groups, Sweep, FirstBooked, BookedNothing, FirstPair;
        k := anchor;
        p, g := TakesHere(m, anchor, w);
      }
    }
  }

  lemma TakesHere(m: Matching, anchor: nat, w: World) returns (p: nat, g: Group)
    requires anchor < |m.queue| && Groups(m, anchor, w)
    ensures FirstPair(m.queue, w, m.ticks - anchor, anchor, anchor, p) && GroupOf(g, m.queue, m.ticks, anchor, p)
    ensures FirstBooked(m, Sweep(m, anchor, w), g) && !BookedNothing(m, Sweep(m, anchor, w))
  {
    hide Picked, RangeNow, ReverseSorted, RemoveAll, EntriesAt, FirstReached, GroupOf;
    p, g := TakenGroup(m, anchor, w, OutcomeNow(m, w));
    var t := Take(m, anchor, RangeNow(m, anchor, w), OutcomeNow(m, w));
    hide Take, Groups, OutcomeNow;
    SweepAdds(t, anchor + 1, w);
    assert Sweep(m, anchor, w) == if OutcomeNow(m, w) == Dropped then Sweep(t, anchor + 1, w) else t;
  }

  lemma HerePassedOver(m: Matching, anchor: nat, w: World)
    requires ReachesNobody(m.queue, w.clock(m.ticks), anchor)
    ensures PassedOver(m.queue, w, m.ticks - anchor, anchor)
  {}

  lemma LaterPair(m: Matching, m1: Matching, r: Matching, w: World, anchor: nat, k: nat, p: nat)
    requires m1 == m.(ticks := m.ticks + 1) && PassedOver(m.queue, w, m.ticks - anchor, anchor)
    ensures BookedNothing(m1, r) <==> BookedNothing(m, r)
    ensures FirstPair(m1.queue, w, m1.ticks - (anchor + 1), anchor + 1, k, p) ==>
      FirstPair(m.queue, w, m.ticks - anchor, anchor, k, p)
    ensures AllPassedOver(m1.queue, w, m1.ticks - (anchor + 1), anchor + 1) ==>
      AllPassedOver(m.queue, w, m.ticks - anchor, anchor)
  {
    assert m1.ticks - (anchor + 1) == m.ticks - anchor;
    hide FirstReached, PassedOver;
  }

  lemma NobodyInReach(m: Matching, anchor: nat, w: World)
    requires anchor < |m.queue| && !Groups(m, anchor, w)
    ensures ReachesNobody(m.queue, w.clock(m.ticks), anchor)
  {
    PairPicked(m.queue, w.clock(m.ticks), anchor);
    hide Picked, CurrentMmrRange, Reaches;
  }
}
