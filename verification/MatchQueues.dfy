/**
  The tier queues of MatchmakingService, shrunk in place by the matching loop, and proved
  against the functions of module Matchmaking.
  */
module MatchQueues {
  import opened Common
  import opened Matchmaking

  /** The entries of q that belong to other users. */
  function Without(q: seq<BeanEntry>, userId: int): seq<BeanEntry> {
    if q == [] then []
    else (if q[0].userId == userId then [] else [q[0]]) + Without(q[1..], userId)
  }

  function WithoutUser(queues: map<string, seq<BeanEntry>>, userId: int): map<string, seq<BeanEntry>> {
    map tier | tier in queues :: Without(queues[tier], userId)
  }

  /** The queues after a user has moved to the end of one tier. */
  function Joined(queues: map<string, seq<BeanEntry>>, tier: string, e: BeanEntry): (r: map<string, seq<BeanEntry>>)
    ensures tier in r
  {
    var others := WithoutUser(queues, e.userId);
    others[tier := (if tier in others then others[tier] else []) + [e]]
  }

  lemma NobodyIs(queues: map<string, seq<BeanEntry>>, userId: int)
    ensures var others := WithoutUser(queues, userId);
      forall t, k :: t in others && 0 <= k < |others[t]| ==> others[t][k].userId != userId
  {
    var others: map<string, seq<BeanEntry>> := WithoutUser(queues, userId);
    forall t, k | t in others && 0 <= k < |others[t]|
      ensures others[t][k].userId != userId
    {
      WithoutKeepsOthers(queues[t], userId, others[t][k]);
    }
  }

  /** Every user is queued at most once, in one tier. */
  ghost predicate QueuedOnce(queues: map<string, seq<BeanEntry>>) {
    && (forall t :: t in queues ==> DistinctUsers(queues[t]))
    && forall t, u :: t in queues && u in queues && t != u ==> Apart(queues[t], queues[u])
  }

  lemma {:induction false} WithoutKeepsOthers(q: seq<BeanEntry>, userId: int, e: BeanEntry)
    ensures e in Without(q, userId) <==> e in q && e.userId != userId
  {
    if q != [] {
      WithoutKeepsOthers(q[1..], userId, e);
    }
  }

  lemma {:induction false} WithoutIsPart(q: seq<BeanEntry>, userId: int)
    ensures multiset(Without(q, userId)) <= multiset(q)
  {
    if q != [] {
      assert q == [q[0]] + q[1..];
      WithoutIsPart(q[1..], userId);
    }
  }

  lemma PartStaysDistinct(q: seq<BeanEntry>, part: seq<BeanEntry>)
    requires DistinctUsers(q) && multiset(part) <= multiset(q)
    ensures DistinctUsers(part)
  {
    DistinctIffOnce(q);
    OnceBelow(multiset(q), multiset(part));
    DistinctIffOnce(part);
  }

  lemma PartStaysApart(q: seq<BeanEntry>, part: seq<BeanEntry>, other: seq<BeanEntry>)
    requires Apart(q, other) && multiset(part) <= multiset(q)
    ensures Apart(part, other) && Apart(other, part)
  {
    forall j, k | 0 <= j < |part| && 0 <= k < |other|
      ensures part[j].userId != other[k].userId
    {
      assert part[j] in multiset(part);
      assert part[j] in q;
      var i :| 0 <= i < |q| && q[i] == part[j];
    }
  }

  /** Shrinking one tier keeps everyone queued once. */
  lemma ShrinkKeepsOnce(queues: map<string, seq<BeanEntry>>, tier: string, part: seq<BeanEntry>)
    requires QueuedOnce(queues) && tier in queues && multiset(part) <= multiset(queues[tier])
    ensures QueuedOnce(queues[tier := part])
  {
    PartStaysDistinct(queues[tier], part);
    hide Apart, DistinctUsers;
    forall t | t in queues && t != tier
      ensures Apart(part, queues[t]) && Apart(queues[t], part)
    {
      PartStaysApart(queues[tier], part, queues[t]);
    }
  }

  lemma RemovedUserKeepsOnce(queues: map<string, seq<BeanEntry>>, userId: int)
    requires QueuedOnce(queues)
    ensures QueuedOnce(WithoutUser(queues, userId))
  {
    hide Apart, DistinctUsers, Without;
    var r := WithoutUser(queues, userId);
    forall t | t in r
      ensures DistinctUsers(r[t])
    {
      WithoutIsPart(queues[t], userId);
      PartStaysDistinct(queues[t], r[t]);
    }
    forall t, u | t in r && u in r && t != u
      ensures Apart(r[t], r[u])
    {
      WithoutIsPart(queues[t], userId);
      WithoutIsPart(queues[u], userId);
      PartStaysApart(queues[t], r[t], queues[u]);
      PartStaysApart(queues[u], r[u], r[t]);
    }
  }

  /** A user taken out of every tier can join one again. */
  lemma JoinKeepsOnce(queues: map<string, seq<BeanEntry>>, tier: string, e: BeanEntry)
    requires QueuedOnce(queues)
    requires forall t, k :: t in queues && 0 <= k < |queues[t]| ==> queues[t][k].userId != e.userId
    ensures QueuedOnce(queues[tier := (if tier in queues then queues[tier] else []) + [e]])
  {
    var q := if tier in queues then queues[tier] else [];
    assert DistinctUsers(q + [e]);
    forall t | t in queues && t != tier
      ensures Apart(q + [e], queues[t]) && Apart(queues[t], q + [e])
    {
      if tier in queues {
        assert Apart(q, queues[t]);
      }
    }
  }

  class Matchmaker {
    var queues: map<string, seq<BeanEntry>>
    var matched: seq<Group>
    var dropped: seq<Group>

    ghost predicate Valid()
      reads this
    {
      QueuedOnce(queues)
    }

    constructor ()
      ensures Valid() && queues == map[] && matched == [] && dropped == []
    {
      queues, matched, dropped := map[], [], [];
    }

    /** removeFromAllQueues */
    method RemoveFromAllQueues(userId: int)
      modifies this`queues
      ensures queues == WithoutUser(old(queues), userId)
    {
      ghost var was := queues;
      var left := queues.Keys;
      while left != {}
        invariant left <= queues.Keys == was.Keys
        invariant forall t :: t in was ==> queues[t] == if t in left then was[t] else Without(was[t], userId)
        decreases |left|
      {
        Nonempty(left);
        var tier :| tier in left;
        left := left - {tier};
        queues := queues[tier := Without(queues[tier], userId)];
      }
    }

    /** The inner loop of the matching: positions picked for one anchor. */
    method Pick(q: seq<BeanEntry>, anchor: nat, range: int) returns (picked: seq<nat>)
      requires anchor < |q|
      ensures picked == Picked(q, anchor, range, |q|)
    {
      picked := [anchor];
      var i := 0;
      while i < |q| && |picked| < THRESHOLD
        invariant i <= |q| && picked == Picked(q, anchor, range, i)
      {
        if i != anchor && Abs(q[i].mmr - q[anchor].mmr) <= range {
          picked := picked + [i];
        }
        i := i + 1;
      }
      PickedStops(q, anchor, range, i, |q|);
    }

    /** Removes the given positions, highest first. */
    method RemovePicked(q: seq<BeanEntry>, positions: seq<nat>) returns (r: seq<BeanEntry>)
      requires Falling(positions, |q|)
      ensures r == RemoveAll(q, positions)
    {
      r := q;
      for k := 0 to |positions|
        invariant Falling(positions[k..], |r|)
        invariant RemoveAll(r, positions[k..]) == RemoveAll(q, positions)
      {
        assert positions[k..][0] == positions[k] && positions[k..][1..] == positions[k + 1..];
        assert Falling(positions[k + 1..], positions[k]);
        r := RemoveAt(r, positions[k]);
      }
    }

    /** maybeMatchBeans; true when it ended with an exception. */
    method MaybeMatchBeans(tier: string, w: World) returns (threw: bool)
      requires Valid()
      modifies this
      ensures Valid()
      ensures tier !in old(queues) ==> queues == old(queues) && matched == old(matched) && dropped == old(dropped)
      ensures tier in old(queues) ==>
        var r := Sweeps(Matching(old(queues)[tier], [], [], 0, true, false), w);
        && queues == old(queues)[tier := r.queue] && threw == r.threw
        && matched == old(matched) + r.matched && dropped == old(dropped) + r.dropped
    {
      threw := false;
      if tier !in queues {
        return;
      }
      ghost var start := Matching(queues[tier], [], [], 0, true, false);
      var m := Matching(queues[tier], [], [], 0, true, false);
      while m.matchedAny && !m.threw && |m.queue| >= THRESHOLD
        invariant Sweeps(m, w) == Sweeps(start, w)
        invariant unchanged(this)
        decreases |m.queue|, m.matchedAny
      {
        m := SweepOnce(Sorted(m), w);
      }
      SweepsPartition(start, w);
      assert multiset(m.queue) <= Everyone(m) == Everyone(start) == multiset(start.queue);
      ShrinkKeepsOnce(queues, tier, m.queue);
      queues := queues[tier := m.queue];
      matched, dropped, threw := matched + m.matched, dropped + m.dropped, m.threw;
    }

    /** One pass over the anchors. */
    method SweepOnce(start: Matching, w: World) returns (m: Matching)
      ensures m == Sweep(start, 0, w)
    {
      hide Picked, ReverseSorted, RemoveAll, EntriesAt, CurrentMmrRange, Falling;
      m := start;
      var anchor := 0;
      while anchor < |m.queue|
        invariant Sweep(m, anchor, w) == Sweep(start, 0, w)
        decreases |m.queue| - anchor
      {
        var range := CurrentMmrRange(w.clock(m.ticks), m.queue[anchor].queuedAt);
        var picked := Pick(m.queue, anchor, range);
        PickedShape(m.queue, anchor, range, |m.queue|);
        if |picked| < THRESHOLD {
          m := m.(ticks := m.ticks + 1);
        } else {
          PickedFalls(m.queue, anchor, range);
          var positions := ReverseSorted(picked);
          var o := w.outcome(|m.matched| + |m.dropped|);
          var g := Group(m.queue[anchor], range, m.ticks, EntriesAt(m.queue, positions));
          var left := RemovePicked(m.queue, positions);
          ghost var taken := Take(m, anchor, range, o);
          if o == Started || o == StartedThenThrew {
            m := m.(queue := left, matched := m.matched + [g], ticks := m.ticks + 1);
          } else {
            m := m.(queue := left, dropped := m.dropped + [g], ticks := m.ticks + 1);
          }
          m := m.(matchedAny := o == Started, threw := o == StartedThenThrew || o == DroppedThenThrew);
          assert m == taken;
          if o != Dropped {
            return;
          }
        }
        anchor := anchor + 1;
      }
    }

    /** Leave every queue and join one tier. */
    method Join(tier: string, e: BeanEntry)
      requires Valid()
      modifies this`queues
      ensures Valid() && queues == Joined(old(queues), tier, e)
    {
      RemoveFromAllQueues(e.userId);
      RemovedUserKeepsOnce(old(queues), e.userId);
      NobodyIs(old(queues), e.userId);
      JoinKeepsOnce(queues, tier, e);
      queues := queues[tier := (if tier in queues then queues[tier] else []) + [e]];
    }

    /** The queue step of queue-bean: join a tier, then try to match it. */
    method QueueBean(tier: string, e: BeanEntry, w: World) returns (threw: bool)
      requires Valid()
      modifies this
      ensures Valid()
      ensures
        var joined := Joined(old(queues), tier, e);
        var r := Sweeps(Matching(joined[tier], [], [], 0, true, false), w);
        && queues == joined[tier := r.queue] && threw == r.threw
        && matched == old(matched) + r.matched && dropped == old(dropped) + r.dropped
    {
      Join(tier, e);
      threw := MaybeMatchBeans(tier, w);
    }
  }

  lemma {:induction false} PickedStops(q: seq<BeanEntry>, anchor: nat, range: int, m: nat, n: nat)
    requires anchor < |q| && m <= n <= |q|
    requires m == n || |Picked(q, anchor, range, m)| >= THRESHOLD
    ensures Picked(q, anchor, range, m) == Picked(q, anchor, range, n)
    decreases n - m
  {
    if m < n {
      PickedStops(q, anchor, range, m, n - 1);
    }
  }
}
