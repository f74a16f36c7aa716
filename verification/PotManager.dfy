/**
  Main-pot and side-pot layering (engine/pot_manager.cpp).

  A hand's contributions are cut at every distinct positive contribution level
  ("cap").  The layer between two neighbouring caps is paid for by every seat that
  reached the upper cap, and can be won by those of them that have not folded.
  */
module PotManager {

  datatype PotContributor = PotContributor(seat: int, committed: int, eligible: bool)

  datatype Pot = Pot(cap: int, amount: int, eligible: seq<int>)

  // ----- an ordered set of integers: a strictly increasing sequence -----

  ghost predicate Increasing(s: seq<int>) {
    forall i, j :: 0 <= i < j < |s| ==> s[i] < s[j]
  }

  function Insert(x: int, s: seq<int>): (r: seq<int>)
    requires Increasing(s)
    ensures Increasing(r)
    ensures forall y :: y in r <==> y == x || y in s
  {
    if s == [] || x < s[0] then [x] + s
    else if x == s[0] then s
    else
      var tail := Insert(x, s[1..]);
      assert forall y :: y in s <==> y == s[0] || y in s[1..];
      assert forall i :: 0 <= i < |tail| ==> tail[i] in tail && s[0] < tail[i];
      [s[0]] + tail
  }

  /** The distinct positive contribution levels, in increasing order. */
  function Caps(cs: seq<PotContributor>): (r: seq<int>)
    ensures Increasing(r)
  {
    if cs == [] then []
    else
      var last := cs[|cs| - 1];
      var r0 := Caps(cs[..|cs| - 1]);
      if last.committed > 0 then Insert(last.committed, r0) else r0
  }

  lemma {:induction false} CapOf(cs: seq<PotContributor>, i: nat) returns (k: nat)
    requires i < |cs| && cs[i].committed > 0
    ensures k < |Caps(cs)| && Caps(cs)[k] == cs[i].committed
  {
    if i < |cs| - 1 {
      var k0 := CapOf(cs[..|cs| - 1], i);
      assert cs[i].committed in Caps(cs);
    }
    assert cs[i].committed in Caps(cs);
    k :| 0 <= k < |Caps(cs)| && Caps(cs)[k] == cs[i].committed;
  }

  lemma {:induction false} CapComesFrom(cs: seq<PotContributor>, x: int) returns (i: nat)
    requires x in Caps(cs)
    ensures x > 0 && i < |cs| && cs[i].committed == x
  {
    if x == cs[|cs| - 1].committed && x > 0 {
      i := |cs| - 1;
    } else {
      i := CapComesFrom(cs[..|cs| - 1], x);
    }
  }

  // ----- one layer -----

  /** How many contributors reached `cap`. */
  function Reached(cs: seq<PotContributor>, cap: int): nat {
    if cs == [] then 0
    else Reached(cs[..|cs| - 1], cap) + (if cs[|cs| - 1].committed >= cap then 1 else 0)
  }

  /** The seats that reached `cap` and can still win it. */
  function EligibleAt(cs: seq<PotContributor>, cap: int): seq<int> {
    if cs == [] then []
    else
      var last := cs[|cs| - 1];
      EligibleAt(cs[..|cs| - 1], cap) + (if last.committed >= cap && last.eligible then [last.seat] else [])
  }

  function LayerAt(cs: seq<PotContributor>, below: int, cap: int): Pot {
    Pot(cap, (cap - below) * Reached(cs, cap), EligibleAt(cs, cap))
  }

  /** The cap below caps[k]. */
  function Below(caps: seq<int>, k: nat): int
    requires k <= |caps|
  {
    if k == 0 then 0 else caps[k - 1]
  }

  function Layers(cs: seq<PotContributor>, caps: seq<int>): (r: seq<Pot>) {
    seq(|caps|, k requires 0 <= k < |caps| => LayerAt(cs, Below(caps, k), caps[k]))
  }

  function PotsOf(cs: seq<PotContributor>): seq<Pot> {
    Layers(cs, Caps(cs))
  }

  /** build_pots: collect the caps into an ordered set, then cut one layer per cap. */
  method BuildPots(contributors: seq<PotContributor>) returns (pots: seq<Pot>)
    ensures pots == PotsOf(contributors)
  {
    hide Caps, Reached, EligibleAt;
    var caps := CollectCaps(contributors);
    pots := [];
    var previousCap := 0;
    for k := 0 to |caps|
      invariant previousCap == Below(caps, k)
      invariant |pots| == k
      invariant forall j :: 0 <= j < k ==> pots[j] == LayerAt(contributors, Below(caps, j), caps[j])
    {
      var count, eligible := CutLayer(contributors, caps[k]);
      CapIsReached(contributors, k);
      var pot := Pot(caps[k], (caps[k] - previousCap) * count, eligible);
      if pot.amount > 0 {
        pots := pots + [pot];
      }
      previousCap := caps[k];
    }
  }

  method CollectCaps(contributors: seq<PotContributor>) returns (caps: seq<int>)
    ensures caps == Caps(contributors)
  {
    caps := [];
    for i := 0 to |contributors|
      invariant caps == Caps(contributors[..i])
    {
      assert contributors[..i + 1][..i] == contributors[..i];
      if contributors[i].committed > 0 {
        caps := Insert(contributors[i].committed, caps);
      }
    }
    assert contributors[..|contributors|] == contributors;
  }

  method CutLayer(contributors: seq<PotContributor>, cap: int) returns (count: nat, eligible: seq<int>)
    ensures count == Reached(contributors, cap) && eligible == EligibleAt(contributors, cap)
  {
    count, eligible := 0, [];
    for i := 0 to |contributors|
      invariant count == Reached(contributors[..i], cap)
      invariant eligible == EligibleAt(contributors[..i], cap)
    {
      assert contributors[..i + 1][..i] == contributors[..i];
      if contributors[i].committed >= cap {
        count := count + 1;
        if contributors[i].eligible {
          eligible := eligible + [contributors[i].seat];
        }
      }
    }
    assert contributors[..|contributors|] == contributors;
  }

  /** No layer is empty: its slice is positive and somebody paid for it. */
  lemma CapIsReached(cs: seq<PotContributor>, k: nat)
    requires k < |Caps(cs)|
    ensures 0 <= Below(Caps(cs), k) < Caps(cs)[k]
    ensures LayerAt(cs, Below(Caps(cs), k), Caps(cs)[k]).amount > 0
  {
    var caps := Caps(cs);
    assert caps[k] in caps;
    var i := CapComesFrom(cs, caps[k]);
    ReachedBy(cs, caps[k], i);
    if k > 0 {
      assert caps[k - 1] in caps;
      var j := CapComesFrom(cs, caps[k - 1]);
    }
    PositiveProduct(caps[k] - Below(caps, k), Reached(cs, caps[k]));
  }

  lemma PositiveProduct(slice: int, count: int)
    requires slice > 0 && count > 0
    ensures slice * count > 0
  {}

  lemma {:induction false} ReachedBy(cs: seq<PotContributor>, cap: int, i: nat)
    requires i < |cs| && cs[i].committed >= cap
    ensures Reached(cs, cap) > 0
  {
    if i < |cs| - 1 {
      ReachedBy(cs[..|cs| - 1], cap, i);
    }
  }

  // ----- what the layers add up to -----

  /** What a contribution puts into the layers up to level x. */
  function Clip(committed: int, x: int): int {
    if committed <= 0 || x <= 0 then 0 else if committed < x then committed else x
  }

  /** The sum of min(committed, x) over the contributors. */
  function ClipSum(cs: seq<PotContributor>, x: int): int {
    if cs == [] then 0 else ClipSum(cs[..|cs| - 1], x) + Clip(cs[|cs| - 1].committed, x)
  }

  function AmountSum(pots: seq<Pot>): int {
    if pots == [] then 0 else AmountSum(pots[..|pots| - 1]) + pots[|pots| - 1].amount
  }

  /** Raising the level from one cap to the next adds exactly one layer. */
  lemma {:induction false} OneLayer(cs: seq<PotContributor>, below: int, cap: int)
    requires 0 <= below < cap
    requires forall i :: 0 <= i < |cs| ==> cs[i].committed <= below || cs[i].committed >= cap
    ensures ClipSum(cs, cap) == ClipSum(cs, below) + (cap - below) * Reached(cs, cap)
  {
    if cs != [] {
      OneLayer(cs[..|cs| - 1], below, cap);
      var n := Reached(cs[..|cs| - 1], cap);
      assert (cap - below) * (n + 1) == (cap - below) * n + (cap - below);
    }
  }

  lemma LayerStep(cs: seq<PotContributor>, k: nat)
    requires k < |Caps(cs)|
    ensures ClipSum(cs, Caps(cs)[k]) == ClipSum(cs, Below(Caps(cs), k)) + PotsOf(cs)[k].amount
  {
    hide Caps, ClipSum, Reached, EligibleAt;
    CapIsReached(cs, k);
    NothingBetweenCaps(cs, k);
    OneLayer(cs, Below(Caps(cs), k), Caps(cs)[k]);
  }

  /** The layers with a cap of at most caps[n-1] hold exactly the clipped contributions. */
  lemma {:induction false} LayersSumToClip(cs: seq<PotContributor>, n: nat)
    requires n <= |Caps(cs)|
    ensures AmountSum(PotsOf(cs)[..n]) == ClipSum(cs, Below(Caps(cs), n))
  {
    hide Caps, ClipSum, LayerAt;
    if n == 0 {
      ClipAtZero(cs);
    } else {
      LayersSumToClip(cs, n - 1);
      LayerStep(cs, n - 1);
      assert PotsOf(cs)[..n][..n - 1] == PotsOf(cs)[..n - 1];
    }
  }

  lemma NothingBetweenCaps(cs: seq<PotContributor>, k: nat)
    requires k < |Caps(cs)|
    ensures forall i :: 0 <= i < |cs| ==> cs[i].committed <= Below(Caps(cs), k) || cs[i].committed >= Caps(cs)[k]
  {
    CapIsReached(cs, k);
    forall i | 0 <= i < |cs| && cs[i].committed > Below(Caps(cs), k) ensures cs[i].committed >= Caps(cs)[k] {
      var j := CapOf(cs, i);
    }
  }

  lemma {:induction false} ClipAtZero(cs: seq<PotContributor>)
    ensures ClipSum(cs, 0) == 0
  {
    if cs != [] { ClipAtZero(cs[..|cs| - 1]); }
  }

  /** All layers together hold all contributions. */
  function Contributed(cs: seq<PotContributor>): int {
    if cs == [] then 0
    else Contributed(cs[..|cs| - 1]) + (if cs[|cs| - 1].committed > 0 then cs[|cs| - 1].committed else 0)
  }

  lemma {:induction false} ClipAboveAll(cs: seq<PotContributor>, x: int)
    requires x >= 0 && forall i :: 0 <= i < |cs| ==> cs[i].committed <= x
    ensures ClipSum(cs, x) == Contributed(cs)
  {
    if cs != [] {
      ClipAboveAll(cs[..|cs| - 1], x);
    }
  }

  lemma TopCapIsMaximum(cs: seq<PotContributor>)
    ensures 0 <= Below(Caps(cs), |Caps(cs)|)
    ensures forall i :: 0 <= i < |cs| ==> cs[i].committed <= Below(Caps(cs), |Caps(cs)|)
  {
    hide Caps;
    var caps := Caps(cs);
    if caps != [] {
      assert caps[|caps| - 1] in caps;
      var m := CapComesFrom(cs, caps[|caps| - 1]);
    }
    forall i | 0 <= i < |cs| ensures cs[i].committed <= Below(caps, |caps|) {
      if cs[i].committed > 0 {
        var k := CapOf(cs, i);
      }
    }
  }

  lemma PotsHoldEverything(cs: seq<PotContributor>)
    ensures AmountSum(PotsOf(cs)) == Contributed(cs)
  {
    hide Caps, ClipSum, LayerAt, AmountSum;
    var n := |Caps(cs)|;
    LayersSumToClip(cs, n);
    assert PotsOf(cs)[..n] == PotsOf(cs);
    TopCapIsMaximum(cs);
    ClipAboveAll(cs, Below(Caps(cs), n));
  }

  /** A seat is eligible at a level exactly when it contributed that much and has not folded. */
  lemma {:induction false} EligibleAtIff(cs: seq<PotContributor>, cap: int, seat: int)
    ensures seat in EligibleAt(cs, cap) <==>
            exists i :: 0 <= i < |cs| && cs[i].seat == seat && cs[i].committed >= cap && cs[i].eligible
  {
    if cs != [] {
      var init := cs[..|cs| - 1];
      EligibleAtIff(init, cap, seat);
      assert forall i :: 0 <= i < |init| ==> init[i] == cs[i];
    }
  }

  /** A higher layer is open to no seat that the layers below it exclude. */
  lemma EligibleSetsShrink(cs: seq<PotContributor>, j: nat, k: nat, seat: int)
    requires j <= k < |PotsOf(cs)| && seat in PotsOf(cs)[k].eligible
    ensures seat in PotsOf(cs)[j].eligible
  {
    hide Caps, EligibleAt, Reached;
    var caps := Caps(cs);
    assert j < k ==> caps[j] < caps[k];
    EligibleAtIff(cs, caps[k], seat);
    EligibleAtIff(cs, caps[j], seat);
  }

  /** The top cap is the largest contribution: those who reached it are those who made it. */
  lemma TopCapIsLargest(cs: seq<PotContributor>, i: nat)
    requires Caps(cs) != [] && i < |cs|
    ensures cs[i].committed >= Caps(cs)[|Caps(cs)| - 1] <==> Largest(cs, i)
  {
    hide Caps;
    var cap := Caps(cs)[|Caps(cs)| - 1];
    var m := CapComesFrom(cs, cap);
    TopCapIsMaximum(cs);
  }

  /** The top pot is open to the seats that have not folded and contributed the most. */
  lemma TopPotEligible(cs: seq<PotContributor>, s: int)
    requires PotsOf(cs) != []
    ensures s in PotsOf(cs)[|PotsOf(cs)| - 1].eligible <==>
            exists i :: 0 <= i < |cs| && cs[i].seat == s && cs[i].eligible && Largest(cs, i)
  {
    hide Caps, EligibleAt, Reached, Largest;
    EligibleAtIff(cs, Caps(cs)[|Caps(cs)| - 1], s);
    forall i: nat | i < |cs|
      ensures cs[i].committed >= Caps(cs)[|Caps(cs)| - 1] <==> Largest(cs, i)
    {
      TopCapIsLargest(cs, i);
    }
  }

  ghost predicate Largest(cs: seq<PotContributor>, i: nat)
    requires i < |cs|
  {
    forall j :: 0 <= j < |cs| ==> cs[j].committed <= cs[i].committed
  }
}
