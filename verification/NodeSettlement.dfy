/**
  The second settlement: getPayoutOrder, buildSidePots and resolvePots of server.js,
  proved to credit every seat exactly what the engine's finish_hand credits.  Players
  come in Map insertion order, which need not be seat order.
  */
module NodeSettlement {
  import opened HoldemTypes
  import opened HoldemEvaluator
  import opened PotManager
  import opened Settlement

  datatype SidePot = SidePot(amount: int, contributing: seq<int>, eligible: seq<int>)

  datatype WinnerRow = WinnerRow(seat: int, amount: int)

  /** What is sent to the table about one pot. */
  datatype PotResult = PotResult(potIndex: nat, amount: int, eligible: seq<int>, winners: seq<WinnerRow>, desc: string)

  lemma ClockwiseStep(dealer: int, w: set<int>, step: nat, before: seq<int>)
    requires step <= SEATS
    ensures var idx := (dealer + step) % SEATS;
      before + Clockwise(dealer, w, step) == (before + if idx in w then [idx] else []) + Clockwise(dealer, w, step + 1)
  {}

  /** getPayoutOrder: scan the seats clockwise from the one after the dealer. */
  method GetPayoutOrder(dealer: int, winners: seq<int>) returns (order: seq<int>)
    ensures order == Clockwise(dealer, set s | s in winners, 1)
  {
    var winnerSet := set s | s in winners;
    order := [];
    var step := 1;
    assert order + Clockwise(dealer, winnerSet, 1) == Clockwise(dealer, winnerSet, 1);
    while step <= SEATS
      invariant 1 <= step <= SEATS + 1
      invariant order + Clockwise(dealer, winnerSet, step) == Clockwise(dealer, winnerSet, 1)
    {
      hide Clockwise;
      ClockwiseStep(dealer, winnerSet, step, order);
      var idx := (dealer + step) % SEATS;
      order := order + if idx in winnerSet then [idx] else [];
      step := step + 1;
    }
    assert Clockwise(dealer, winnerSet, step) == [];
  }

  /** The seats that put in at least `level`, folded or not, in the order of the players. */
  function ContributingAt(players: seq<PotContributor>, level: int): seq<int> {
    if players == [] then []
    else
      var last := players[|players| - 1];
      ContributingAt(players[..|players| - 1], level) + if last.committed >= level then [last.seat] else []
  }

  /** A seat contributes to a level exactly when some player in it put in that much. */
  lemma {:induction false} ContributingAtIff(players: seq<PotContributor>, level: int, seat: int)
    ensures |ContributingAt(players, level)| == Reached(players, level)
    ensures seat in ContributingAt(players, level) <==>
            exists i :: 0 <= i < |players| && players[i].seat == seat && players[i].committed >= level
  {
    if players != [] {
      var init := players[..|players| - 1];
      ContributingAtIff(init, level, seat);
      assert forall i :: 0 <= i < |init| ==> init[i] == players[i];
    }
  }

  /** The pot is the engine's layer, with the seats that paid for it. */
  ghost predicate LayerOf(pot: SidePot, engine: Pot, players: seq<PotContributor>) {
    && pot.amount == engine.amount && pot.eligible == engine.eligible
    && pot.contributing == ContributingAt(players, engine.cap)
  }

  /** buildSidePots: the engine's layers, whatever order the players come in. */
  method BuildSidePots(players: seq<PotContributor>) returns (pots: seq<SidePot>)
    ensures |pots| == |PotsOf(players)|
    ensures forall k :: 0 <= k < |pots| ==> LayerOf(pots[k], PotsOf(players)[k], players)
  {
    hide Caps, Reached, EligibleAt, ContributingAt, LayerOf;
    var levels := Caps(players);
    pots := [];
    var previous := 0;
    for k := 0 to |levels|
      invariant |pots| == k && previous == Below(levels, k)
      invariant forall j :: 0 <= j < k ==> LayerOf(pots[j], PotsOf(players)[j], players)
    {
      assert levels[k] in levels;
      var source := CapComesFrom(players, levels[k]);
      var contributing, eligible := SeatsAtLevel(players, levels[k]);
      LevelIsLayer(players, k, contributing, eligible);
      var pot := SidePot((levels[k] - previous) * |contributing|, contributing, eligible);
      if pot.amount > 0 {
        pots := pots + [pot];
      }
      previous := levels[k];
    }
  }

  lemma LevelIsLayer(players: seq<PotContributor>, k: nat, contributing: seq<int>, eligible: seq<int>)
    requires k < |Caps(players)| && |contributing| == Reached(players, Caps(players)[k])
    requires contributing == ContributingAt(players, Caps(players)[k]) && eligible == EligibleAt(players, Caps(players)[k])
    ensures var pot := SidePot((Caps(players)[k] - Below(Caps(players), k)) * |contributing|, contributing, eligible);
      pot.amount > 0 && LayerOf(pot, PotsOf(players)[k], players)
  {
    hide Caps, Reached, EligibleAt, ContributingAt;
    CapIsReached(players, k);
  }

  /** The positive contributions of at least `level`, and those of them that have not folded. */
  method SeatsAtLevel(players: seq<PotContributor>, level: int) returns (contributing: seq<int>, eligible: seq<int>)
    requires level > 0
    ensures contributing == ContributingAt(players, level) && eligible == EligibleAt(players, level)
    ensures |contributing| == Reached(players, level)
  {
    contributing, eligible := [], [];
    for i := 0 to |players|
      invariant contributing == ContributingAt(players[..i], level)
      invariant eligible == EligibleAt(players[..i], level)
    {
      assert players[..i + 1][..i] == players[..i];
      if players[i].committed > 0 && players[i].committed >= level {
        contributing := contributing + [players[i].seat];
        if players[i].eligible {
          eligible := eligible + [players[i].seat];
        }
      }
    }
    assert players[..|players|] == players;
    ContributingAtIff(players, level, 0);
  }

  /** An evaluated seat that can win. */
  datatype Entry = Entry(seat: int, best: HandEval)

  ghost predicate EntryOf(e: Entry, evalMap: Hands, eligible: seq<int>) {
    Contends(evalMap, eligible, e.seat) && e.best == evalMap[e.seat]
  }

  ghost predicate EntriesOf(entries: seq<Entry>, evalMap: Hands, eligible: seq<int>) {
    && (forall i :: 0 <= i < |entries| ==> EntryOf(entries[i], evalMap, eligible))
    && (forall s :: Contends(evalMap, eligible, s) ==> exists i :: 0 <= i < |entries| && entries[i].seat == s)
  }

  method CollectEntries(evalMap: Hands, eligible: seq<int>) returns (entries: seq<Entry>)
    ensures EntriesOf(entries, evalMap, eligible)
  {
    entries := [];
    for i := 0 to |eligible|
      invariant forall j :: 0 <= j < |entries| ==> EntryOf(entries[j], evalMap, eligible)
      invariant forall k :: 0 <= k < i && eligible[k] in evalMap ==> exists j :: 0 <= j < |entries| && entries[j].seat == eligible[k]
    {
      if eligible[i] in evalMap {
        ghost var before := entries;
        entries := entries + [Entry(eligible[i], evalMap[eligible[i]])];
        assert entries[|before|].seat == eligible[i];
        assert forall j :: 0 <= j < |before| ==> entries[j] == before[j];
      }
    }
  }

  /** A strongest entry comes first. */
  ghost predicate HeadIsBest(s: seq<Entry>) {
    forall i :: 0 <= i < |s| ==> Compare(s[i].best, s[0].best) <= 0
  }

  ghost predicate AllEvaluated(s: seq<Entry>) {
    forall i :: 0 <= i < |s| ==> Evaluated(s[i].best)
  }

  /** eligible.sort with its comparator, strongest first. */
  function InsertEntry(e: Entry, s: seq<Entry>): (r: seq<Entry>)
    ensures r != [] && forall x :: x in r <==> x == e || x in s
  {
    if s == [] || Compare(e.best, s[0].best) >= 0 then [e] + s
    else
      assert s == [s[0]] + s[1..];
      [s[0]] + InsertEntry(e, s[1..])
  }

  function SortEntries(s: seq<Entry>): (r: seq<Entry>)
    ensures forall x :: x in r <==> x in s
    ensures s != [] ==> r != []
  {
    if s == [] then []
    else
      assert s == [s[0]] + s[1..];
      InsertEntry(s[0], SortEntries(s[1..]))
  }

  lemma {:induction false} SortedHeadIsBest(s: seq<Entry>)
    requires AllEvaluated(s)
    ensures HeadIsBest(SortEntries(s)) && AllEvaluated(SortEntries(s))
  {
    if s != [] {
      SortedHeadIsBest(s[1..]);
      InsertKeepsHead(s[0], SortEntries(s[1..]));
    }
  }

  lemma InsertKeepsHead(e: Entry, s: seq<Entry>)
    requires Evaluated(e.best) && AllEvaluated(s) && HeadIsBest(s)
    ensures HeadIsBest(InsertEntry(e, s)) && AllEvaluated(InsertEntry(e, s))
  {
    hide Compare, Evaluated;
    var r := InsertEntry(e, s);
    CompareIsTotalPreorder(e.best, e.best, e.best);
    forall i | 0 <= i < |r| ensures Evaluated(r[i].best) && Compare(r[i].best, r[0].best) <= 0 {
      assert r[i] in r;
      if r[i] != e {
        var k :| 0 <= k < |s| && s[k] == r[i];
        CompareIsTotalPreorder(e.best, s[0].best, s[k].best);
        CompareIsTotalPreorder(s[0].best, s[k].best, s[k].best);
        CompareIsTotalPreorder(e.best, s[k].best, s[k].best);
      } else {
        CompareIsTotalPreorder(e.best, if s == [] then e.best else s[0].best, e.best);
      }
    }
  }

  method FilterWinners(entries: seq<Entry>, best: HandEval) returns (winners: seq<int>)
    ensures forall s :: s in winners <==> exists i :: 0 <= i < |entries| && entries[i].seat == s && Compare(entries[i].best, best) == 0
  {
    winners := [];
    for k := 0 to |entries|
      invariant forall s :: s in winners <==>
                  exists i :: 0 <= i < k && entries[i].seat == s && Compare(entries[i].best, best) == 0
    {
      var c := CompareHands(entries[k].best, best);
      if c == 0 {
        winners := winners + [entries[k].seat];
      }
    }
  }

  lemma FilteredAreWinners(entries: seq<Entry>, evalMap: Hands, eligible: seq<int>, best: HandEval, winners: seq<int>)
    requires ValidHands(evalMap) && EntriesOf(entries, evalMap, eligible) && Evaluated(best)
    requires exists i :: 0 <= i < |entries| && entries[i].best == best
    requires forall i :: 0 <= i < |entries| ==> Compare(entries[i].best, best) <= 0
    requires forall s :: s in winners <==> exists i :: 0 <= i < |entries| && entries[i].seat == s && Compare(entries[i].best, best) == 0
    ensures (set s | s in winners) == Winners(evalMap, eligible)
  {
    hide Compare, Evaluated;
    var b :| 0 <= b < |entries| && entries[b].best == best;
    forall s ensures s in winners <==> s in Winners(evalMap, eligible) {
      if s in winners {
        var i :| 0 <= i < |entries| && entries[i].seat == s && Compare(entries[i].best, best) == 0;
        CompareIsTotalPreorder(entries[i].best, best, best);
        forall t | t in evalMap && t in eligible ensures Compare(evalMap[t], evalMap[s]) <= 0 {
          assert Contends(evalMap, eligible, t);
          var j :| 0 <= j < |entries| && entries[j].seat == t;
          assert Compare(entries[j].best, best) <= 0;
        }
      }
      if s in Winners(evalMap, eligible) {
        assert Contends(evalMap, eligible, s);
        var i :| 0 <= i < |entries| && entries[i].seat == s;
        assert Contends(evalMap, eligible, entries[b].seat);
        assert Compare(best, entries[i].best) <= 0;
        CompareIsTotalPreorder(entries[i].best, best, best);
      }
    }
  }

  function PaidSoFar(payouts: map<int, int>, s: int): int {
    if s in payouts then payouts[s] else 0
  }

  /** The crediting loop: share plus one odd chip each while the remainder lasts. */
  method CreditWinners(payouts0: map<int, int>, order: seq<int>, share: int, odd: int) returns (payouts: map<int, int>)
    requires odd >= 0
    ensures forall s :: PaidSoFar(payouts, s) == PaidSoFar(payouts0, s) + SplitCredit(order, share, odd, s)
  {
    payouts := payouts0;
    var remainder := odd;
    for k := 0 to |order|
      invariant remainder >= 0
      invariant forall s :: PaidSoFar(payouts, s) + SplitCredit(order[k..], share, remainder, s)
                         == PaidSoFar(payouts0, s) + SplitCredit(order, share, odd, s)
    {
      var extra := if remainder > 0 then 1 else 0;
      assert order[k..][1..] == order[k + 1..];
      payouts := payouts[order[k] := PaidSoFar(payouts, order[k]) + share + extra];
      remainder := remainder - extra;
    }
  }

  /** The displayed amounts: share plus one for the first `odd` winners. */
  method DisplayRows(order: seq<int>, share: int, odd: int) returns (rows: seq<WinnerRow>)
    requires NoRepeats(order)
    ensures |rows| == |order|
    ensures forall k :: 0 <= k < |order| ==> rows[k] == WinnerRow(order[k], SplitCredit(order, share, odd, order[k]))
  {
    rows := [];
    for k := 0 to |order|
      invariant |rows| == k
      invariant forall j :: 0 <= j < k ==> rows[j] == WinnerRow(order[j], SplitCredit(order, share, odd, order[j]))
    {
      OddChipsGoLeftOfDealer(order, share, odd, k);
      rows := rows + [WinnerRow(order[k], share + if odd > 0 && k < odd then 1 else 0)];
    }
  }

  /** The seats the pot pays, in payout order, or none when no evaluated seat is eligible. */
  method PotOrder(evalMap: Hands, dealer: int, eligible: seq<int>) returns (order: seq<int>, desc: string)
    requires ValidHands(evalMap) && 0 <= dealer < SEATS
    ensures order == Clockwise(dealer, Winners(evalMap, eligible), 1)
    ensures forall s :: s in Winners(evalMap, eligible) ==> evalMap[s].desc == desc
  {
    hide Winners, Clockwise, Compare, Evaluated;
    var entries := CollectEntries(evalMap, eligible);
    var winners := [];
    desc := "";
    if entries != [] {
      SortedHeadIsBest(entries);
      var sorted := SortEntries(entries);
      SortKeepsEntries(entries, evalMap, eligible);
      var best := sorted[0].best;
      winners := FilterWinners(sorted, best);
      FilteredAreWinners(sorted, evalMap, eligible, best, winners);
      CompareIsTotalPreorder(best, best, best);
      assert sorted[0].seat in winners;
      assert sorted[0].seat in set s | s in winners;
      WinnersShareHand(evalMap, eligible, sorted[0]);
      desc := best.desc;
    } else {
      NobodyWins(evalMap, eligible);
      assert (set s | s in winners) == {};
    }
    order := GetPayoutOrder(dealer, winners);
  }

  /** Every winner holds the same evaluation as the best entry. */
  lemma WinnersShareHand(evalMap: Hands, eligible: seq<int>, best: Entry)
    requires ValidHands(evalMap) && EntryOf(best, evalMap, eligible)
    requires best.seat in Winners(evalMap, eligible)
    ensures forall s :: s in Winners(evalMap, eligible) ==> s in evalMap && evalMap[s] == best.best
  {
    forall s | s in Winners(evalMap, eligible) ensures s in evalMap && evalMap[s] == best.best {
      CompareIsTotalPreorder(evalMap[s], best.best, best.best);
    }
  }

  lemma SortKeepsEntries(entries: seq<Entry>, evalMap: Hands, eligible: seq<int>)
    requires ValidHands(evalMap) && EntriesOf(entries, evalMap, eligible)
    ensures EntriesOf(SortEntries(entries), evalMap, eligible) && AllEvaluated(entries)
  {
    var sorted := SortEntries(entries);
    forall i | 0 <= i < |sorted| ensures EntryOf(sorted[i], evalMap, eligible) {
      assert sorted[i] in sorted;
    }
    forall s | Contends(evalMap, eligible, s) ensures exists i :: 0 <= i < |sorted| && sorted[i].seat == s {
      var i :| 0 <= i < |entries| && entries[i].seat == s;
      assert entries[i] in sorted;
    }
  }

  lemma NobodyWins(evalMap: Hands, eligible: seq<int>)
    requires EntriesOf([], evalMap, eligible)
    ensures Winners(evalMap, eligible) == {}
  {
    forall s ensures s !in Winners(evalMap, eligible) {
      assert !Contends(evalMap, eligible, s);
    }
  }

  /** The rows of a pot: its winners in payout order, each with the amount credited. */
  ghost predicate RowsShow(rows: seq<WinnerRow>, evalMap: Hands, dealer: int, pot: Pot) {
    var order := Clockwise(dealer, Winners(evalMap, pot.eligible), 1);
    && |rows| == |order|
    && forall j :: 0 <= j < |order| ==> rows[j] == WinnerRow(order[j], PotCredit(evalMap, dealer, pot, order[j]))
  }

  /** A result displays its pot: amount, eligible seats, winners and their hand. */
  ghost predicate Displays(r: PotResult, evalMap: Hands, dealer: int, pots: seq<Pot>) {
    && r.potIndex < |pots| && r.amount == pots[r.potIndex].amount && r.eligible == pots[r.potIndex].eligible
    && RowsShow(r.winners, evalMap, dealer, pots[r.potIndex])
    && forall s :: s in Winners(evalMap, pots[r.potIndex].eligible) ==> evalMap[s].desc == r.desc
  }

  /** Some result is about pot k. */
  ghost predicate Shown(results: seq<PotResult>, k: nat) {
    exists i :: 0 <= i < |results| && results[i].potIndex == k
  }

  ghost predicate IndicesRise(results: seq<PotResult>) {
    forall i, j :: 0 <= i < j < |results| ==> results[i].potIndex < results[j].potIndex
  }

  /** The results for the first n pots: each claimed pot once, in order, and nothing else. */
  ghost predicate ResultsFor(results: seq<PotResult>, evalMap: Hands, dealer: int, pots: seq<Pot>, n: nat)
    requires n <= |pots|
  {
    && (forall i :: 0 <= i < |results| ==> results[i].potIndex < n && Displays(results[i], evalMap, dealer, pots))
    && (forall k :: 0 <= k < n ==> (Shown(results, k) <==> Claimed(evalMap, pots[k])))
    && IndicesRise(results)
  }

  lemma OneMoreResult(results: seq<PotResult>, r: PotResult, evalMap: Hands, dealer: int, pots: seq<Pot>, n: nat)
    requires n < |pots| && ResultsFor(results, evalMap, dealer, pots, n)
    requires r.potIndex == n && Displays(r, evalMap, dealer, pots) && Claimed(evalMap, pots[n])
    ensures ResultsFor(results + [r], evalMap, dealer, pots, n + 1)
  {
    hide Displays, Claimed;
    var more := results + [r];
    assert more[|results|].potIndex == n;
    forall k | 0 <= k < n + 1 ensures Shown(more, k) <==> Claimed(evalMap, pots[k]) {
      if Shown(results, k) {
        var i :| 0 <= i < |results| && results[i].potIndex == k;
        assert more[i].potIndex == k;
      }
    }
  }

  lemma NoResult(results: seq<PotResult>, evalMap: Hands, dealer: int, pots: seq<Pot>, n: nat)
    requires n < |pots| && ResultsFor(results, evalMap, dealer, pots, n) && !Claimed(evalMap, pots[n])
    ensures ResultsFor(results, evalMap, dealer, pots, n + 1)
  {
    hide Displays, Claimed;
  }

  /**
    resolvePots: one pass over the side pots.  Every seat is credited its payout; a pot is
    displayed exactly when somebody can win it, once, and with all its winners in payout
    order.
    */
  method ResolvePots(players: seq<PotContributor>, evalMap: Hands, dealer: int)
    returns (payouts: map<int, int>, results: seq<PotResult>)
    requires ValidHands(evalMap) && 0 <= dealer < SEATS
    ensures forall s :: PaidSoFar(payouts, s) == Payout(evalMap, dealer, PotsOf(players), s)
    ensures forall i :: 0 <= i < |results| ==> Displays(results[i], evalMap, dealer, PotsOf(players))
    ensures forall k :: 0 <= k < |PotsOf(players)| ==> (Shown(results, k) <==> Claimed(evalMap, PotsOf(players)[k]))
    ensures IndicesRise(results)
  {
    hide PotsOf, PotCredit, Payout, ValidHands, Displays, Claimed, Shown, IndicesRise, ContributingAt;
    hide ResultsFor, RowsShow, Winners, Clockwise;
    ghost var engine := PotsOf(players);
    var pots := BuildSidePots(players);
    payouts, results := map[], [];
    NothingShown(evalMap, dealer, engine);
    PayoutStarts(evalMap, dealer);
    for k := 0 to |pots|
      invariant forall s :: PaidSoFar(payouts, s) == Payout(evalMap, dealer, engine[..k], s)
      invariant ResultsFor(results, evalMap, dealer, engine, k)
    {
      PayoutGrows(evalMap, dealer, engine, k);
      var rows, desc;
      payouts, rows, desc := ResolvePot(payouts, evalMap, dealer, pots[k], engine[k]);
      if rows != [] {
        var result := PotResult(k, pots[k].amount, pots[k].eligible, rows, desc);
        ResultDisplays(result, evalMap, dealer, engine);
        OneMoreResult(results, result, evalMap, dealer, engine, k);
        results := results + [result];
      } else {
        NoResult(results, evalMap, dealer, engine, k);
      }
    }
    assert engine[..|engine|] == engine;
    AllResults(results, evalMap, dealer, engine);
  }

  lemma PayoutStarts(evalMap: Hands, dealer: int)
    ensures forall s :: Payout(evalMap, dealer, [], s) == 0
  {}

  lemma PayoutGrows(evalMap: Hands, dealer: int, pots: seq<Pot>, k: nat)
    requires k < |pots|
    ensures forall s :: Payout(evalMap, dealer, pots[..k + 1], s) ==
                        Payout(evalMap, dealer, pots[..k], s) + PotCredit(evalMap, dealer, pots[k], s)
  {
    hide PotCredit;
    assert pots[..k + 1][..k] == pots[..k];
  }

  lemma AllResults(results: seq<PotResult>, evalMap: Hands, dealer: int, pots: seq<Pot>)
    requires ResultsFor(results, evalMap, dealer, pots, |pots|)
    ensures forall i :: 0 <= i < |results| ==> Displays(results[i], evalMap, dealer, pots)
    ensures forall k :: 0 <= k < |pots| ==> (Shown(results, k) <==> Claimed(evalMap, pots[k]))
    ensures IndicesRise(results)
  {
    hide Displays, Shown, Claimed, IndicesRise;
  }

  lemma NothingShown(evalMap: Hands, dealer: int, pots: seq<Pot>)
    ensures ResultsFor([], evalMap, dealer, pots, 0)
  {}

  lemma ResultDisplays(r: PotResult, evalMap: Hands, dealer: int, pots: seq<Pot>)
    requires r.potIndex < |pots| && r.amount == pots[r.potIndex].amount && r.eligible == pots[r.potIndex].eligible
    requires RowsShow(r.winners, evalMap, dealer, pots[r.potIndex])
    requires forall s :: s in Winners(evalMap, pots[r.potIndex].eligible) ==> evalMap[s].desc == r.desc
    ensures Displays(r, evalMap, dealer, pots)
  {
    hide RowsShow, Winners;
  }

  /** One pot: nothing is credited or displayed when nobody can win it. */
  method ResolvePot(payouts0: map<int, int>, evalMap: Hands, dealer: int, pot: SidePot, ghost engine: Pot)
    returns (payouts: map<int, int>, rows: seq<WinnerRow>, desc: string)
    requires ValidHands(evalMap) && 0 <= dealer < SEATS
    requires pot.amount == engine.amount && pot.eligible == engine.eligible
    ensures forall s :: PaidSoFar(payouts, s) == PaidSoFar(payouts0, s) + PotCredit(evalMap, dealer, engine, s)
    ensures RowsShow(rows, evalMap, dealer, engine)
    ensures forall s :: s in Winners(evalMap, engine.eligible) ==> evalMap[s].desc == desc
    ensures rows != [] <==> Claimed(evalMap, engine)
  {
    hide Clockwise, Winners, SplitCredit, Claimed;
    ClaimedMeansWon(evalMap, engine);
    var order;
    order, desc := PotOrder(evalMap, dealer, pot.eligible);
    OrderIsTheWinners(evalMap, dealer, engine);
    if order == [] {
      assert forall s :: s in Winners(evalMap, engine.eligible) ==> s in order;
      assert Winners(evalMap, engine.eligible) == {};
      return payouts0, [], desc;
    }
    assert order[0] in order;
    var share, odd := pot.amount / |order|, pot.amount % |order|;
    ClockwiseOrdered(dealer, Winners(evalMap, pot.eligible), 1);
    OrderHasNoRepeats(dealer, order);
    payouts := CreditWinners(payouts0, order, share, odd);
    rows := DisplayRows(order, share, odd);
  }

  // ----- the order of the players does not matter -----

  lemma {:induction false} IncreasingUnique(a: seq<int>, b: seq<int>)
    requires Increasing(a) && Increasing(b) && forall x :: x in a <==> x in b
    ensures a == b
  {
    if b != [] {
      assert b[0] in b && b[0] in a;
    }
    if a != [] {
      assert a[0] in a && a[0] in b;
      assert a[0] == b[0];
      assert a == [a[0]] + a[1..] && b == [b[0]] + b[1..];
      forall x ensures x in a[1..] <==> x in b[1..] {
        assert x in a <==> x in b;
      }
      IncreasingUnique(a[1..], b[1..]);
    }
  }

  lemma CapsTransfer(a: seq<PotContributor>, b: seq<PotContributor>, x: int)
    requires multiset(a) == multiset(b) && x in Caps(a)
    ensures x in Caps(b)
  {
    hide Caps;
    var i := CapComesFrom(a, x);
    assert a[i] in multiset(b);
    var j :| 0 <= j < |b| && b[j] == a[i];
    var k := CapOf(b, j);
  }

  lemma CapsIgnoreOrder(a: seq<PotContributor>, b: seq<PotContributor>)
    requires multiset(a) == multiset(b)
    ensures Caps(a) == Caps(b)
  {
    hide Caps;
    forall x ensures x in Caps(a) <==> x in Caps(b) {
      if x in Caps(a) { CapsTransfer(a, b, x); }
      if x in Caps(b) { CapsTransfer(b, a, x); }
    }
    IncreasingUnique(Caps(a), Caps(b));
  }

  lemma {:induction false} ReachedAppend(a: seq<PotContributor>, b: seq<PotContributor>, cap: int)
    ensures Reached(a + b, cap) == Reached(a, cap) + Reached(b, cap)
  {
    if b == [] {
      assert a + b == a;
    } else {
      assert (a + b)[..|a + b| - 1] == a + b[..|b| - 1];
      ReachedAppend(a, b[..|b| - 1], cap);
    }
  }

  lemma {:induction false} ReachedIgnoresOrder(a: seq<PotContributor>, b: seq<PotContributor>, cap: int)
    requires multiset(a) == multiset(b)
    ensures Reached(a, cap) == Reached(b, cap)
  {
    if a == [] {
      assert |b| == |multiset(b)| == |multiset(a)| == 0;
    } else {
      var init, last := a[..|a| - 1], a[|a| - 1];
      assert a == init + [last];
      assert last in multiset(b);
      var k :| 0 <= k < |b| && b[k] == last;
      assert multiset(init) == multiset(b[..k] + b[k + 1..]) by {
        assert multiset(init) == multiset(a) - multiset{last};
        assert b == b[..k] + [last] + b[k + 1..];
        assert multiset(b[..k] + b[k + 1..]) == multiset(b) - multiset{last};
      }
      ReachedIgnoresOrder(init, b[..k] + b[k + 1..], cap);
      ReachedWithout(b, k, cap);
    }
  }

  lemma ReachedWithout(b: seq<PotContributor>, k: nat, cap: int)
    requires k < |b|
    ensures Reached(b, cap) == Reached(b[..k] + b[k + 1..], cap) + if b[k].committed >= cap then 1 else 0
  {
    assert b == b[..k] + ([b[k]] + b[k + 1..]);
    assert b[..k + 1][..k] == b[..k];
    assert b == b[..k + 1] + b[k + 1..];
    ReachedAppend(b[..k + 1], b[k + 1..], cap);
    ReachedAppend(b[..k], b[k + 1..], cap);
  }

  lemma EligibleTransfers(a: seq<PotContributor>, b: seq<PotContributor>, cap: int, s: int)
    requires multiset(a) == multiset(b) && s in EligibleAt(a, cap)
    ensures s in EligibleAt(b, cap)
  {
    hide EligibleAt;
    EligibleAtIff(a, cap, s);
    EligibleAtIff(b, cap, s);
    var i :| 0 <= i < |a| && a[i].seat == s && a[i].committed >= cap && a[i].eligible;
    assert a[i] in multiset(b);
    var j :| 0 <= j < |b| && b[j] == a[i];
  }

  /** Reordering the contributors changes neither the pots' amounts nor who can win them. */
  lemma PotsIgnoreOrder(a: seq<PotContributor>, b: seq<PotContributor>)
    requires multiset(a) == multiset(b)
    ensures |PotsOf(a)| == |PotsOf(b)|
    ensures forall k :: 0 <= k < |PotsOf(a)| ==>
              && PotsOf(a)[k].amount == PotsOf(b)[k].amount
              && forall s :: s in PotsOf(a)[k].eligible <==> s in PotsOf(b)[k].eligible
  {
    hide Caps, Reached, EligibleAt;
    CapsIgnoreOrder(a, b);
    forall k | 0 <= k < |PotsOf(a)|
      ensures PotsOf(a)[k].amount == PotsOf(b)[k].amount
      ensures forall s :: s in PotsOf(a)[k].eligible <==> s in PotsOf(b)[k].eligible
    {
      var cap := Caps(a)[k];
      ReachedIgnoresOrder(a, b, cap);
      forall s ensures s in EligibleAt(a, cap) <==> s in EligibleAt(b, cap) {
        if s in EligibleAt(a, cap) { EligibleTransfers(a, b, cap, s); }
        if s in EligibleAt(b, cap) { EligibleTransfers(b, a, cap, s); }
      }
    }
  }

  lemma {:induction false} SamePotsSamePayout(hands: Hands, dealer: int, p: seq<Pot>, q: seq<Pot>, s: int)
    requires |p| == |q|
    requires forall k :: 0 <= k < |p| ==>
               p[k].amount == q[k].amount && forall t :: t in p[k].eligible <==> t in q[k].eligible
    ensures Payout(hands, dealer, p, s) == Payout(hands, dealer, q, s)
  {
    hide PotCredit;
    if p != [] {
      var n := |p| - 1;
      SamePotsSamePayout(hands, dealer, p[..n], q[..n], s);
      SamePotSameCredit(hands, dealer, p[n], q[n], s);
    }
  }

  lemma SamePotSameCredit(hands: Hands, dealer: int, p: Pot, q: Pot, s: int)
    requires p.amount == q.amount && forall t :: t in p.eligible <==> t in q.eligible
    ensures PotCredit(hands, dealer, p, s) == PotCredit(hands, dealer, q, s)
  {
    hide Compare;
    var wp, wq := Winners(hands, p.eligible), Winners(hands, q.eligible);
    forall t ensures t in wp <==> t in wq {
      assert Contends(hands, p.eligible, t) <==> Contends(hands, q.eligible, t);
    }
    assert wp == wq;
  }

  /**
    For the same contributions, folds, dealer and hands, the players listed in any order,
    the two settlements pay every seat the same.  (Both resolvePots and PayPots are proved
    to pay exactly these amounts.)
    */
  lemma SettlementsAgree(hands: Hands, dealer: int, node: seq<PotContributor>, engine: seq<PotContributor>, s: int)
    requires multiset(node) == multiset(engine)
    ensures Payout(hands, dealer, PotsOf(node), s) == Payout(hands, dealer, PotsOf(engine), s)
  {
    hide PotsOf;
    PotsIgnoreOrder(node, engine);
    SamePotsSamePayout(hands, dealer, PotsOf(node), PotsOf(engine), s);
  }
}
