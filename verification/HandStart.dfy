/**
  start_hand (main.cpp): from seats between hands to a live hand with blinds posted and
  hole cards dealt.
  */
module HandStart {
  import opened Common
  import opened HoldemTypes
  import opened Settlement
  import opened TableState
  import opened HandRules
  import opened HandLedger
  import opened HandCards
  import opened HandPlay

  /** A room between hands: what the engine needs to deal. */
  ghost predicate Ready(t: Table) {
    && Frame(t) && 0 < t.smallBlind <= t.bigBlind && t.initialChips >= 0
    && forall i :: i in t.players ==> t.players[i].chips >= 0
  }

  /** Every player sits somewhere: ensure_players_map has run. */
  ghost predicate Seated(t: Table) {
    forall i :: i in t.players ==> 0 <= i < |t.seats| && t.seats[i].kind != Empty
  }

  // ----- who sits down, and with what -----

  predicate Taken(t: Table, i: int) {
    0 <= i < |t.seats| && t.seats[i].kind != Empty
  }

  /** The chips seat i sits down with: its stack and a rebuy if it asked for one, or the initial chips. */
  function SitsDownWith(t: Table, i: int): int {
    if i !in t.players then t.initialChips
    else if t.players[i].pendingRebuy > 0 then t.players[i].chips + t.players[i].pendingRebuy
    else t.players[i].chips
  }

  /** What the taken seats below n sit down with together. */
  function BroughtBelow(t: Table, n: nat): int {
    if n == 0 then 0 else BroughtBelow(t, n - 1) + if Taken(t, n - 1) then SitsDownWith(t, n - 1) else 0
  }

  /** The chips on the table when a hand starts. */
  function StartingChips(t: Table): int { BroughtBelow(t, SEATS) }

  /** After ensure_players_map and apply_pending_rebuys exactly the taken seats have players, with those chips. */
  lemma WhoSitsDown(t: Table)
    ensures var ps := ApplyRebuys(EnsurePlayers(t)).players;
      (forall i :: i in ps <==> Taken(t, i)) && forall i :: i in ps ==> ps[i].chips == SitsDownWith(t, i)
  {}

  lemma {:induction false} BroughtIsTotal(t: Table, ps: Players, n: nat)
    requires (forall i :: i in ps <==> Taken(t, i)) && forall i :: i in ps ==> ps[i].chips == SitsDownWith(t, i)
    ensures BroughtBelow(t, n) == Total(ps, Chips, n)
  {
    if n > 0 { BroughtIsTotal(t, ps, n - 1); }
  }

  lemma SeatedChips(t: Table)
    ensures Total(ApplyRebuys(EnsurePlayers(t)).players, Chips, SEATS) == StartingChips(t)
  {
    WhoSitsDown(t);
    BroughtIsTotal(t, ApplyRebuys(EnsurePlayers(t)).players, SEATS);
  }

  lemma SeatedIsReady(t: Table)
    requires Ready(t)
    ensures Ready(ApplyRebuys(EnsurePlayers(t))) && Seated(ApplyRebuys(EnsurePlayers(t)))
  {}

  // ----- reset_hand -----

  ghost predicate Fresh(p: Player) {
    p.currentBet == 0 && p.contribution == 0 && p.hand == []
  }

  lemma ResetTable(t: Table, shuffled: seq<Card>)
    requires Ready(t) && Seated(t) && multiset(shuffled) == multiset(FullDeck())
    ensures var t1 := ResetHand(t, shuffled);
            && Ready(t1) && Roster(t1) && t1.round == PreFlop && t1.pending == {} && t1.board == []
            && InHand(t1) == EligibleSeats(t1) && EligibleSeats(t) <= EligibleSeats(t1)
            && forall i :: i in t1.players ==> Fresh(t1.players[i])
  {
    var t1 := ResetHand(t, shuffled);
    forall i ensures i in InHand(t1) <==> i in EligibleSeats(t1) {
    }
  }

  lemma {:induction false} NothingYet(ps: Players, n: nat)
    requires forall i :: i in ps ==> Fresh(ps[i])
    ensures Total(ps, Contribution, n) == 0 && HoleCards(ps, n) == multiset{}
  {
    if n > 0 { NothingYet(ps, n - 1); }
  }

  // ----- get_active_offset -----

  function Ahead(idx: int, m: int): int { (idx + m) % SEATS }

  /** Seat number m ahead is the first eligible one. */
  ghost predicate FirstAt(t: Table, idx: int, m: int) {
    Eligible(t, Ahead(idx, m)) && forall l :: 1 <= l < m ==> !Eligible(t, Ahead(idx, l))
  }

  lemma {:induction false} FirstAhead(t: Table, idx: int, k: nat) returns (m: nat)
    requires k >= 1 && Eligible(t, Ahead(idx, k))
    ensures 1 <= m <= k && FirstAt(t, idx, m)
  {
    hide Eligible, Ahead;
    if l :| 1 <= l < k && Eligible(t, Ahead(idx, l)) {
      m := FirstAhead(t, idx, l);
    } else {
      m := k;
    }
  }

  /** The walk of get_active_offset passes over the seats before the first eligible one. */
  lemma {:induction false} WalkToFirst(t: Table, idx: int, count: nat, loops: nat, m: nat)
    requires 0 <= idx < SEATS && count > 0 && 1 <= m <= loops && FirstAt(t, idx, m)
    ensures Walk(t, idx, count, loops) == Walk(t, Ahead(idx, m), count - 1, loops - m)
    decreases m
  {
    hide Eligible;
    assert Ahead(idx, 1) == (idx + 1) % SEATS;
    if m > 1 {
      var next := Ahead(idx, 1);
      assert !Eligible(t, next);
      forall l | 1 <= l < m - 1 ensures !Eligible(t, Ahead(next, l)) {
        assert Ahead(next, l) == Ahead(idx, l + 1);
      }
      assert Ahead(next, m - 1) == Ahead(idx, m);
      WalkToFirst(t, next, count, loops - 1, m - 1);
    }
  }

  /** The first eligible seat past from is the first stop of the walk. */
  lemma FirstStop(t: Table, from: int, e: int) returns (m: nat)
    requires Frame(t) && 0 <= from < SEATS && e in EligibleSeats(t)
    ensures 1 <= m <= SEATS && FirstAt(t, from, m) && Ahead(from, m) in EligibleSeats(t)
    ensures e != from ==> Ahead(from, m) != from
  {
    hide Eligible, FirstAt;
    var k := DistanceTo(t, from, e);
    m := FirstAhead(t, from, k);
    FirstIsEligible(t, from, m);
  }

  /** With two eligible seats, the small and the big blind are two different eligible seats. */
  lemma BlindsAreDifferentSeats(t: Table)
    requires Frame(t) && |EligibleSeats(t)| >= 2
    ensures var sb, bb := ActiveOffset(t, t.dealer, 1), ActiveOffset(t, t.dealer, 2);
            sb in EligibleSeats(t) && bb in EligibleSeats(t) && sb != bb
  {
    hide Eligible, FirstAt, EligibleSeats;
    var e := Member(EligibleSeats(t));
    var m := FirstStop(t, t.dealer, e);
    var sb := Ahead(t.dealer, m);
    WalkToFirst(t, t.dealer, 1, 30, m);
    WalkToFirst(t, t.dealer, 2, 30, m);
    var others := EligibleSeats(t) - {sb};
    assert |others| >= 1;
    var e2 := Member(others);
    var m2 := FirstStop(t, sb, e2);
    WalkToFirst(t, sb, 1, 30 - m, m2);
  }

  lemma FirstIsEligible(t: Table, idx: int, m: int)
    requires Frame(t) && FirstAt(t, idx, m)
    ensures Ahead(idx, m) in EligibleSeats(t)
  {}

  lemma DistanceTo(t: Table, from: int, e: int) returns (k: nat)
    requires Frame(t) && 0 <= from < SEATS && e in EligibleSeats(t)
    ensures 1 <= k <= SEATS && Eligible(t, Ahead(from, k)) && (e != from ==> k < SEATS)
  {
    k := EverySeatIsMet(from, e);
  }

  // ----- blinds -----

  ghost predicate StackUnder(p: Player, cap: int) {
    StackOk(p) && p.currentBet <= cap
  }

  /** Posting a blind moves chips into the pot and keeps every bet at or under the big blind. */
  lemma BlindKeepsLedger(t: Table, i: int, amount: int, cap: int)
    requires Frame(t) && i in t.players && !t.players[i].folded && !t.players[i].bankrupt
    requires 0 <= amount <= cap && t.players[i].currentBet == 0
    requires (forall j :: j in t.players ==> StackUnder(t.players[j], cap)) && t.pot == Total(t.players, Contribution, SEATS)
    ensures var t1 := PostBlind(t, i, amount);
            && Frame(t1) && SameHand(t, t1) && Bank(t1) == Bank(t) && InHand(t1) == InHand(t)
            && t1.pot == t.pot + PaidIn(t, i, amount)
            && (forall j :: j in t1.players ==> StackUnder(t1.players[j], cap)) && t1.pot == Total(t1.players, Contribution, SEATS)
            && (forall j :: j in t.players && j != i ==> t1.players[j] == t.players[j])
            && t1.players[i].chips <= t.players[i].chips
            && t1.players[i] == t.players[i].(chips := t1.players[i].chips, currentBet := t1.players[i].currentBet,
                                              contribution := t1.players[i].contribution)
  {
    PlaceBetMovesChips(t, i, amount);
    InHandIgnoresChips(t, PostBlind(t, i, amount));
  }

  // ----- hole cards -----

  lemma {:induction false} HoleCardsElsewhere(ps: Players, i: int, p: Player, n: nat)
    requires i in ps && i >= n
    ensures HoleCards(ps[i := p], n) == HoleCards(ps, n)
  {
    if n > 0 { HoleCardsElsewhere(ps, i, p, n - 1); }
  }

  lemma {:induction false} HoleCardsUpdate(ps: Players, i: int, p: Player, n: nat)
    requires i in ps && 0 <= i < n
    ensures HoleCards(ps[i := p], n) + multiset(ps[i].hand) == HoleCards(ps, n) + multiset(p.hand)
  {
    var a, b := HoleCards(ps[i := p], n - 1), HoleCards(ps, n - 1);
    if i == n - 1 {
      HoleCardsElsewhere(ps, i, p, n - 1);
      assert (a + multiset(p.hand)) + multiset(ps[i].hand) == (b + multiset(ps[i].hand)) + multiset(p.hand);
    } else {
      HoleCardsUpdate(ps, i, p, n - 1);
      var rest := if n - 1 in ps then multiset(ps[n - 1].hand) else multiset{};
      Exchange(a, b, rest, multiset(ps[i].hand), multiset(p.hand));
    }
  }

  lemma Exchange(a: multiset<Card>, b: multiset<Card>, x: multiset<Card>, o: multiset<Card>, p: multiset<Card>)
    requires a + o == b + p
    ensures (a + x) + o == (b + x) + p
  {
    forall e ensures ((a + x) + o)[e] == ((b + x) + p)[e] {
      assert (a + o)[e] == (b + p)[e];
    }
  }

  lemma Cancel(a: multiset<Card>, b: multiset<Card>, o: multiset<Card>, c: Card)
    requires a + o == b + (o + multiset{c})
    ensures a == b + multiset{c}
  {
    assert forall x :: (a + o)[x] == a[x] + o[x];
  }

  /** How many cards each seat holds at most, by how often it is listed. */
  function Listed(to: seq<int>, i: int): nat {
    multiset(to)[i]
  }

  /** Dealing leaves everything but hole cards and deck alone. */
  ghost predicate OnlyDealt(a: Table, b: Table) {
    && b == a.(players := b.players, deck := b.deck) && b.players.Keys == a.players.Keys
    && AllCards(b) == AllCards(a)
    && forall i :: i in a.players ==> b.players[i] == a.players[i].(hand := b.players[i].hand)
  }

  lemma DealOneMovesACard(t: Table, i: int)
    requires Frame(t)
    ensures OnlyDealt(t, DealOne(t, i))
    ensures forall j :: j in t.players ==>
              |DealOne(t, i).players[j].hand| <= |t.players[j].hand| + if j == i then 1 else 0
  {
    hide AllCards;
    DealOneKeepsCards(t, i);
  }

  lemma DealOneKeepsCards(t: Table, i: int)
    requires Frame(t)
    ensures AllCards(DealOne(t, i)) == AllCards(t)
  {
    hide HoleCards;
    if i in t.players && t.deck != [] {
      var n := |t.deck| - 1;
      var c := t.deck[n];
      assert t.deck == t.deck[..n] + [c];
      var p := t.players[i].(hand := t.players[i].hand + [c]);
      HoleCardsUpdate(t.players, i, p, SEATS);
      assert multiset(p.hand) == multiset(t.players[i].hand) + multiset{c};
      Cancel(HoleCards(t.players[i := p], SEATS), HoleCards(t.players, SEATS), multiset(t.players[i].hand), c);
    }
  }

  lemma {:induction false} DealRoundMovesCards(t: Table, to: seq<int>)
    requires Frame(t)
    ensures OnlyDealt(t, DealRound(t, to))
    ensures forall j :: j in t.players ==> |DealRound(t, to).players[j].hand| <= |t.players[j].hand| + Listed(to, j)
  {
    hide AllCards;
    if to != [] {
      var init, last := to[..|to| - 1], to[|to| - 1];
      assert to == init + [last];
      DealRoundMovesCards(t, init);
      DealOneMovesACard(DealRound(t, init), last);
    }
  }

  lemma {:induction false} DealtSeatIsAhead(t: Table, n: nat, i: int) returns (k: nat)
    requires i in DealOrder(t, n)
    ensures 1 <= k <= n && Ahead(t.dealer, k) == i
  {
    hide Eligible;
    if i in DealOrder(t, n - 1) {
      k := DealtSeatIsAhead(t, n - 1, i);
    } else {
      k := n;
    }
  }

  lemma NotDealtBefore(t: Table, n: nat)
    requires 0 <= t.dealer < SEATS && 0 < n <= SEATS
    ensures Ahead(t.dealer, n) !in DealOrder(t, n - 1)
  {
    hide Eligible, DealOrder;
    if Ahead(t.dealer, n) in DealOrder(t, n - 1) {
      var k := DealtSeatIsAhead(t, n - 1, Ahead(t.dealer, n));
      assert false;
    }
  }

  lemma AppendCounts(s: seq<int>, x: int, i: int)
    ensures multiset(s + [x])[i] == multiset(s)[i] + if i == x then 1 else 0
    ensures i !in s ==> multiset(s)[i] == 0
  {}

  lemma NobodyDealt(t: Table)
    ensures DealOrder(t, 0) == []
  {}

  lemma DealOrderStep(t: Table, n: nat)
    requires n > 0
    ensures DealOrder(t, n) == DealOrder(t, n - 1) || DealOrder(t, n) == DealOrder(t, n - 1) + [Ahead(t.dealer, n)]
  {
    hide Eligible;
    assert DealOrder(t, n - 1) + [] == DealOrder(t, n - 1);
  }

  /** The deal visits each seat at most once. */
  lemma {:induction false} DealtOnceEach(t: Table, n: nat, i: int)
    requires 0 <= t.dealer < SEATS && n <= SEATS
    ensures Listed(DealOrder(t, n), i) <= 1
  {
    hide Eligible, DealOrder;
    if n == 0 {
      assert DealOrder(t, 0) == [] by { NobodyDealt(t); }
    } else {
      DealtOnceEach(t, n - 1, i);
      if i == Ahead(t.dealer, n) {
        NotDealtBefore(t, n);
      }
      DealOrderStep(t, n);
      AppendCounts(DealOrder(t, n - 1), Ahead(t.dealer, n), i);
    }
  }

  /** With cards enough, every listed seat gets one. */
  lemma {:induction false} DealRoundExact(t: Table, to: seq<int>)
    requires Frame(t) && (forall i :: i in to ==> i in t.players) && |t.deck| >= |to|
    ensures |DealRound(t, to).deck| == |t.deck| - |to|
    ensures forall j :: j in t.players ==>
              j in DealRound(t, to).players
              && |DealRound(t, to).players[j].hand| == |t.players[j].hand| + Listed(to, j)
  {
    if to != [] {
      var init, last := to[..|to| - 1], to[|to| - 1];
      assert to == init + [last];
      DealRoundExact(t, init);
      assert last in to;
      forall j ensures Listed(to, j) == Listed(init, j) + if j == last then 1 else 0 {
        AppendCounts(init, last, j);
      }
      hide Listed, DealRound;
      DealRoundUnfolds(t, to);
    }
  }

  lemma DealRoundUnfolds(t: Table, to: seq<int>)
    requires to != []
    ensures DealRound(t, to) == DealOne(DealRound(t, to[..|to| - 1]), to[|to| - 1])
  {}

  lemma {:induction false} DealOrderGrows(t: Table, m: nat, n: nat)
    requires m <= n
    ensures |DealOrder(t, n)| <= n
    ensures forall i :: i in DealOrder(t, m) ==> i in DealOrder(t, n)
    ensures forall i :: i in DealOrder(t, n) ==> Eligible(t, i)
    decreases n
  {
    hide Eligible;
    if n > 0 {
      DealOrderGrows(t, if m < n then m else n - 1, n - 1);
    }
  }

  /** The deal visits exactly the eligible seats. */
  lemma DealtIffEligible(t: Table, i: int)
    requires Frame(t)
    ensures Listed(DealOrder(t, SEATS), i) == if Eligible(t, i) then 1 else 0
  {
    hide Eligible, DealOrder;
    DealtOnceEach(t, SEATS, i);
    DealOrderGrows(t, SEATS, SEATS);
    if Eligible(t, i) {
      var m := MetAt(t, i);
      DealOrderGrows(t, m, SEATS);
    }
  }

  lemma EligibleIsListed(t: Table, i: int)
    requires Eligible(t, i)
    ensures i in EligibleSeats(t) && i in t.players
  {}

  lemma MetAt(t: Table, i: int) returns (m: nat)
    requires Frame(t) && Eligible(t, i)
    ensures 1 <= m <= SEATS && i in DealOrder(t, m)
  {
    EligibleIsListed(t, i);
    m := EverySeatIsMet(t.dealer, i);
    hide Eligible;
    assert (t.dealer + m) % SEATS == i;
  }

  /**
    Each seat gets at most two hole cards; with enough cards in the deck, exactly the eligible
    seats get two and the others none.
    */
  lemma HoleCardsDealt(t: Table)
    requires Frame(t) && forall i :: i in t.players ==> t.players[i].hand == []
    ensures OnlyDealt(t, DealHoleCards(t)) && AtMostTwoEach(DealHoleCards(t).players)
    ensures |t.deck| >= 2 * SEATS ==>
      forall i :: i in t.players ==> |DealHoleCards(t).players[i].hand| == if Eligible(t, i) then 2 else 0
  {
    hide AllCards, DealOrder, DealRound, Eligible, Listed;
    var to := DealOrder(t, SEATS);
    DealRoundMovesCards(t, to);
    DealRoundMovesCards(DealRound(t, to), to);
    forall i | i in t.players ensures |DealHoleCards(t).players[i].hand| <= 2 {
      DealtOnceEach(t, SEATS, i);
    }
    if |t.deck| >= 2 * SEATS {
      TwoRoundsExact(t);
    }
  }

  lemma TwoRoundsExact(t: Table)
    requires Frame(t) && |t.deck| >= 2 * SEATS && forall i :: i in t.players ==> t.players[i].hand == []
    ensures forall i :: i in t.players ==>
      i in DealHoleCards(t).players && |DealHoleCards(t).players[i].hand| == if Eligible(t, i) then 2 else 0
  {
    hide AllCards, DealOrder, DealRound, Eligible, Listed;
    var to := DealOrder(t, SEATS);
    DealOrderGrows(t, SEATS, SEATS);
    forall i | i in to ensures i in t.players {
      EligibleIsListed(t, i);
    }
    DealRoundMovesCards(t, to);
    var t1 := DealRound(t, to);
    DealRoundExact(t, to);
    DealRoundExact(t1, to);
    forall i | i in t.players ensures |DealRound(t1, to).players[i].hand| == if Eligible(t, i) then 2 else 0 {
      DealtIffEligible(t, i);
    }
  }

  // ----- start_hand -----

  ghost predicate Posted(t: Table, bank: int) {
    && Frame(t) && Ledger(t) && Cards(t) && Roster(t) && t.round == PreFlop && Bank(t) == bank && t.pot > 0
    && t.currentMaxBet == t.bigBlind == t.minRaise && Capped(t)
  }

  lemma EligibleHasChips(t: Table, i: int)
    requires i in EligibleSeats(t)
    ensures t.players[i].chips > 0
  {}

  lemma BlindsPosted(t: Table)
    requires Ready(t) && Roster(t) && (forall i :: i in t.players ==> Fresh(t.players[i]))
    requires t.pot == 0 && |EligibleSeats(t)| >= 2 && InHand(t) == EligibleSeats(t)
    ensures var sb, bb := ActiveOffset(t, t.dealer, 1), ActiveOffset(t, t.dealer, 2);
            var t1 := PostBlind(PostBlind(t.(sb := sb, bb := bb), sb, t.smallBlind), bb, t.bigBlind);
            && Frame(t1) && SameHand(t, t1) && Bank(t1) == Total(t.players, Chips, SEATS) && InHand(t1) == InHand(t)
            && (forall j :: j in t1.players ==> StackUnder(t1.players[j], t.bigBlind))
            && t1.pot == Total(t1.players, Contribution, SEATS) && t1.pot > 0
            && (forall j :: j in t1.players ==> t1.players[j].folded == t.players[j].folded)
            && (forall j :: j in t1.players ==> t1.players[j].chips <= t.players[j].chips)
            && t1.round == t.round && t1.deck == t.deck && t1.board == t.board && t1.pending == t.pending
            && t1.bigBlind == t.bigBlind
  {
    hide Walk, EligibleSeats;
    BlindsAreDifferentSeats(t);
    var sb, bb := ActiveOffset(t, t.dealer, 1), ActiveOffset(t, t.dealer, 2);
    NothingYet(t.players, SEATS);
    var t0 := t.(sb := sb, bb := bb);
    InHandIgnoresChips(t, t0);
    assert sb in InHand(t) && bb in InHand(t);
    EligibleHasChips(t, sb);
    BlindKeepsLedger(t0, sb, t.smallBlind, t.bigBlind);
    BlindKeepsLedger(PostBlind(t0, sb, t.smallBlind), bb, t.bigBlind, t.bigBlind);
  }

  lemma PostedAndDealt(t: Table)
    requires Ready(t) && Roster(t) && (forall i :: i in t.players ==> Fresh(t.players[i]))
    requires t.pot == 0 && |EligibleSeats(t)| >= 2 && InHand(t) == EligibleSeats(t)
    requires t.round == PreFlop && t.board == [] && multiset(t.deck) == multiset(FullDeck())
    ensures var t1 := PostAndDeal(t);
            Posted(t1, Total(t.players, Chips, SEATS)) && InHand(t1) == InHand(t) && SameSeats(t, t1)
  {
    hide Walk, EligibleSeats, FullDeck, DealHoleCards, AllCards, PostBlind, Total;
    BlindsPosted(t);
    var sb, bb := ActiveOffset(t, t.dealer, 1), ActiveOffset(t, t.dealer, 2);
    var t1 := PostBlind(PostBlind(t.(sb := sb, bb := bb), sb, t.smallBlind), bb, t.bigBlind);
    HoleCardsDealt(t1);
    RosterSame(t, t1);
    var t2 := DealHoleCards(t1);
    BeforeDealAllInDeck(t, t1);
    DealingKeepsLedger(t1, t2, t.bigBlind);
    SameCards(t2, PostAndDeal(t));
  }

  lemma SameCards(a: Table, b: Table)
    requires a.deck == b.deck && a.board == b.board && a.players == b.players
    ensures AllCards(a) == AllCards(b)
  {}

  lemma RosterSame(a: Table, b: Table)
    requires Roster(a) && SameHand(a, b) && forall i :: i in a.players ==> b.players[i].folded == a.players[i].folded
    ensures Roster(b)
  {
    forall i | i in b.players && !b.players[i].folded ensures InHandSeat(b, i) {
      assert InHandSeat(a, i);
    }
  }

  ghost predicate SameSeats(a: Table, b: Table) {
    b.seats == a.seats && b.dealer == a.dealer && b.handNum == a.handNum && b.players.Keys == a.players.Keys
  }

  lemma BeforeDealAllInDeck(t: Table, t1: Table)
    requires (forall i :: i in t.players ==> Fresh(t.players[i])) && multiset(t.deck) == multiset(FullDeck()) && t.board == []
    requires SameHand(t, t1) && t1.deck == t.deck && t1.board == t.board
    ensures AllCards(t1) == multiset(FullDeck())
  {
    hide FullDeck;
    NothingYet(t.players, SEATS);
    SameHandSameCards(t, t1);
  }

  lemma DealingKeepsLedger(a: Table, b: Table, cap: int)
    requires Frame(a) && OnlyDealt(a, b) && cap > 0
    requires (forall j :: j in a.players ==> StackUnder(a.players[j], cap)) && a.pot == Total(a.players, Contribution, SEATS)
    ensures var c := b.(currentMaxBet := cap, minRaise := cap);
            && Frame(c) && Ledger(c) && Capped(c) && Bank(c) == Bank(a) && c.pot == a.pot && InHand(c) == InHand(a)
            && (Roster(a) ==> Roster(c))
  {
    hide AllCards;
    TotalSame(a.players, b.players, Contribution, SEATS);
    TotalSame(a.players, b.players, Chips, SEATS);
    var c := b.(currentMaxBet := cap, minRaise := cap);
    forall i ensures i in InHand(c) <==> i in InHand(a) {
    }
    if Roster(a) {
      forall i | i in c.players && !c.players[i].folded ensures InHandSeat(c, i) {
        assert InHandSeat(a, i);
      }
    }
  }

  /** start_hand deals when two seats are eligible once seats are filled and rebuys applied. */
  ghost predicate Deals(t: Table) {
    |EligibleSeats(ApplyRebuys(EnsurePlayers(t)))| >= 2
  }

  /** The table the first turn is requested from. */
  function Opening(t: Table, shuffled: seq<Card>): Table {
    var t2 := ResetHand(ApplyRebuys(EnsurePlayers(t)), shuffled);
    InitPending(PostAndDeal(t2), ActiveOffset(t2, t2.dealer, 3))
  }

  lemma OpeningIsBetting(t: Table, shuffled: seq<Card>)
    requires Ready(t) && Deals(t) && multiset(shuffled) == multiset(FullDeck())
    ensures Betting(Opening(t, shuffled)) && |InHand(Opening(t, shuffled))| >= 2
    ensures Bank(Opening(t, shuffled)) == StartingChips(t) && Opening(t, shuffled).pot > 0
    ensures Opening(t, shuffled).currentMaxBet == Opening(t, shuffled).minRaise == t.bigBlind && Capped(Opening(t, shuffled))
    ensures Opening(t, shuffled).pending == Actable(Opening(t, shuffled))
  {
    hide Walk, FullDeck, PostAndDeal, Ledger, Cards, Bank, Total, ResetHand, EligibleSeats;
    var t1 := ApplyRebuys(EnsurePlayers(t));
    SeatedIsReady(t);
    var t2 := ResetHand(t1, shuffled);
    ResetTable(t1, shuffled);
    SubsetIsSmaller(EligibleSeats(t1), EligibleSeats(t2));
    ResetKeepsChips(t1, shuffled);
    ResetKeepsBlinds(t1, shuffled);
    SeatedChips(t);
    PostedAndDealt(t2);
    AskedFirst(PostAndDeal(t2), ActiveOffset(t2, t2.dealer, 3), Total(t2.players, Chips, SEATS));
  }

  lemma ResetKeepsBlinds(t: Table, shuffled: seq<Card>)
    ensures var t1 := ResetHand(t, shuffled);
            t1.bigBlind == t.bigBlind && t1.pot == 0 && t1.deck == shuffled && t1.dealer == t.dealer
            && PostAndDeal(t1).bigBlind == t1.bigBlind
  {
    hide Walk;
    var t1 := ResetHand(t, shuffled);
    DealKeepsBlinds(PostBlind(PostBlind(t1.(sb := ActiveOffset(t1, t1.dealer, 1), bb := ActiveOffset(t1, t1.dealer, 2)),
                                        ActiveOffset(t1, t1.dealer, 1), t1.smallBlind),
                              ActiveOffset(t1, t1.dealer, 2), t1.bigBlind));
  }

  lemma DealKeepsBlinds(t: Table)
    ensures DealHoleCards(t).bigBlind == t.bigBlind
  {
    hide DealOrder;
    var to := DealOrder(t, SEATS);
    DealRoundKeepsBlinds(t, to);
    DealRoundKeepsBlinds(DealRound(t, to), to);
  }

  lemma {:induction false} DealRoundKeepsBlinds(t: Table, to: seq<int>)
    ensures DealRound(t, to).bigBlind == t.bigBlind
  {
    if to != [] { DealRoundKeepsBlinds(t, to[..|to| - 1]); }
  }

  lemma AskedFirst(t: Table, start: int, bank: int)
    requires Posted(t, bank) && |InHand(t)| >= 2
    ensures var t1 := InitPending(t, start);
            Betting(t1) && |InHand(t1)| >= 2 && Bank(t1) == bank && t1.pot > 0 && t1.currentMaxBet == t.bigBlind
            && t1.pending == Actable(t1) && Capped(t1) && t1.minRaise == t.bigBlind
  {
    hide Ledger, Cards, Bank;
    var t1 := InitPending(t, start);
    TurnChangesOnly(t, t1);
    LedgerIgnoresTurn(t, t1);
    CardsIgnoreTurn(t, t1);
  }

  lemma ResetKeepsChips(t: Table, shuffled: seq<Card>)
    ensures Total(ResetHand(t, shuffled).players, Chips, SEATS) == Total(t.players, Chips, SEATS)
  {
    TotalSame(t.players, ResetHand(t, shuffled).players, Chips, SEATS);
  }

  /** start_hand ends by asking for the first turn. */
  lemma StartIsRequested(t: Table, shuffled: seq<Card>)
    requires Deals(t)
    ensures StartHand(t, shuffled) == RequestTurn(Opening(t, shuffled))
  {
    hide RequestTurn, ResetHand, PostAndDeal, Walk;
  }

  /** A started hand is live with all chips on the table, or already settled. */
  lemma StartOutcome(t: Table, shuffled: seq<Card>)
    requires Ready(t) && Deals(t) && multiset(shuffled) == multiset(FullDeck())
    ensures Outcome(Opening(t, shuffled), StartHand(t, shuffled))
  {
    hide Walk, FullDeck, PostAndDeal, RequestTurn, ResetHand, Outcome;
    OpeningIsBetting(t, shuffled);
    var t1 := Opening(t, shuffled);
    TurnChangesOnly(t1, t1);
    RequestTurnOutcome(t1, t1);
  }

  // ----- who holds cards -----

  /** Dealt after the blinds: a seat that its blind put all-in is passed over. */
  ghost predicate HandsFollowBlinds(t: Table) {
    forall i :: i in t.players ==> |t.players[i].hand| == if i in InHand(t) && t.players[i].chips > 0 then 2 else 0
  }

  lemma DealtAfterBlinds(t: Table)
    requires Ready(t) && Roster(t) && (forall i :: i in t.players ==> Fresh(t.players[i]))
    requires t.pot == 0 && |EligibleSeats(t)| >= 2 && InHand(t) == EligibleSeats(t)
    requires t.round == PreFlop && t.board == [] && multiset(t.deck) == multiset(FullDeck())
    ensures HandsFollowBlinds(PostAndDeal(t)) && InHand(PostAndDeal(t)) == EligibleSeats(t)
  {
    hide Walk, FullDeck, DealHoleCards, AllCards, PostBlind, Total, Eligible, InHandSeat;
    BlindsPosted(t);
    PostedAndDealt(t);
    var sb, bb := ActiveOffset(t, t.dealer, 1), ActiveOffset(t, t.dealer, 2);
    var t1 := PostBlind(PostBlind(t.(sb := sb, bb := bb), sb, t.smallBlind), bb, t.bigBlind);
    assert |multiset(t.deck)| == 52;
    HoleCardsDealt(t1);
    forall i | i in t1.players
      ensures Eligible(t1, i) <==> i in InHand(t1) && t1.players[i].chips > 0
    {
      EligibleAfterBlinds(t, t1, i);
    }
  }

  /** Who is dealt in: those still in the hand with chips left. */
  lemma EligibleAfterBlinds(t: Table, t1: Table, i: int)
    requires SameHand(t, t1) && InHand(t1) == InHand(t) == EligibleSeats(t) && i in t1.players
    requires t1.players[i].folded == t.players[i].folded && t1.players[i].chips <= t.players[i].chips
    ensures Eligible(t1, i) <==> i in InHand(t1) && t1.players[i].chips > 0
  {
    assert i in EligibleSeats(t) <==> Eligible(t, i);
    assert i in InHand(t1) <==> InHandSeat(t1, i);
  }

  /**
    When the first turn is asked, the seats in the hand are those eligible before the blinds;
    those of them with chips left hold two cards, and one put all-in by its blind none.
    */
  lemma OpeningHands(t: Table, shuffled: seq<Card>)
    requires Ready(t) && Deals(t) && multiset(shuffled) == multiset(FullDeck())
    ensures HandsFollowBlinds(Opening(t, shuffled))
    ensures InHand(Opening(t, shuffled)) == EligibleSeats(ResetHand(ApplyRebuys(EnsurePlayers(t)), shuffled))
  {
    hide Walk, FullDeck, PostAndDeal, ResetHand, Eligible, InHandSeat;
    var t1 := ApplyRebuys(EnsurePlayers(t));
    SeatedIsReady(t);
    var t2 := ResetHand(t1, shuffled);
    ResetTable(t1, shuffled);
    hide EligibleSeats;
    SubsetIsSmaller(EligibleSeats(t1), EligibleSeats(t2));
    ResetKeepsBlinds(t1, shuffled);
    DealtAfterBlinds(t2);
    TurnKeepsHands(PostAndDeal(t2), ActiveOffset(t2, t2.dealer, 3));
  }

  lemma TurnKeepsHands(t: Table, start: int)
    requires HandsFollowBlinds(t)
    ensures HandsFollowBlinds(InitPending(t, start)) && InHand(InitPending(t, start)) == InHand(t)
  {
    assert InitPending(t, start).players == t.players;
    forall i ensures i in InHand(InitPending(t, start)) <==> i in InHand(t) {
    }
  }
}
