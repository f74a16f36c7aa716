/**
  Card conservation: deck, board and hole cards are always the 52 cards of the fresh deck,
  the board grows 0-3-4-5 with the streets, and the deck never runs out.
  */
module HandCards {
  import opened HoldemTypes
  import opened TableState
  import opened HandRules
  import opened HandLedger

  // ----- the fresh deck -----

  function Suit(k: nat): string {
    match k
    case 0 => "hearts"
    case 1 => "diamonds"
    case 2 => "clubs"
    case _ => "spades"
  }

  function RankLabel(v: int): string {
    match v
    case 2 => "2" case 3 => "3" case 4 => "4" case 5 => "5" case 6 => "6"
    case 7 => "7" case 8 => "8" case 9 => "9" case 10 => "10"
    case 11 => "J" case 12 => "Q" case 13 => "K"
    case _ => "A"
  }

  function CardAt(k: nat): Card {
    Card(Suit(k / 13), RankLabel(k % 13 + 2), k % 13 + 2)
  }

  /** fresh_deck before the shuffle. */
  function FullDeck(): (d: seq<Card>)
    ensures |d| == 52
  {
    seq(52, k requires 0 <= k < 52 => CardAt(k))
  }

  lemma CardsDiffer(j: nat, k: nat)
    requires j < k < 52
    ensures CardAt(j) != CardAt(k)
  {
    var a, b := Suit(j / 13), Suit(k / 13);
    if j / 13 != k / 13 {
      assert "hearts"[0] == 'h' && "diamonds"[0] == 'd' && "clubs"[0] == 'c' && "spades"[0] == 's';
      assert a[0] != b[0];
    }
  }

  /** A repetition-free sequence holds each element once. */
  lemma {:induction false} OnceEach(s: seq<Card>, c: Card)
    requires forall i, j :: 0 <= i < j < |s| ==> s[i] != s[j]
    ensures multiset(s)[c] <= 1
  {
    if s != [] {
      assert s == [s[0]] + s[1..];
      OnceEach(s[1..], c);
    }
  }

  /** The fresh deck has 52 different cards. */
  lemma DeckCardsAreDistinct(c: Card)
    ensures multiset(FullDeck())[c] <= 1
  {
    var d := FullDeck();
    forall i, j | 0 <= i < j < |d| ensures d[i] != d[j] {
      CardsDiffer(i, j);
    }
    OnceEach(d, c);
  }

  // ----- where the cards are -----

  function HoleCards(ps: Players, n: nat): multiset<Card> {
    if n == 0 then multiset{}
    else HoleCards(ps, n - 1) + if n - 1 in ps then multiset(ps[n - 1].hand) else multiset{}
  }

  function AllCards(t: Table): multiset<Card> {
    multiset(t.deck) + multiset(t.board) + HoleCards(t.players, SEATS)
  }

  function BoardSize(r: Round): nat {
    match r
    case PreFlop => 0
    case Flop => 3
    case Turn => 4
    case _ => 5
  }

  ghost predicate AtMostTwoEach(ps: Players) {
    forall i :: i in ps ==> |ps[i].hand| <= 2
  }

  /** The cards of a running hand. */
  ghost predicate Cards(t: Table) {
    && AllCards(t) == multiset(FullDeck())
    && AtMostTwoEach(t.players)
    && |t.board| == BoardSize(t.round)
  }

  lemma {:induction false} HoleCardsCount(ps: Players, n: nat)
    requires AtMostTwoEach(ps)
    ensures |HoleCards(ps, n)| <= 2 * n
  {
    if n > 0 { HoleCardsCount(ps, n - 1); }
  }

  /** The deck always has cards left for the rest of the board. */
  lemma DeckNeverRunsOut(t: Table)
    requires AllCards(t) == multiset(FullDeck()) && AtMostTwoEach(t.players)
    ensures |t.deck| + |t.board| >= 32
  {
    HoleCardsCount(t.players, SEATS);
    assert |AllCards(t)| == |t.deck| + |t.board| + |HoleCards(t.players, SEATS)|;
    assert |multiset(FullDeck())| == 52;
  }

  lemma {:induction false} HoleCardsSame(a: Players, b: Players, n: nat)
    requires a.Keys == b.Keys && forall i :: i in a ==> a[i].hand == b[i].hand
    ensures HoleCards(a, n) == HoleCards(b, n)
  {
    if n > 0 { HoleCardsSame(a, b, n - 1); }
  }

  lemma SameHandSameCards(a: Table, b: Table)
    requires SameHand(a, b) && a.deck == b.deck && a.board == b.board
    ensures AllCards(b) == AllCards(a) && (AtMostTwoEach(a.players) ==> AtMostTwoEach(b.players))
  {
    HoleCardsSame(a.players, b.players, SEATS);
  }

  // ----- dealing -----

  /** Dealing to the board moves cards from the deck's end. */
  lemma {:induction false} DealingToBoard(t: Table, n: nat)
    requires n <= |t.deck|
    ensures var t1 := DealCommunity(t, n);
            && AllCards(t1) == AllCards(t) && t1.players == t.players
            && |t1.board| == |t.board| + n && |t1.deck| == |t.deck| - n
    decreases n
  {
    hide HoleCards;
    if n > 0 {
      var last := |t.deck| - 1;
      assert t.deck == t.deck[..last] + [t.deck[last]];
      var t0 := t.(board := t.board + [t.deck[last]], deck := t.deck[..last]);
      DealingToBoard(t0, n - 1);
    }
  }

  lemma ClearingBetsKeepsCards(t: Table, r: Round)
    ensures var t1 := t.(players := ClearBets(t.players), currentMaxBet := 0, round := r);
            AllCards(t1) == AllCards(t) && (AtMostTwoEach(t.players) ==> AtMostTwoEach(t1.players))
  {
    HoleCardsSame(t.players, ClearBets(t.players), SEATS);
  }

  lemma NextStreetKeepsCards(t: Table)
    requires Cards(t) && StreetsLeft(t.round) > 0
    ensures Cards(NextStreet(t))
  {
    hide AllCards, FullDeck, ClearBets;
    var n := if t.round == PreFlop then 3 else if t.round == River then 0 else 1;
    var r := if t.round == PreFlop then Flop else if t.round == Flop then Turn else if t.round == Turn then River else Showdown;
    var t1 := t.(players := ClearBets(t.players), currentMaxBet := 0, round := r);
    ClearingBetsKeepsCards(t, r);
    DeckNeverRunsOut(t1);
    DealingToBoard(t1, n);
    DealCommunityKeepsRound(t1, n);
  }

  /** A contested settlement completes the board to five cards. */
  lemma RunoutCompletesBoard(t: Table)
    requires AllCards(t) == multiset(FullDeck()) && AtMostTwoEach(t.players) && |t.board| <= 5
    ensures AllCards(Runout(t)) == multiset(FullDeck()) && |Runout(t).board| == 5 && Runout(t).players == t.players
  {
    hide AllCards, FullDeck;
    DeckNeverRunsOut(t);
    DealingToBoard(t, 5 - |t.board|);
  }
}
