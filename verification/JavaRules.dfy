/**
  The gateway's hand (RoomControlWsService.java) as functions on table values.  The class
  JavaRoom.Room holds the same fields and updates them in place.
  */
module JavaRules {
  import opened Common
  import opened HoldemTypes
  import opened HoldemEvaluator
  import opened JavaEvaluator

  const SMALL_BLIND := 50
  const BIG_BLIND := 100
  const BET_UNIT := 50
  const MIN_PLAYERS_TO_START := 2

  datatype Street = Waiting | PreFlop | Flop | Turn | River | HandOver

  datatype Player = Player(chips: int, bet: int, folded: bool, allIn: bool, hole: seq<Card>)

  type Players = map<int, Player>

  /** `seats` is the ascending list of taken seats; it does not change during a hand. */
  datatype Table = Table(
    seats: seq<int>, players: Players,
    handNum: int, dealer: int, turn: int, pot: int, maxBet: int, minRaise: int,
    street: Street, deck: seq<Card>, board: seq<Card>, pending: set<int>)

  datatype Action = Fold | Check | Call | AllIn | Raise(amount: Option<int32>) | Unsupported

  ghost predicate SeatList(seats: seq<int>) {
    && (forall i :: 0 <= i < |seats| ==> 0 <= seats[i] < SEATS)
    && forall i, j :: 0 <= i < j < |seats| ==> seats[i] < seats[j]
  }

  // ----- going round the seats -----

  /** indexOf; the length when absent. */
  function IndexOf(seats: seq<int>, s: int): (i: nat)
    ensures i <= |seats| && (i < |seats| ==> seats[i] == s)
    ensures i == |seats| ==> s !in seats
  {
    if seats == [] then 0
    else if seats[0] == s then 0
    else
      assert seats == [seats[0]] + seats[1..];
      1 + IndexOf(seats[1..], s)
  }

  function NextSeatFrom(seats: seq<int>, current: int): int {
    if seats == [] then -1
    else if current < 0 || IndexOf(seats, current) == |seats| then seats[0]
    else seats[(IndexOf(seats, current) + 1) % |seats|]
  }

  /** The first pending seat met in at most n steps from idx. */
  function ScanPending(seats: seq<int>, pending: set<int>, idx: int, n: nat): int
    decreases n
  {
    if n == 0 then -1
    else
      var next := NextSeatFrom(seats, idx);
      if next in pending then next else ScanPending(seats, pending, next, n - 1)
  }

  function NextPendingSeat(t: Table, current: int): int {
    if t.pending == {} then -1 else ScanPending(t.seats, t.pending, current, SEATS + 1)
  }

  /** The found seat is no longer pending. */
  function GiveTurn(t: Table, seat: int): Table {
    t.(turn := seat, pending := t.pending - {seat})
  }

  // ----- players -----

  predicate CanAct(t: Table, s: int) {
    s in t.players && !t.players[s].folded && !t.players[s].allIn && t.players[s].chips > 0
  }

  function ActingSeats(t: Table): set<int> {
    set s | s in t.seats && CanAct(t, s)
  }

  function ContendersOf(seats: seq<int>, players: Players): seq<int> {
    if seats == [] then []
    else (if seats[0] in players && !players[seats[0]].folded then [seats[0]] else []) + ContendersOf(seats[1..], players)
  }

  function Contenders(t: Table): seq<int> {
    ContendersOf(t.seats, t.players)
  }

  function Pay(t: Table, s: int, paid: int): Table
    requires s in t.players
  {
    var p := t.players[s];
    t.(players := t.players[s := p.(chips := p.chips - paid, bet := p.bet + paid)], pot := t.pot + paid)
  }

  function MarkAllIn(t: Table, s: int): Table
    requires s in t.players
  {
    t.(players := t.players[s := t.players[s].(allIn := true)])
  }

  function PostBlind(t: Table, s: int, blind: int): Table {
    if s !in t.players || t.players[s].folded then t
    else
      var pay := Min(t.players[s].chips, blind);
      var t1 := Pay(t, s, pay);
      if t1.players[s].chips == 0 then MarkAllIn(t1, s) else t1
  }

  /** Integer division as in Java: towards zero. */
  function Quotient(x: int, y: int): int
    requires y > 0
  {
    if x >= 0 then x / y else -((-x) / y)
  }

  /**
    Rounded up to the betting unit, and at least the minimum raise; the sum is an int, and near
    INT_MAX it comes out negative.
    */
  function NormalizeRaiseBy(raiseBy: int, minRaise: int): int {
    var unit := Max(1, BET_UNIT);
    var v := Max(Max(minRaise, unit), raiseBy);
    Quotient(Signed(v + unit - 1), unit) * unit
  }

  // ----- showdown -----

  /** The score bestHand gives these cards. */
  function Strength(cards: seq<Card>): int {
    if |cards| < 5 then 0 else Encode(Best(cards))
  }

  function SeatStrength(t: Table, s: int): int
    requires s in t.players
  {
    Strength(t.players[s].hole + t.board)
  }

  function TopStrength(t: Table, seats: seq<int>): int
    requires seats != [] && forall s :: s in seats ==> s in t.players
  {
    var last := SeatStrength(t, seats[|seats| - 1]);
    if |seats| == 1 then last else Max(TopStrength(t, seats[..|seats| - 1]), last)
  }

  function WithStrength(t: Table, seats: seq<int>, score: int): seq<int>
    requires forall s :: s in seats ==> s in t.players
  {
    if seats == [] then []
    else
      WithStrength(t, seats[..|seats| - 1], score) +
      if SeatStrength(t, seats[|seats| - 1]) == score then [seats[|seats| - 1]] else []
  }

  /** A sole contender wins unseen; otherwise the best score does, ties sharing. */
  function Winners(t: Table, contenders: seq<int>): seq<int>
    requires forall s :: s in contenders ==> s in t.players
  {
    if |contenders| <= 1 then contenders
    else WithStrength(t, contenders, TopStrength(t, contenders))
  }

  /** The first n winners paid; the remainder goes to the first of them. */
  function PayWinners(players: Players, winners: seq<int>, share: int, rem: int, n: nat): Players
    requires n <= |winners| && forall s :: s in winners ==> s in players
    ensures PayWinners(players, winners, share, rem, n).Keys == players.Keys
  {
    if n == 0 then players
    else
      var before := PayWinners(players, winners, share, rem, n - 1);
      var s := winners[n - 1];
      before[s := before[s].(chips := before[s].chips + share + if n == 1 then rem else 0)]
  }

  function Settled(players: Players, winners: seq<int>, pot: int): Players
    requires forall s :: s in winners ==> s in players
  {
    if winners == [] then players
    else PayWinners(players, winners, pot / |winners|, pot % |winners|, |winners|)
  }

  /** finishHand; the pot field keeps its value. */
  function FinishHand(t: Table): Table {
    ContendersArePlayers(t.seats, t.players);
    WinnersArePlayers(t, Contenders(t));
    t.(street := HandOver, turn := -1, players := Settled(t.players, Winners(t, Contenders(t)), t.pot))
  }

  lemma {:induction false} ContendersArePlayers(seats: seq<int>, players: Players)
    ensures forall s :: s in ContendersOf(seats, players) <==> s in seats && s in players && !players[s].folded
  {
    if seats != [] {
      assert seats == [seats[0]] + seats[1..];
      ContendersArePlayers(seats[1..], players);
    }
  }

  lemma {:induction false} StrengthSubset(t: Table, seats: seq<int>, score: int)
    requires forall s :: s in seats ==> s in t.players
    ensures forall s :: s in WithStrength(t, seats, score) <==> s in seats && SeatStrength(t, s) == score
  {
    if seats != [] {
      assert seats == seats[..|seats| - 1] + [seats[|seats| - 1]];
      StrengthSubset(t, seats[..|seats| - 1], score);
    }
  }

  lemma WinnersArePlayers(t: Table, contenders: seq<int>)
    requires forall s :: s in contenders ==> s in t.players
    ensures forall s :: s in Winners(t, contenders) ==> s in contenders
  {
    if |contenders| > 1 {
      hide TopStrength, SeatStrength;
      StrengthSubset(t, contenders, TopStrength(t, contenders));
    }
  }

  // ----- streets -----

  function StreetsLeft(s: Street): nat {
    match s
    case PreFlop => 4
    case Flop => 3
    case Turn => 2
    case River => 1
    case _ => 0
  }

  /** dealCommunity; an empty deck is replaced by a fresh one. */
  function DealCommunity(t: Table, n: nat): Table
    decreases n
  {
    if n == 0 then t
    else
      var deck := if t.deck == [] then FreshDeck() else t.deck;
      DealCommunity(t.(board := t.board + [deck[|deck| - 1]], deck := deck[..|deck| - 1]), n - 1)
  }

  function Suit(k: nat): string {
    match k
    case 0 => "S"
    case 1 => "H"
    case 2 => "D"
    case _ => "C"
  }

  function RankLabel(v: int): string {
    match v
    case 14 => "A" case 13 => "K" case 12 => "Q" case 11 => "J" case 10 => "T"
    case 9 => "9" case 8 => "8" case 7 => "7" case 6 => "6" case 5 => "5"
    case 4 => "4" case 3 => "3"
    case _ => "2"
  }

  function CardAt(k: nat): Card {
    Card(Suit(k / 13), RankLabel(k % 13 + 2), k % 13 + 2)
  }

  /** freshDeck, before any shuffle. */
  function FreshDeck(): (d: seq<Card>)
    ensures |d| == 52
  {
    seq(52, k requires 0 <= k < 52 => CardAt(k))
  }

  function ClearBets(t: Table): Players {
    map s | s in t.players :: if s in t.seats then t.players[s].(bet := 0) else t.players[s]
  }

  /** Pending seats are given up when none of them could be found (currentTurnSeatIdx is then -1). */
  function EndStreet(t: Table): Table {
    t.(players := ClearBets(t), maxBet := 0, minRaise := BIG_BLIND, pending := {},
       turn := if t.pending == {} then t.turn else -1)
  }

  /** resetPendingForStreet */
  function ResetPending(t: Table): Table {
    t.(pending := ActingSeats(t) - {t.turn})
  }

  /** firstActionSeatForStreet */
  function FirstAction(t: Table): Table {
    if t.seats == [] then t.(turn := -1)
    else
      var seat := if t.street == PreFlop then t.turn else NextSeatFrom(t.seats, t.dealer);
      GiveTurn(t, if seat in t.pending then seat else NextPendingSeat(t, seat))
  }

  /** The next street and its community cards. */
  function DealStreet(t: Table): Table {
    if t.street == PreFlop then DealCommunity(t.(street := Flop), 3)
    else if t.street == Flop then DealCommunity(t.(street := Turn), 1)
    else DealCommunity(t.(street := River), 1)
  }

  function NextStreet(t: Table): Table
    requires StreetsLeft(t.street) > 1
  {
    FirstAction(ResetPending(DealStreet(t)))
  }

  lemma {:induction false} DealKeepsStreet(t: Table, n: nat)
    ensures DealCommunity(t, n) == t.(board := DealCommunity(t, n).board, deck := DealCommunity(t, n).deck)
    decreases n
  {
    if n > 0 {
      var deck := if t.deck == [] then FreshDeck() else t.deck;
      DealKeepsStreet(t.(board := t.board + [deck[|deck| - 1]], deck := deck[..|deck| - 1]), n - 1);
    }
  }

  lemma DealStreetKeeps(t: Table)
    ensures var u := DealStreet(t);
      u == t.(street := u.street, board := u.board, deck := u.deck) && 1 <= StreetsLeft(u.street)
    ensures StreetsLeft(t.street) > 1 ==> StreetsLeft(DealStreet(t).street) == StreetsLeft(t.street) - 1
  {
    hide DealCommunity;
    DealKeepsStreet(t.(street := Flop), 3);
    DealKeepsStreet(t.(street := Turn), 1);
    DealKeepsStreet(t.(street := River), 1);
  }

  lemma NextStreetAdvances(t: Table)
    requires StreetsLeft(t.street) > 1
    ensures StreetsLeft(NextStreet(t).street) == StreetsLeft(t.street) - 1
  {
    hide DealStreet, NextPendingSeat, NextSeatFrom;
    DealStreetKeeps(t);
  }

  /** settleStreetOrAdvanceTurn */
  function Settle(t: Table): Table
    decreases StreetsLeft(t.street), 1
  {
    if |Contenders(t)| <= 1 then FinishHand(t)
    else if t.pending != {} && NextPendingSeat(t, t.turn) >= 0 then GiveTurn(t, NextPendingSeat(t, t.turn))
    else CloseStreet(t)
  }

  /** The rest of its loop body; going round again runs the board out while nobody can act. */
  function CloseStreet(t: Table): Table
    decreases StreetsLeft(t.street), 0
  {
    var t1 := EndStreet(t);
    if StreetsLeft(t1.street) <= 1 then FinishHand(t1)
    else
      NextStreetAdvances(t1);
      var t2 := NextStreet(t1);
      if t2.turn >= 0 then t2 else Settle(t2)
  }

  // ----- actions -----

  function CallNeed(t: Table, s: int): int
    requires s in t.players
  {
    Max(0, t.maxBet - t.players[s].bet)
  }

  /** `amount` is what getAsInt makes of the client's number, if there is one. */
  function RaiseBy(t: Table, amount: Option<int32>): int {
    NormalizeRaiseBy(if amount.Some? then Max(1, amount.value) else t.minRaise, t.minRaise)
  }

  /** Raises currentMaxBet to the seat's bet when that is higher. */
  function Lift(t: Table, s: int): Table
    requires s in t.players
  {
    var delta := t.players[s].bet - t.maxBet;
    if delta > 0
    then t.(maxBet := t.players[s].bet, minRaise := NormalizeRaiseBy(Max(t.minRaise, delta), BET_UNIT))
    else t
  }

  /** resetPendingAfterAggression */
  function Reopen(t: Table, s: int): Table {
    t.(pending := ActingSeats(t) - {s})
  }

  function GoAllIn(t: Table, s: int): Table
    requires s in t.players
  {
    var t1 := MarkAllIn(Pay(t, s, t.players[s].chips), s);
    if t1.players[s].bet > t1.maxBet then Reopen(Lift(t1, s), s) else t1
  }

  /** What is missing to the target, in int arithmetic; never negative. */
  function RaiseNeed(t: Table, s: int, raiseBy: int): (need: int)
    requires s in t.players
    ensures need >= 0
  {
    Max(0, Signed(Signed(t.maxBet + raiseBy) - t.players[s].bet))
  }

  function DoRaise(t: Table, s: int, raiseBy: int): Table
    requires s in t.players
  {
    var need := RaiseNeed(t, s, raiseBy);
    if need >= t.players[s].chips then GoAllIn(t, s)
    else Reopen(Lift(Pay(t, s, need), s), s)
  }

  function DoCall(t: Table, s: int): Table
    requires s in t.players
  {
    if CallNeed(t, s) <= 0 then t
    else
      var t1 := Pay(t, s, Min(CallNeed(t, s), t.players[s].chips));
      if t1.players[s].chips == 0 then MarkAllIn(t1, s) else t1
  }

  predicate Legal(t: Table, s: int, a: Action)
    requires s in t.players
  {
    match a
    case Fold => true
    case AllIn => true
    case Raise(amount) => t.players[s].chips > CallNeed(t, s) && RaiseBy(t, amount) >= t.minRaise
    case Check => CallNeed(t, s) == 0
    case Call => true
    case Unsupported => false
  }

  function Apply(t: Table, s: int, a: Action): Table
    requires s in t.players
  {
    match a
    case Fold => t.(players := t.players[s := t.players[s].(folded := true)])
    case AllIn => GoAllIn(t, s)
    case Raise(amount) => DoRaise(t, s, RaiseBy(t, amount))
    case _ => DoCall(t, s)
  }

  predicate MayAct(t: Table, s: int) {
    && s >= 0 && s == t.turn && s in t.players
    && !t.players[s].folded && t.players[s].chips > 0
    && t.street != HandOver && t.street != Waiting
  }

  predicate Accepts(t: Table, s: int, a: Action) {
    MayAct(t, s) && Legal(t, s, a)
  }

  /** handleAction and applyActionLocked: a rejected action changes nothing. */
  function Act(t: Table, s: int, a: Action): Table {
    if !Accepts(t, s, a) then t
    else
      var t1 := Apply(t, s, a);
      Settle(t1.(pending := t1.pending - {s}))
  }

  // ----- a new hand -----

  function ResetPlayer(p: Player): Player {
    p.(folded := p.chips <= 0, allIn := false, bet := 0, hole := [])
  }

  /** One seat reset and, if it has chips, dealt two cards. */
  function DealSeat(t: Table, s: int): Table
    requires s in t.players
    ensures DealSeat(t, s).players.Keys == t.players.Keys && DealSeat(t, s).seats == t.seats
  {
    var p := ResetPlayer(t.players[s]);
    var t1 := t.(players := t.players[s := p]);
    if p.folded then t1 else DrawHole(DrawHole(t1, s), s)
  }

  /** The first n seats reset and dealt; a seat without a player is skipped. */
  function DealSeats(t: Table, n: nat): Table
    requires n <= |t.seats|
    ensures DealSeats(t, n).seats == t.seats && DealSeats(t, n).players.Keys == t.players.Keys
  {
    if n == 0 then t
    else
      var t1 := DealSeats(t, n - 1);
      if t.seats[n - 1] in t1.players then DealSeat(t1, t.seats[n - 1]) else t1
  }

  function DrawHole(t: Table, s: int): Table
    requires s in t.players
    ensures DrawHole(t, s).players.Keys == t.players.Keys && DrawHole(t, s).seats == t.seats
  {
    var deck := if t.deck == [] then FreshDeck() else t.deck;
    var p := t.players[s];
    t.(players := t.players[s := p.(hole := p.hole + [deck[|deck| - 1]])], deck := deck[..|deck| - 1])
  }

  function ClearTable(t: Table, shuffled: seq<Card>): Table {
    t.(handNum := t.handNum + 1, street := PreFlop, pot := 0, maxBet := BIG_BLIND, minRaise := BIG_BLIND,
       board := [], deck := shuffled, dealer := NextSeatFrom(t.seats, t.dealer))
  }

  function PostBlinds(t: Table): Table {
    var sb := NextSeatFrom(t.seats, t.dealer);
    var bb := NextSeatFrom(t.seats, sb);
    PostBlind(PostBlind(t, sb, SMALL_BLIND), bb, BIG_BLIND).(turn := NextSeatFrom(t.seats, bb))
  }

  /** startNewHandLocked; `shuffled` is the fresh deck in some order. */
  function StartHand(t: Table, shuffled: seq<Card>): Table {
    if |t.seats| < MIN_PLAYERS_TO_START then t
    else
      var t1 := DealSeats(ClearTable(t, shuffled), |t.seats|);
      var t2 := FirstAction(ResetPending(PostBlinds(t1)));
      if t2.turn < 0 then Settle(t2) else t2
  }

  function Run(t: Table, actions: seq<(int, Action)>): Table {
    if actions == [] then t
    else Act(Run(t, actions[..|actions| - 1]), actions[|actions| - 1].0, actions[|actions| - 1].1)
  }
}
