/**
  One hand as functions on table values: what place_bet, start_hand, handle_action,
  proceed_to_next_street, request_turn and finish_hand (main.cpp) leave behind.  The
  methods of Room in HandEngine.dfy are proved to compute these; the theorems about
  hands are proved about these.
  */
module HandRules {
  import opened Common
  import opened HoldemTypes
  import opened HoldemEvaluator
  import opened PotManager
  import opened Settlement
  import opened TableState

  // ----- who is at the table -----

  /** A seat somebody or something plays: not a disconnected human. */
  predicate Connected(s: Seat) {
    s.kind != Empty && (s.kind == Human ==> s.online || s.aiManaged)
  }

  predicate SeatConnected(t: Table, i: int) {
    0 <= i < |t.seats| && Connected(t.seats[i])
  }

  /** is_seat_eligible: can be dealt in and post blinds. */
  predicate Eligible(t: Table, i: int) {
    && SeatConnected(t, i) && i in t.players
    && !t.players[i].bankrupt && t.players[i].chips > 0 && t.players[i].sitOutUntil <= t.handNum
  }

  predicate InHandSeat(t: Table, i: int) {
    && SeatConnected(t, i) && i in t.players
    && !t.players[i].folded && !t.players[i].bankrupt && t.players[i].sitOutUntil <= t.handNum
  }

  function EligibleSeats(t: Table): set<int> { set i | i in t.players && Eligible(t, i) }

  /** get_in_hand_seats, as a set. */
  function InHand(t: Table): set<int> { set i | i in t.players && InHandSeat(t, i) }

  /** get_actable_seats, as a set. */
  function Actable(t: Table): set<int> { set i | i in t.players && InHandSeat(t, i) && t.players[i].chips > 0 }

  // ----- seat walks -----

  /** next_seat_clockwise: the first seat of s met after `from`, or -1. */
  function NextClockwise(from: int, s: set<int>, step: nat): int
    decreases SEATS + 1 - step
  {
    if step > SEATS then -1
    else if (from + step) % SEATS in s then (from + step) % SEATS
    else NextClockwise(from, s, step + 1)
  }

  /** The walk of get_active_offset with `count` eligible seats and `loops` steps to go. */
  function Walk(t: Table, idx: int, count: nat, loops: nat): int
    decreases loops
  {
    if count == 0 || loops == 0 then idx
    else
      var next := (idx + 1) % SEATS;
      Walk(t, next, if Eligible(t, next) then count - 1 else count, loops - 1)
  }

  function ActiveOffset(t: Table, start: int, offset: nat): int {
    Walk(t, start, offset, SEATS * 3)
  }

  // ----- betting -----

  /** place_bet: as much of the amount as the seat has goes into the pot. */
  function PlaceBet(t: Table, i: int, amount: int): Table {
    if i !in t.players || t.players[i].folded || t.players[i].bankrupt then t
    else
      var p := t.players[i];
      var paid := Max(0, Min(amount, p.chips));
      t.(players := t.players[i := p.(chips := p.chips - paid, currentBet := p.currentBet + paid,
                                      contribution := p.contribution + paid)],
         pot := t.pot + paid)
  }

  function PostBlind(t: Table, i: int, amount: int): Table {
    var t1 := PlaceBet(t, i, amount);
    if i in t1.players then t1.(currentMaxBet := Max(t1.currentMaxBet, t1.players[i].currentBet)) else t1
  }

  // ----- cards -----

  function DealOne(t: Table, i: int): Table {
    if i !in t.players || t.deck == [] then t
    else
      var n := |t.deck| - 1;
      t.(players := t.players[i := t.players[i].(hand := t.players[i].hand + [t.deck[n]])], deck := t.deck[..n])
  }

  /** One card to each seat of the list. */
  function DealRound(t: Table, to: seq<int>): Table {
    if to == [] then t else DealOne(DealRound(t, to[..|to| - 1]), to[|to| - 1])
  }

  /** The eligible seats clockwise from the one after the dealer, among the first n seats met. */
  function DealOrder(t: Table, n: nat): seq<int> {
    if n == 0 then []
    else
      var seat := (t.dealer + n) % SEATS;
      DealOrder(t, n - 1) + if Eligible(t, seat) then [seat] else []
  }

  function DealHoleCards(t: Table): Table {
    var to := DealOrder(t, SEATS);
    DealRound(DealRound(t, to), to)
  }

  function DealCommunity(t: Table, n: nat): Table
    decreases n
  {
    if n == 0 || t.deck == [] then t
    else
      var last := |t.deck| - 1;
      DealCommunity(t.(board := t.board + [t.deck[last]], deck := t.deck[..last]), n - 1)
  }

  // ----- whose turn -----

  function InitPending(t: Table, start: int): Table {
    t.(pending := Actable(t), active := start)
  }

  predicate CanStillAct(t: Table, i: int) {
    i in t.players && !t.players[i].folded && !t.players[i].bankrupt && t.players[i].chips > 0
  }

  function RemoveIneligible(t: Table): Table {
    t.(pending := set i | i in t.pending && CanStillAct(t, i))
  }

  /** choose_next_actor, after its pruning of the pending seats. */
  function NextActor(t: Table, from: int): int {
    if t.pending == {} then -1 else NextClockwise(from, t.pending, 1)
  }

  // ----- settlement -----

  /** The positive contributions, in seat order, below seat n. */
  function ContributorsBelow(ps: Players, n: nat): seq<PotContributor> {
    if n == 0 then []
    else
      ContributorsBelow(ps, n - 1) +
      if n - 1 in ps && ps[n - 1].contribution > 0
      then [PotContributor(n - 1, ps[n - 1].contribution, !ps[n - 1].folded)] else []
  }

  function Contributors(t: Table): seq<PotContributor> { ContributorsBelow(t.players, SEATS) }

  function ShowdownHands(t: Table): Hands {
    map i | i in t.players && InHandSeat(t, i) :: Best(t.players[i].hand + t.board)
  }

  function PaySole(ps: Players, winners: set<int>, amount: int): Players {
    map i | i in ps :: ps[i].(chips := ps[i].chips + if i in winners then amount else 0)
  }

  function PayAll(ps: Players, hands: Hands, dealer: int, pots: seq<Pot>): Players {
    map i | i in ps :: ps[i].(chips := ps[i].chips + Payout(hands, dealer, pots, i))
  }

  /** The board completed to five cards. */
  function Runout(t: Table): Table {
    DealCommunity(t, if |t.board| < 5 then 5 - |t.board| else 0)
  }

  function FinishHand(t: Table): Table {
    var t0 := t.(pending := {}, active := -1);
    var live := InHand(t0);
    if live == {} then t0.(pot := 0, round := HandOver)
    else if |live| == 1 then
      t0.(players := PaySole(t0.players, live, AmountSum(PotsOf(Contributors(t0)))), pot := 0, round := HandOver)
    else
      var t1 := Runout(t0);
      t1.(players := PayAll(t1.players, ShowdownHands(t1), t1.dealer, PotsOf(Contributors(t1))),
          pot := 0, round := HandOver)
  }

  // ----- streets -----

  function StreetsLeft(r: Round): nat {
    match r
    case PreFlop => 4
    case Flop => 3
    case Turn => 2
    case River => 1
    case _ => 0
  }

  function ClearBets(ps: Players): Players {
    map i | i in ps :: ps[i].(currentBet := 0)
  }

  /** The next street with its community cards; anything after the river is the showdown. */
  function NextStreet(t: Table): Table {
    var t1 := t.(players := ClearBets(t.players), currentMaxBet := 0);
    match t.round
    case PreFlop => DealCommunity(t1.(round := Flop), 3)
    case Flop => DealCommunity(t1.(round := Turn), 1)
    case Turn => DealCommunity(t1.(round := River), 1)
    case _ => t1.(round := Showdown)
  }

  lemma {:induction false} DealCommunityKeepsRound(t: Table, n: nat)
    ensures DealCommunity(t, n) == t.(board := DealCommunity(t, n).board, deck := DealCommunity(t, n).deck)
    decreases n
  {
    if n > 0 && t.deck != [] {
      var last := |t.deck| - 1;
      DealCommunityKeepsRound(t.(board := t.board + [t.deck[last]], deck := t.deck[..last]), n - 1);
    }
  }

  lemma NextStreetGoesOn(t: Table)
    ensures NextStreet(t).round != Showdown ==> StreetsLeft(NextStreet(t).round) < StreetsLeft(t.round)
  {
    var t1 := t.(players := ClearBets(t.players), currentMaxBet := 0);
    DealCommunityKeepsRound(t1.(round := Flop), 3);
    DealCommunityKeepsRound(t1.(round := Turn), 1);
    DealCommunityKeepsRound(t1.(round := River), 1);
  }

  function ProceedToNextStreet(t: Table): Table
    decreases StreetsLeft(t.round), 0
  {
    var t1 := NextStreet(t);
    NextStreetGoesOn(t);
    if t1.round == Showdown then FinishHand(t1)
    else RequestTurn(InitPending(t1, ActiveOffset(t1, t1.dealer, 1)))
  }

  /** The seat that is asked to act, or -1 when nobody is left to ask. */
  function SeatToAsk(t: Table): int {
    if t.active < 0 then NextActor(t, t.dealer)
    else if t.active !in t.pending then NextActor(t, t.active)
    else t.active
  }

  function RequestTurn(t: Table): Table
    decreases StreetsLeft(t.round), 1
  {
    if |InHand(t)| <= 1 then FinishHand(t)
    else if Actable(t) == {} then FinishHand(t.(round := Showdown))
    else
      var t1 := RemoveIneligible(t);
      var t2 := t1.(active := SeatToAsk(t1));
      if t2.active < 0 then ProceedToNextStreet(t2) else t2
  }

  // ----- actions -----

  datatype Action = Fold | Check | Call | Raise(raiseBy: int32) | AllIn | Unsupported

  function CallAmount(t: Table, i: int): int
    requires i in t.players
  {
    Max(0, t.currentMaxBet - t.players[i].currentBet)
  }

  /**
    What a raise makes the seat put in.  Both terms are int, and so is the sum: past INT_MAX it
    comes out negative in two's complement.
    */
  function RaiseAmount(t: Table, i: int, raiseBy: int32): int
    requires i in t.players
  {
    Signed(CallAmount(t, i) + raiseBy)
  }

  /** Everybody but the aggressor is asked again. */
  function Reopen(t: Table, seat: int): Table {
    t.(pending := Actable(t) - {seat})
  }

  function Done(t: Table, seat: int): Table {
    t.(pending := t.pending - {seat})
  }

  function ApplyFold(t: Table, seat: int): Table
    requires seat in t.players
  {
    Done(t.(players := t.players[seat := t.players[seat].(folded := true)]), seat)
  }

  function ApplyCall(t: Table, seat: int): Table
    requires seat in t.players
  {
    var call := CallAmount(t, seat);
    if call > 0 then Done(PlaceBet(t, seat, Min(call, t.players[seat].chips)), seat) else Done(t, seat)
  }

  function ApplyRaise(t: Table, seat: int, raiseBy: int32): Table
    requires seat in t.players
  {
    var t1 := PlaceBet(t, seat, RaiseAmount(t, seat, raiseBy));
    Reopen(t1.(currentMaxBet := t1.players[seat].currentBet, minRaise := raiseBy), seat)
  }

  function ApplyAllIn(t: Table, seat: int): Table
    requires seat in t.players
  {
    var t1 := PlaceBet(t, seat, t.players[seat].chips);
    var bet := t1.players[seat].currentBet;
    if bet <= t.currentMaxBet then Done(t1, seat)
    else
      var raised := t1.(currentMaxBet := bet);
      if bet - t.currentMaxBet >= t.minRaise
      then Reopen(raised.(minRaise := bet - t.currentMaxBet), seat)
      else Done(raised, seat)
  }

  /** Whether handle_action lets the seat act at all. */
  predicate MayAct(t: Table, seat: int, fromSocket: bool) {
    && seat in t.players && 0 <= seat < |t.seats|
    && (fromSocket ==> t.seats[seat].kind == Human)
    && !t.players[seat].folded && !t.players[seat].bankrupt
    && t.active == seat && seat in t.pending
  }

  /** Whether the action itself is legal for a seat that may act. */
  predicate Legal(t: Table, seat: int, a: Action)
    requires seat in t.players
  {
    match a
    case Fold => true
    case Check => CallAmount(t, seat) == 0
    case Call => true
    case Raise(raiseBy) => raiseBy >= t.minRaise && t.players[seat].chips >= RaiseAmount(t, seat, raiseBy)
    case AllIn => t.players[seat].chips > 0
    case Unsupported => false
  }

  predicate Accepts(t: Table, seat: int, a: Action, fromSocket: bool) {
    MayAct(t, seat, fromSocket) && Legal(t, seat, a)
  }

  function Apply(t: Table, seat: int, a: Action): Table
    requires seat in t.players
  {
    match a
    case Fold => ApplyFold(t, seat)
    case Check => Done(t, seat)
    case Call => ApplyCall(t, seat)
    case Raise(raiseBy) => ApplyRaise(t, seat, raiseBy)
    case AllIn => ApplyAllIn(t, seat)
    case Unsupported => t
  }

  /** What follows an accepted action: settle, move to the next street, or ask the next seat. */
  function Advance(t: Table, seat: int): Table {
    if |InHand(t)| <= 1 then FinishHand(t)
    else
      var t1 := RemoveIneligible(t);
      if t1.pending == {} then ProceedToNextStreet(t1)
      else RequestTurn(t1.(active := NextActor(t1, seat)))
  }

  function Act(t: Table, seat: int, a: Action, fromSocket: bool): Table {
    if !MayAct(t, seat, fromSocket) then t
    else
      var t1 := t.(lastActor := seat);
      if !Legal(t1, seat, a) then t1 else Advance(Apply(t1, seat, a), seat)
  }

  /** The action ai_act picks for a draw from 0 to 1. */
  function AiChoice(t: Table, seat: int, draw: real): Action
    requires seat in t.players
  {
    var call := CallAmount(t, seat);
    if call > 0 && draw > 0.85 then Fold
    else if draw > 0.7 && t.players[seat].chips > Signed(call + t.minRaise) then Raise(Signed(t.minRaise))
    else if call > 0 then Call
    else Check
  }

  /** ai_act; a seat that is out of the hand is passed over. */
  function AiActs(t: Table, seat: int, draw: real): Table {
    if seat in t.players && !t.players[seat].folded && !t.players[seat].bankrupt
    then Act(t, seat, AiChoice(t, seat, draw), false)
    else
      var t1 := RemoveIneligible(Done(t, seat));
      RequestTurn(t1.(active := NextActor(t1, seat)))
  }

  // ----- starting a hand -----

  function NewPlayer(chips: int): Player {
    Player(chips, 0, 0, false, false, [], chips, 0, 0)
  }

  function EnsurePlayers(t: Table): Table {
    t.(players := map i | 0 <= i < |t.seats| && t.seats[i].kind != Empty ::
                    if i in t.players then t.players[i] else NewPlayer(t.initialChips))
  }

  function Rebuy(p: Player): Player {
    if p.pendingRebuy <= 0 then p
    else p.(chips := p.chips + p.pendingRebuy, pendingRebuy := 0, bankrupt := false, folded := false, currentBet := 0)
  }

  function ApplyRebuys(t: Table): Table {
    t.(players := map i | i in t.players :: Rebuy(t.players[i]))
  }

  predicate Disconnected(t: Table, i: int) {
    0 <= i < |t.seats| && t.seats[i].kind == Human && !t.seats[i].online && !t.seats[i].aiManaged
  }

  /** A player at the start of hand `handNum`. */
  function ResetPlayer(t: Table, i: int): Player
    requires i in t.players
  {
    var p := t.players[i];
    p.(hand := [], currentBet := 0, contribution := 0, bankrupt := p.chips <= 0,
       folded := p.chips <= 0 || Disconnected(t, i) || p.sitOutUntil > t.handNum)
  }

  function ClearTable(t: Table, shuffled: seq<Card>): Table {
    t.(handNum := t.handNum + 1, pot := 0, round := PreFlop, board := [], deck := shuffled,
       currentMaxBet := 0, pending := {}, turnNonce := t.turnNonce + 1, lastActor := -1)
  }

  function ResetHand(t: Table, shuffled: seq<Card>): Table {
    var t1 := ClearTable(t, shuffled);
    t1.(players := map i | i in t1.players :: ResetPlayer(t1, i))
  }

  /** Blinds posted and cards dealt. */
  function PostAndDeal(t: Table): Table {
    var sb, bb := ActiveOffset(t, t.dealer, 1), ActiveOffset(t, t.dealer, 2);
    var t1 := t.(sb := sb, bb := bb);
    var t2 := DealHoleCards(PostBlind(PostBlind(t1, sb, t.smallBlind), bb, t.bigBlind));
    t2.(currentMaxBet := t.bigBlind, minRaise := t.bigBlind)
  }

  /** start_hand; `shuffled` is the fresh deck.  Nothing starts with fewer than two eligible seats. */
  function StartHand(t: Table, shuffled: seq<Card>): Table {
    var t1 := ApplyRebuys(EnsurePlayers(t));
    if |EligibleSeats(t1)| < 2 then t1
    else
      var t2 := ResetHand(t1, shuffled);
      RequestTurn(InitPending(PostAndDeal(t2), ActiveOffset(t2, t2.dealer, 3)))
  }
}
