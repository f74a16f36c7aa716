/**
  The gameplay part of a room: seats, players, betting and cards (the structs Seat,
  PlayerState and Room of main.cpp).  A Table is the value of all those fields at one
  moment; the class Room in HandEngine.dfy holds them and updates them in place.
  */
module TableState {
  import opened HoldemTypes

  datatype SeatType = Empty | Human | AI

  /** `online` is whether the seat's socket is connected; it does not change during a hand. */
  datatype Seat = Seat(kind: SeatType, online: bool, aiManaged: bool)

  datatype Player = Player(
    chips: int, currentBet: int, contribution: int, folded: bool, bankrupt: bool,
    hand: seq<Card>, totalBuyIn: int, pendingRebuy: int, sitOutUntil: int)

  datatype Round = Waiting | PreFlop | Flop | Turn | River | Showdown | HandOver

  type Players = map<int, Player>

  datatype Table = Table(
    seats: seq<Seat>, players: Players,
    smallBlind: int, bigBlind: int, initialChips: int,
    handNum: int, dealer: int, sb: int, bb: int,
    pot: int, round: Round, board: seq<Card>, deck: seq<Card>,
    currentMaxBet: int, minRaise: int, active: int, pending: set<int>,
    turnNonce: int, lastActor: int)

  // ----- sums over the players -----

  datatype Field = Chips | Bet | Contribution

  function Get(p: Player, f: Field): int {
    match f
    case Chips => p.chips
    case Bet => p.currentBet
    case Contribution => p.contribution
  }

  /** The sum of a field over the seats below n. */
  function Total(ps: Players, f: Field, n: nat): int {
    if n == 0 then 0 else Total(ps, f, n - 1) + if n - 1 in ps then Get(ps[n - 1], f) else 0
  }

  lemma {:induction false} TotalUpdate(ps: Players, f: Field, i: int, p: Player, n: nat)
    requires i in ps
    ensures Total(ps[i := p], f, n) ==
            Total(ps, f, n) + if 0 <= i < n then Get(p, f) - Get(ps[i], f) else 0
  {
    if n > 0 { TotalUpdate(ps, f, i, p, n - 1); }
  }

  /** Two tables whose players agree on a field have the same total. */
  lemma {:induction false} TotalSame(a: Players, b: Players, f: Field, n: nat)
    requires a.Keys == b.Keys && forall i :: i in a ==> Get(a[i], f) == Get(b[i], f)
    ensures Total(a, f, n) == Total(b, f, n)
  {
    if n > 0 { TotalSame(a, b, f, n - 1); }
  }

  lemma {:induction false} TotalNotNegative(ps: Players, f: Field, n: nat)
    requires forall i :: i in ps ==> Get(ps[i], f) >= 0
    ensures Total(ps, f, n) >= 0
    ensures forall i :: 0 <= i < n && i in ps ==> Get(ps[i], f) <= Total(ps, f, n)
  {
    if n > 0 { TotalNotNegative(ps, f, n - 1); }
  }
}
