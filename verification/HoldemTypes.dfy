/** Value types shared by the engine (engine/holdem_types.hpp), and the number of seats. */
module HoldemTypes {

  const SEATS := 10

  datatype Card = Card(s: string, r: string, v: int)

  datatype HandEval = HandEval(rank: int, value: seq<int>, desc: string)

  /** The evaluation of a default-constructed HandEval. */
  const NO_HAND := HandEval(0, [], "")

  /** `board` has been dealt, card by card, from the end of d, and `deck` is what is left. */
  ghost predicate OffTheTop(d: seq<Card>, deck: seq<Card>, board: seq<Card>) {
    && |deck| + |board| == |d| && deck == d[..|deck|]
    && forall j :: 0 <= j < |board| ==> board[j] == d[|d| - 1 - j]
  }
}
