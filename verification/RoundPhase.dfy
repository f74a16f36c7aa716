/**
  Round names and the street order (engine/round_phase.cpp).  A room stores the name; the
  model stores the round, and the lemmas here say that nothing is lost by that.
  */
module RoundPhase {
  import opened Common
  import opened TableState
  import Rules = HandRules

  function FromString(s: string): Round {
    if s == "PRE-FLOP" then PreFlop
    else if s == "FLOP" then Flop
    else if s == "TURN" then Turn
    else if s == "RIVER" then River
    else if s == "SHOWDOWN" then Showdown
    else if s == "HAND_OVER" then HandOver
    else Waiting
  }

  function ToString(r: Round): string {
    match r
    case Waiting => "WAITING"
    case PreFlop => "PRE-FLOP"
    case Flop => "FLOP"
    case Turn => "TURN"
    case River => "RIVER"
    case Showdown => "SHOWDOWN"
    case HandOver => "HAND_OVER"
  }

  predicate IsBettingRound(r: Round) {
    r == PreFlop || r == Flop || r == Turn || r == River
  }

  function NextRoundPhase(r: Round): Option<Round> {
    match r
    case PreFlop => Some(Flop)
    case Flop => Some(Turn)
    case Turn => Some(River)
    case River => Some(Showdown)
    case _ => None
  }

  /** Every round is read back from its name; two rounds never share one. */
  lemma NameReadsBack(r: Round)
    ensures FromString(ToString(r)) == r
  {
    assert "WAITING"[0] == 'W' && "PRE-FLOP"[0] == 'P' && "FLOP"[0] == 'F' && "TURN"[0] == 'T' && "RIVER"[0] == 'R'
        && "SHOWDOWN"[0] == 'S' && "HAND_OVER"[0] == 'H';
  }

  /** A stored name survives exactly when it is one of the seven. */
  lemma NameKeptIff(s: string)
    ensures ToString(FromString(s)) == s <==> exists r :: s == ToString(r)
  {
    if r :| s == ToString(r) {
      NameReadsBack(r);
    }
  }

  /**
    There is a next phase exactly from a betting round, and it is the round that
    proceed_to_next_street goes to.
    */
  lemma EngineFollowsStreetOrder(t: Table)
    ensures NextRoundPhase(t.round).Some? <==> IsBettingRound(t.round)
    ensures IsBettingRound(t.round) <==> Rules.StreetsLeft(t.round) > 0
    ensures IsBettingRound(t.round) ==> NextRoundPhase(t.round) == Some(Rules.NextStreet(t).round)
    ensures !IsBettingRound(t.round) ==> Rules.NextStreet(t).round == Showdown
  {
    var t1 := t.(players := Rules.ClearBets(t.players), currentMaxBet := 0);
    Rules.DealCommunityKeepsRound(t1.(round := Flop), 3);
    Rules.DealCommunityKeepsRound(t1.(round := Turn), 1);
    Rules.DealCommunityKeepsRound(t1.(round := River), 1);
  }
}
