/**
  The room and the hand engine's methods (PokerServer in main.cpp), updating the room's
  fields in place.  Each method is proved to leave the table that HandRules describes.
  */
module HandEngine {
  import opened Common
  import opened HoldemTypes
  import opened HoldemEvaluator
  import opened PotManager
  import opened Settlement
  import opened EngineSettlement
  import opened TableState
  import Rules = HandRules

  class Room {
    var seats: seq<Seat>
    var players: map<int, Player>
    const smallBlind: int
    const bigBlind: int
    const initialChips: int
    var handNum: int
    var dealer: int
    var sb: int
    var bb: int
    var pot: int
    var round: Round
    var board: seq<Card>
    var deck: seq<Card>
    var currentMaxBet: int
    var minRaise: int
    var active: int
    var pending: set<int>
    var turnNonce: int
    var lastActor: int

    /** A new room with ten empty seats. */
    constructor (smallBlind: int, bigBlind: int, initialChips: int)
      ensures Valid()
      ensures View() == Table(seq(SEATS, _ => Seat(Empty, false, false)), map[], smallBlind, bigBlind, initialChips,
                              0, 0, -1, -1, 0, Waiting, [], [], 0, 100, -1, {}, 0, -1)
    {
      seats := seq(SEATS, _ => Seat(Empty, false, false));
      players := map[];
      this.smallBlind, this.bigBlind, this.initialChips := smallBlind, bigBlind, initialChips;
      handNum, dealer, sb, bb, pot, round := 0, 0, -1, -1, 0, Waiting;
      board, deck, currentMaxBet, minRaise := [], [], 0, 100;
      active, pending, turnNonce, lastActor := -1, {}, 0, -1;
    }

    /** The value of all fields. */
    ghost function View(): Table
      reads this
    {
      Table(seats, players, smallBlind, bigBlind, initialChips, handNum, dealer, sb, bb, pot, round, board, deck,
            currentMaxBet, minRaise, active, pending, turnNonce, lastActor)
    }

    ghost predicate Valid()
      reads this
    {
      |seats| == SEATS && 0 <= dealer < SEATS && forall i :: i in players ==> 0 <= i < SEATS
    }

    // ----- looking around the table -----

    method IsSeatEligible(i: int) returns (yes: bool)
      requires Valid() && 0 <= i < SEATS
      ensures yes == Rules.Eligible(View(), i)
    {
      var s := seats[i];
      if s.kind == Empty {
        return false;
      }
      if s.kind == Human && !s.online && !s.aiManaged {
        return false;
      }
      if i !in players {
        return false;
      }
      var sitOut := players[i].sitOutUntil > handNum;
      return !players[i].bankrupt && players[i].chips > 0 && !sitOut;
    }

    /** get_in_hand_seats: in seat order. */
    method GetInHandSeats() returns (out: seq<int>)
      requires Valid()
      ensures NoRepeats(out) && forall i :: i in out <==> i in Rules.InHand(View())
      ensures forall j, k :: 0 <= j < k < |out| ==> out[j] < out[k]
      ensures |out| == |Rules.InHand(View())|
    {
      out := [];
      for i := 0 to SEATS
        invariant forall j, k :: 0 <= j < k < |out| ==> out[j] < out[k]
        invariant forall k :: 0 <= k < |out| ==> out[k] < i
        invariant forall j :: j in out <==> j < i && j in Rules.InHand(View())
      {
        var s := seats[i];
        if s.kind != Empty && !(s.kind == Human && !s.online && !s.aiManaged) && i in players {
          var p := players[i];
          if !p.folded && !p.bankrupt && p.sitOutUntil <= handNum {
            out := out + [i];
          }
        }
      }
      SizeOfListing(out, Rules.InHand(View()));
    }

    /** get_actable_seats, collected into the pending set by every caller. */
    method GetActableSeats() returns (out: set<int>)
      requires Valid()
      ensures out == Rules.Actable(View())
    {
      out := {};
      for i := 0 to SEATS
        invariant forall j :: j in out <==> j < i && j in Rules.Actable(View())
      {
        var s := seats[i];
        if s.kind != Empty && !(s.kind == Human && !s.online && !s.aiManaged) && i in players {
          var p := players[i];
          if !p.folded && !p.bankrupt && p.chips > 0 && p.sitOutUntil <= handNum {
            out := out + {i};
          }
        }
      }
      ghost var all := Rules.Actable(View());
      assert forall j :: j in out <==> j in all;
    }

    method NextSeatClockwise(from: int, s: set<int>) returns (idx: int)
      requires from >= 0
      ensures idx == Rules.NextClockwise(from, s, 1)
    {
      var step := 1;
      while step <= SEATS
        invariant 1 <= step <= SEATS + 1
        invariant Rules.NextClockwise(from, s, step) == Rules.NextClockwise(from, s, 1)
      {
        idx := (from + step) % SEATS;
        if idx in s {
          return idx;
        }
        step := step + 1;
      }
      return -1;
    }

    method GetActiveOffset(start: int, offset: nat) returns (idx: int)
      requires Valid() && 0 <= start < SEATS
      ensures idx == Rules.ActiveOffset(View(), start, offset)
    {
      var count, loops := 0, 0;
      idx := start;
      while count < offset && loops < SEATS * 3
        invariant count <= offset && loops <= SEATS * 3 && 0 <= idx < SEATS
        invariant Rules.Walk(View(), idx, offset - count, SEATS * 3 - loops) == Rules.ActiveOffset(View(), start, offset)
      {
        idx := (idx + 1) % SEATS;
        var eligible := IsSeatEligible(idx);
        if eligible {
          count := count + 1;
        }
        loops := loops + 1;
      }
    }

    // ----- chips -----

    method PlaceBet(i: int, amount: int) returns (paid: int)
      modifies this
      ensures View() == Rules.PlaceBet(old(View()), i, amount)
      ensures paid == pot - old(pot)
      ensures seats == old(seats) && dealer == old(dealer) && players.Keys == old(players.Keys)
    {
      if i !in players || players[i].folded || players[i].bankrupt {
        return 0;
      }
      var p := players[i];
      paid := Max(0, Min(amount, p.chips));
      players := players[i := p.(chips := p.chips - paid, currentBet := p.currentBet + paid,
                                 contribution := p.contribution + paid)];
      pot := pot + paid;
    }

    method PostBlind(i: int, amount: int) returns (paid: int)
      modifies this
      ensures View() == Rules.PostBlind(old(View()), i, amount)
      ensures seats == old(seats) && dealer == old(dealer) && players.Keys == old(players.Keys)
    {
      paid := PlaceBet(i, amount);
      if i in players {
        currentMaxBet := Max(currentMaxBet, players[i].currentBet);
      }
    }

    // ----- whose turn -----

    method InitPendingAction(start: int)
      requires Valid()
      modifies this
      ensures View() == Rules.InitPending(old(View()), start)
    {
      var actable := GetActableSeats();
      pending := actable;
      active := start;
    }

    /** Erases the pending seats that cannot act any more, one at a time. */
    method RemoveIneligibleFromPending()
      modifies this
      ensures View() == Rules.RemoveIneligible(old(View()))
    {
      var todo := pending;
      ghost var t := View();
      while todo != {}
        invariant todo <= t.pending
        invariant View() == t.(pending := pending)
        invariant forall i :: i in pending <==> i in t.pending && (i in todo || Rules.CanStillAct(t, i))
        decreases |todo|
      {
        ghost var some := Member(todo);
        var i :| i in todo;
        todo := todo - {i};
        if i !in players || players[i].folded || players[i].bankrupt || players[i].chips <= 0 {
          pending := pending - {i};
        }
      }
      ghost var kept := Rules.RemoveIneligible(t).pending;
      assert forall i :: i in pending <==> i in kept;
    }

    method ChooseNextActor(from: int) returns (idx: int)
      requires from >= 0
      modifies this
      ensures View() == Rules.RemoveIneligible(old(View()))
      ensures idx == Rules.NextActor(View(), from)
    {
      RemoveIneligibleFromPending();
      if pending == {} {
        return -1;
      }
      idx := NextSeatClockwise(from, pending);
    }

    method CanAdvanceStreet() returns (can: bool)
      modifies this
      ensures View() == Rules.RemoveIneligible(old(View()))
      ensures can == (pending == {})
    {
      RemoveIneligibleFromPending();
      can := pending == {};
    }

    // ----- cards -----

    method DealCommunity(n: nat)
      modifies this
      ensures View() == Rules.DealCommunity(old(View()), n)
      ensures seats == old(seats) && dealer == old(dealer) && players.Keys == old(players.Keys)
    {
      var left := n;
      while left > 0 && deck != []
        invariant Rules.DealCommunity(View(), left) == Rules.DealCommunity(old(View()), n)
        invariant left >= 0 && seats == old(seats) && dealer == old(dealer) && players.Keys == old(players.Keys)
        decreases left
      {
        left := left - 1;
        var last := |deck| - 1;
        board := board + [deck[last]];
        deck := deck[..last];
      }
    }

    /** The eligible seats, clockwise from the one after the dealer. */
    method SeatsToDeal() returns (to: seq<int>)
      requires Valid()
      ensures to == Rules.DealOrder(View(), SEATS)
    {
      to := [];
      for i := 0 to SEATS
        invariant to == Rules.DealOrder(View(), i)
      {
        var seat := (dealer + 1 + i) % SEATS;
        var eligible := IsSeatEligible(seat);
        assert (dealer + (i + 1)) % SEATS == seat;
        if eligible {
          to := to + [seat];
        }
      }
    }

    method DealRound(to: seq<int>)
      modifies this
      ensures View() == Rules.DealRound(old(View()), to)
      ensures seats == old(seats) && dealer == old(dealer) && players.Keys == old(players.Keys)
    {
      for k := 0 to |to|
        invariant View() == Rules.DealRound(old(View()), to[..k])
        invariant seats == old(seats) && dealer == old(dealer) && players.Keys == old(players.Keys)
      {
        assert to[..k + 1][..k] == to[..k];
        var i := to[k];
        if i in players && deck != [] {
          var last := |deck| - 1;
          players := players[i := players[i].(hand := players[i].hand + [deck[last]])];
          deck := deck[..last];
        }
      }
      assert to[..|to|] == to;
    }

    /** Two rounds of one card each. */
    method DealHoleCards()
      requires Valid()
      modifies this
      ensures View() == Rules.DealHoleCards(old(View()))
      ensures seats == old(seats) && dealer == old(dealer) && players.Keys == old(players.Keys)
    {
      var to := SeatsToDeal();
      DealRound(to);
      DealRound(to);
    }

    // ----- starting a hand -----

    /** A default player for every occupied seat without one; none for an empty seat. */
    method EnsurePlayersMap()
      requires Valid()
      modifies this
      ensures Valid() && View() == Rules.EnsurePlayers(old(View()))
    {
      ghost var before := players;
      for i := 0 to SEATS
        invariant unchanged(`seats) && forall j :: j in players <==> j in before || (0 <= j < i && seats[j].kind != Empty)
        invariant forall j :: j in before ==> players[j] == before[j]
        invariant forall j :: j in players && j !in before ==> players[j] == Rules.NewPlayer(initialChips)
        invariant View() == old(View()).(players := players)
      {
        if seats[i].kind != Empty && i !in players {
          players := players[i := Rules.NewPlayer(initialChips)];
        }
      }
      players := map i | i in players && seats[i].kind != Empty :: players[i];
      assert players == Rules.EnsurePlayers(old(View())).players;
    }

    method ApplyPendingRebuys()
      requires Valid()
      modifies this
      ensures Valid() && View() == Rules.ApplyRebuys(old(View()))
    {
      ghost var before := players;
      for i := 0 to SEATS
        invariant players.Keys == before.Keys
        invariant forall j :: j in before ==> players[j] == if j < i then Rules.Rebuy(before[j]) else before[j]
        invariant View() == old(View()).(players := players)
      {
        if i in players && players[i].pendingRebuy > 0 {
          var p := players[i];
          players := players[i := p.(chips := p.chips + p.pendingRebuy, pendingRebuy := 0, bankrupt := false,
                                     folded := false, currentBet := 0)];
        }
      }
      assert players == Rules.ApplyRebuys(old(View())).players;
    }

    /** reset_hand: the table is cleared, then every player. */
    method ResetHand(shuffled: seq<Card>)
      requires Valid()
      modifies this
      ensures Valid() && View() == Rules.ResetHand(old(View()), shuffled)
    {
      hide Rules.ResetPlayer;
      ClearTable(shuffled);
      ResetPlayers();
    }

    method ClearTable(shuffled: seq<Card>)
      modifies this`handNum, this`pot, this`round, this`board, this`deck, this`currentMaxBet, this`pending
      modifies this`turnNonce, this`lastActor
      ensures handNum == old(handNum) + 1 && turnNonce == old(turnNonce) + 1
      ensures pot == 0 && round == PreFlop && board == [] && deck == shuffled
      ensures currentMaxBet == 0 && pending == {} && lastActor == -1
    {
      handNum := handNum + 1;
      pot := 0;
      round := PreFlop;
      board := [];
      deck := shuffled;
      currentMaxBet := 0;
      pending := {};
      turnNonce := turnNonce + 1;
      lastActor := -1;
    }

    method ResetPlayers()
      requires Valid()
      modifies this`players
      ensures Valid() && players == map i | i in old(players) :: Rules.ResetPlayer(old(View()), i)
    {
      ghost var t := View();
      for i := 0 to SEATS
        invariant players.Keys == t.players.Keys
        invariant forall j :: j in t.players ==> players[j] == if j < i then Rules.ResetPlayer(t, j) else t.players[j]
      {
        if i in players {
          var p := players[i];
          var s := seats[i];
          var disconnected := s.kind == Human && !s.online && !s.aiManaged;
          var sitOut := p.sitOutUntil > handNum;
          players := players[i := p.(hand := [], currentBet := 0, contribution := 0,
                                     folded := p.chips <= 0 || disconnected || sitOut, bankrupt := p.chips <= 0)];
        }
      }
    }

    method CountEligible() returns (n: nat)
      requires Valid()
      ensures n == |Rules.EligibleSeats(View())|
    {
      var eligible: seq<int> := [];
      for i := 0 to SEATS
        invariant NoRepeats(eligible)
        invariant forall j :: j in eligible <==> j < i && j in Rules.EligibleSeats(View())
      {
        var yes := IsSeatEligible(i);
        if yes {
          assert i !in eligible;
          eligible := eligible + [i];
        }
      }
      SizeOfListing(eligible, Rules.EligibleSeats(View()));
      n := |eligible|;
    }

    /** start_hand with the shuffled deck; false when too few seats are eligible (match over). */
    method StartHand(shuffled: seq<Card>) returns (started: bool)
      requires Valid()
      modifies this
      ensures View() == Rules.StartHand(old(View()), shuffled)
      ensures started == (|Rules.EligibleSeats(Rules.ApplyRebuys(Rules.EnsurePlayers(old(View()))))| >= 2)
      ensures Valid()
    {
      EnsurePlayersMap();
      ApplyPendingRebuys();
      var eligible := CountEligible();
      if eligible < 2 {
        return false;
      }
      ResetHand(shuffled);
      var utg := PostAndDeal();
      InitPendingAction(utg);
      RequestTurn();
      started := true;
    }

    method PostAndDeal() returns (utg: int)
      requires Valid()
      modifies this
      ensures Valid() && View() == Rules.PostAndDeal(old(View()))
      ensures utg == Rules.ActiveOffset(old(View()), old(dealer), 3)
    {
      hide Rules.Walk, Rules.DealHoleCards, Rules.PostBlind;
      var sbSeat := GetActiveOffset(dealer, 1);
      var bbSeat := GetActiveOffset(dealer, 2);
      utg := GetActiveOffset(dealer, 3);
      PostBlinds(sbSeat, bbSeat);
      DealHoleCards();
      currentMaxBet := bigBlind;
      minRaise := bigBlind;
    }

    method PostBlinds(sbSeat: int, bbSeat: int)
      requires Valid()
      modifies this
      ensures Valid()
      ensures View() == var t := old(View()).(sb := sbSeat, bb := bbSeat);
                        Rules.PostBlind(Rules.PostBlind(t, sbSeat, t.smallBlind), bbSeat, t.bigBlind)
    {
      hide Rules.PostBlind;
      sb := sbSeat;
      bb := bbSeat;
      ghost var t := View();
      var _ := PostBlind(sbSeat, smallBlind);
      PostBlindKeepsBlinds(t, sbSeat, t.smallBlind);
      PostBlindKeepsBlinds(View(), bbSeat, t.bigBlind);
      var _ := PostBlind(bbSeat, bigBlind);
    }

    // ----- settlement -----

    /** Positive contributions in seat order: the iteration over the players map. */
    method CollectContributors() returns (cs: seq<PotContributor>)
      requires Valid()
      ensures cs == Rules.Contributors(View())
    {
      cs := [];
      for i := 0 to SEATS
        invariant cs == Rules.ContributorsBelow(players, i)
      {
        if i in players && players[i].contribution > 0 {
          cs := cs + [PotContributor(i, players[i].contribution, !players[i].folded)];
        }
      }
    }

    /** An evaluation row per seat in the hand: its hole cards with the board. */
    method EvaluateHands(inHand: seq<int>) returns (rows: seq<EvalRow>)
      requires Valid() && NoRepeats(inHand) && forall i :: i in inHand <==> i in Rules.InHand(View())
      ensures DistinctRows(rows) && HandsOf(rows) == Rules.ShowdownHands(View())
      ensures forall k :: 0 <= k < |rows| ==> rows[k].seat in players
    {
      hide Best, DistinctRows, HandsOf, Rules.InHandSeat, Rules.ShowdownHands;
      rows := [];
      for k := 0 to |inHand|
        invariant |rows| == k
        invariant forall j :: 0 <= j < k ==> RowOf(View(), rows[j], inHand[j])
      {
        assert inHand[k] in inHand;
        var best := BestHand(players[inHand[k]].hand + board);
        rows := rows + [EvalRow(inHand[k], best)];
      }
      RowsAreHands(View(), inHand, rows);
    }

    /** while (community_cards.size() < 5 && !deck.empty()) deal_community(1). */
    method CompleteBoard()
      requires Valid()
      modifies this
      ensures Valid() && View() == Rules.Runout(old(View()))
    {
      ghost var t := View();
      while |board| < 5 && deck != []
        invariant Valid() && Rules.Runout(View()) == Rules.Runout(t)
        decreases 5 - |board|
      {
        ghost var before := View();
        DealCommunity(1);
        OneCardCloser(before);
      }
    }

    /** The showdown branch of finish_hand. */
    method SettleShowdown(inHand: seq<int>, pots: seq<Pot>)
      requires Valid() && NoRepeats(inHand) && (forall i :: i in inHand <==> i in Rules.InHand(View()))
      requires pots == PotsOf(Rules.Contributors(View()))
      modifies this`players
      ensures Valid()
      ensures players == Rules.PayAll(old(players), Rules.ShowdownHands(old(View())), dealer, pots)
    {
      hide Payout, PotsOf, Paid, ValidHands, HandsOf, DistinctRows;
      hide Rules.InHand, Rules.ContributorsBelow, Rules.ShowdownHands, Rules.PayAll;
      var rows := EvaluateHands(inHand);
      HandsInRange(View());
      PotsMatchCaps(Rules.Contributors(View()));
      ghost var before := players;
      players := PayPots(players, rows, dealer, pots);
      PaidIsPayAll(before, players, HandsOf(rows), dealer, pots);
    }

    /** finish_hand. */
    method FinishHand()
      requires Valid()
      modifies this
      ensures Valid() && View() == Rules.FinishHand(old(View()))
    {
      hide Payout, PotsOf, Rules.InHand, Rules.ContributorsBelow, Rules.ShowdownHands, Rules.PayAll, Rules.Runout;
      pending := {};
      active := -1;
      var inHand := GetInHandSeats();
      if inHand == [] {
        EmptyListing(Rules.InHand(View()));
        pot := 0;
        round := HandOver;
        return;
      }
      Award(inHand);
      pot := 0;
      round := HandOver;
    }

    /** The pots, paid to the sole survivor or at a showdown on a completed board. */
    method Award(inHand: seq<int>)
      requires Valid() && NoRepeats(inHand) && (forall i :: i in inHand <==> i in Rules.InHand(View()))
      requires |inHand| == |Rules.InHand(View())| > 0
      modifies this
      ensures Valid() && View() == Awarded(old(View()))
    {
      hide Payout, PotsOf, Rules.InHand, Rules.ContributorsBelow, Rules.ShowdownHands, Rules.PayAll, Rules.Runout;
      ghost var t := View();
      var contributors := CollectContributors();
      var pots := BuildPots(contributors);
      if |inHand| == 1 {
        SoleIsAll(inHand, t);
        PaySoleSurvivor(inHand[0], pots);
      } else {
        CompleteBoard();
        RunoutKeepsSeats(t);
        SettleShowdown(inHand, pots);
      }
    }

    method PaySoleSurvivor(winner: int, pots: seq<Pot>)
      requires Valid() && winner in players && {winner} == Rules.InHand(View())
      modifies this`players
      ensures Valid()
      ensures players == Rules.PaySole(old(players), Rules.InHand(old(View())), AmountSum(pots))
    {
      var awarded := 0;
      for k := 0 to |pots|
        invariant awarded == AmountSum(pots[..k])
      {
        assert pots[..k + 1][..k] == pots[..k];
        awarded := awarded + pots[k].amount;
      }
      assert pots[..|pots|] == pots;
      players := players[winner := players[winner].(chips := players[winner].chips + awarded)];
    }

    // ----- turns and streets -----

    /** request_turn: settles, moves on, or leaves the active seat to be asked. */
    method RequestTurn()
      requires Valid()
      modifies this
      ensures Valid() && View() == Rules.RequestTurn(old(View()))
      decreases Rules.StreetsLeft(round), 1
    {
      hide Rules.FinishHand, Rules.ProceedToNextStreet, Rules.NextClockwise;
      var inHand := GetInHandSeats();
      if |inHand| <= 1 {
        FinishHand();
        return;
      }
      var actable := GetActableSeats();
      if actable == {} {
        round := Showdown;
        FinishHand();
        return;
      }
      RemoveIneligibleFromPending();
      ghost var t1 := View();
      PruneTwice(old(View()));
      if active < 0 || active !in pending {
        var next := ChooseNextActor(if active >= 0 then active else dealer);
        active := next;
      }
      assert View() == t1.(active := Rules.SeatToAsk(t1));
      if active < 0 {
        ProceedToNextStreet();
      }
    }

    /** proceed_to_next_street. */
    method ProceedToNextStreet()
      requires Valid()
      modifies this
      ensures Valid() && View() == Rules.ProceedToNextStreet(old(View()))
      decreases Rules.StreetsLeft(round), 0
    {
      hide Rules.FinishHand, Rules.RequestTurn, Rules.Walk, Rules.DealCommunity;
      Rules.NextStreetGoesOn(View());
      MoveToNextStreet();
      if round == Showdown {
        FinishHand();
        return;
      }
      var first := GetActiveOffset(dealer, 1);
      InitPendingAction(first);
      RequestTurn();
    }

    method MoveToNextStreet()
      requires Valid()
      modifies this
      ensures Valid() && View() == Rules.NextStreet(old(View()))
    {
      hide Rules.DealCommunity;
      players := map i | i in players :: players[i].(currentBet := 0);
      currentMaxBet := 0;
      assert View() == old(View()).(players := Rules.ClearBets(old(players)), currentMaxBet := 0);
      if round == PreFlop {
        round := Flop;
        DealCommunity(3);
      } else if round == Flop {
        round := Turn;
        DealCommunity(1);
      } else if round == Turn {
        round := River;
        DealCommunity(1);
      } else {
        round := Showdown;
      }
    }

    // ----- actions -----

    /** handle_action: false when the action is rejected. */
    method HandleAction(seat: int, action: Rules.Action, fromSocket: bool) returns (accepted: bool)
      requires Valid()
      modifies this
      ensures Valid() && View() == Rules.Act(old(View()), seat, action, fromSocket)
      ensures accepted == Rules.Accepts(old(View()), seat, action, fromSocket)
    {
      hide Rules.Advance, Rules.Apply;
      ghost var t := View();
      if seat !in players {
        return false;
      }
      if seats[seat].kind != Human && fromSocket {
        return false;
      }
      if players[seat].folded || players[seat].bankrupt {
        return false;
      }
      if active != seat || seat !in pending {
        return false;
      }
      lastActor := seat;
      assert View() == t.(lastActor := seat);
      accepted := ApplyAction(seat, action);
      if accepted {
        AfterAction(seat);
      }
    }

    /** The branch of handle_action for each action type. */
    method ApplyAction(seat: int, action: Rules.Action) returns (accepted: bool)
      requires Valid() && seat in players && !players[seat].folded && !players[seat].bankrupt
      modifies this
      ensures Valid() && accepted == Rules.Legal(old(View()), seat, action)
      ensures View() == if accepted then Rules.Apply(old(View()), seat, action) else old(View())
    {
      hide Rules.PlaceBet, Rules.Actable, Rules.ApplyAllIn;
      var callAmount := Max(0, currentMaxBet - players[seat].currentBet);
      match action
      case Fold =>
        players := players[seat := players[seat].(folded := true)];
        pending := pending - {seat};
        accepted := true;
      case Check =>
        if callAmount != 0 {
          return false;
        }
        pending := pending - {seat};
        accepted := true;
      case Call =>
        if callAmount > 0 {
          if players[seat].chips < callAmount {
            var _ := PlaceBet(seat, players[seat].chips);
          } else {
            var _ := PlaceBet(seat, callAmount);
          }
        }
        pending := pending - {seat};
        accepted := true;
      case Raise(raiseBy) =>
        var amount := Signed(callAmount + raiseBy);
        if raiseBy < minRaise || players[seat].chips < amount {
          return false;
        }
        MakeRaise(seat, amount, raiseBy);
        accepted := true;
      case AllIn =>
        accepted := GoAllIn(seat);
      case Unsupported =>
        accepted := false;
    }

    /** The chips of a raise, and everybody else pending again. */
    method MakeRaise(seat: int, amount: int, raiseBy: int32)
      requires Valid() && seat in players && !players[seat].folded && !players[seat].bankrupt
      requires amount == Rules.RaiseAmount(View(), seat, raiseBy)
      modifies this
      ensures Valid() && View() == Rules.ApplyRaise(old(View()), seat, raiseBy)
    {
      hide Rules.PlaceBet, Rules.Actable;
      var _ := PlaceBet(seat, amount);
      currentMaxBet := players[seat].currentBet;
      minRaise := raiseBy;
      ReopenBetting(seat);
    }

    method GoAllIn(seat: int) returns (accepted: bool)
      requires Valid() && seat in players && !players[seat].folded && !players[seat].bankrupt
      modifies this
      ensures Valid() && accepted == (old(players[seat].chips) > 0)
      ensures View() == if accepted then Rules.ApplyAllIn(old(View()), seat) else old(View())
    {
      hide Rules.PlaceBet, Rules.Actable;
      var prevMaxBet, prevMinRaise := currentMaxBet, minRaise;
      var all := players[seat].chips;
      if all <= 0 {
        return false;
      }
      var _ := PlaceBet(seat, all);
      PlaceBetKeepsLimits(old(View()), seat, all);
      accepted := true;
      if players[seat].currentBet > prevMaxBet {
        currentMaxBet := players[seat].currentBet;
        var raiseBy := players[seat].currentBet - prevMaxBet;
        if raiseBy >= prevMinRaise {
          minRaise := raiseBy;
          ReopenBetting(seat);
        } else {
          pending := pending - {seat};
        }
      } else {
        pending := pending - {seat};
      }
    }

    /** Everybody who can act is pending again, except the aggressor. */
    method ReopenBetting(seat: int)
      requires Valid()
      modifies this`pending
      ensures View() == Rules.Reopen(old(View()), seat)
    {
      var actable := GetActableSeats();
      pending := actable - {seat};
    }

    method AfterAction(seat: int)
      requires Valid() && 0 <= seat
      modifies this
      ensures Valid() && View() == Rules.Advance(old(View()), seat)
    {
      hide Rules.FinishHand, Rules.ProceedToNextStreet, Rules.RequestTurn, Rules.NextClockwise;
      var inHand := GetInHandSeats();
      if |inHand| <= 1 {
        FinishHand();
        return;
      }
      RemoveIneligibleFromPending();
      PruneTwice(old(View()));
      var can := CanAdvanceStreet();
      if can {
        ProceedToNextStreet();
        return;
      }
      PruneTwice(View());
      var next := ChooseNextActor(seat);
      active := next;
      RequestTurn();
    }

    /** ai_act with the random draw r in [0, 1). */
    method AiAct(seat: int, r: real) returns (accepted: bool)
      requires Valid() && 0 <= seat < SEATS
      modifies this
      ensures Valid() && View() == Rules.AiActs(old(View()), seat, r)
      ensures old(seat in players && !players[seat].folded && !players[seat].bankrupt) ==>
                accepted == Rules.Accepts(old(View()), seat, Rules.AiChoice(old(View()), seat, r), false)
    {
      hide Rules.Act, Rules.Accepts, Rules.RequestTurn, Rules.NextClockwise;
      if seat !in players || players[seat].folded || players[seat].bankrupt {
        pending := pending - {seat};
        var next := ChooseNextActor(seat);
        active := next;
        RequestTurn();
        return false;
      }
      var callAmount := Max(0, currentMaxBet - players[seat].currentBet);
      var action;
      if callAmount > 0 && r > 0.85 {
        action := Rules.Fold;
      } else if r > 0.7 && players[seat].chips > Signed(callAmount + minRaise) {
        action := Rules.Raise(Signed(minRaise));
      } else if callAmount > 0 {
        action := Rules.Call;
      } else {
        action := Rules.Check;
      }
      accepted := HandleAction(seat, action, false);
    }
  }

  lemma SizeOfListing(a: seq<int>, s: set<int>)
    requires NoRepeats(a) && forall i :: i in a <==> i in s
    ensures |a| == |s|
  {
    LengthIsSize(a);
    assert (set i | i in a) == s;
  }

  ghost predicate RowOf(t: Table, row: EvalRow, i: int) {
    row.seat == i && i in t.players && row.hand == Best(t.players[i].hand + t.board)
  }

  lemma RowsAreHands(t: Table, inHand: seq<int>, rows: seq<EvalRow>)
    requires NoRepeats(inHand) && forall i :: i in inHand <==> i in Rules.InHand(t)
    requires |rows| == |inHand| && forall j :: 0 <= j < |rows| ==> RowOf(t, rows[j], inHand[j])
    ensures DistinctRows(rows) && HandsOf(rows) == Rules.ShowdownHands(t)
  {
    hide Best, HandsOf, RowOf, Rules.InHandSeat;
    RowsDistinct(t, inHand, rows);
    RowSeats(t, inHand, rows);
    var hands, want := HandsOf(rows), Rules.ShowdownHands(t);
    forall i | i in hands ensures hands[i] == want[i] {
      HandAt(t, inHand, rows, i);
    }
    assert hands == want;
  }

  lemma HandAt(t: Table, inHand: seq<int>, rows: seq<EvalRow>, i: int)
    requires DistinctRows(rows) && |rows| == |inHand|
    requires forall j :: 0 <= j < |rows| ==> RowOf(t, rows[j], inHand[j])
    requires i in HandsOf(rows) && i in Rules.ShowdownHands(t)
    ensures HandsOf(rows)[i] == Rules.ShowdownHands(t)[i]
  {
    hide Best, HandsOf, RowOf, Rules.InHandSeat;
    var j :| 0 <= j < |rows| && rows[j].seat == i;
    RowIsHand(t, rows[j], inHand[j]);
  }

  lemma RowIsHand(t: Table, row: EvalRow, i: int)
    requires RowOf(t, row, i) && row.seat in Rules.ShowdownHands(t)
    ensures Rules.ShowdownHands(t)[row.seat] == row.hand
  {
    hide Best;
  }

  lemma RowsDistinct(t: Table, inHand: seq<int>, rows: seq<EvalRow>)
    requires NoRepeats(inHand) && |rows| == |inHand|
    requires forall j :: 0 <= j < |rows| ==> RowOf(t, rows[j], inHand[j])
    ensures DistinctRows(rows) && forall j :: 0 <= j < |rows| ==> rows[j].seat == inHand[j]
  {
    hide Best;
  }

  lemma RowSeats(t: Table, inHand: seq<int>, rows: seq<EvalRow>)
    requires DistinctRows(rows) && forall i :: i in inHand <==> i in Rules.InHand(t)
    requires |rows| == |inHand| && forall j :: 0 <= j < |rows| ==> rows[j].seat == inHand[j]
    ensures HandsOf(rows).Keys == Rules.ShowdownHands(t).Keys
  {
    hide Best, HandsOf, Rules.InHandSeat;
    forall i ensures i in HandsOf(rows) <==> i in inHand {
      if i in inHand {
        var j :| 0 <= j < |inHand| && inHand[j] == i;
        assert rows[j].seat == i;
      }
      if i in HandsOf(rows) {
        var j :| 0 <= j < |rows| && rows[j].seat == i;
        assert inHand[j] in inHand;
      }
    }
  }

  /** finish_hand's payments, before the pot and the round are set. */
  ghost function Awarded(t: Table): Table {
    if |Rules.InHand(t)| == 1 then
      t.(players := Rules.PaySole(t.players, Rules.InHand(t), AmountSum(PotsOf(Rules.Contributors(t)))))
    else
      var t1 := Rules.Runout(t);
      t1.(players := Rules.PayAll(t1.players, Rules.ShowdownHands(t1), t1.dealer, PotsOf(Rules.Contributors(t1))))
  }

  lemma SoleIsAll(inHand: seq<int>, t: Table)
    requires |inHand| == 1 && forall i :: i in inHand <==> i in Rules.InHand(t)
    ensures Rules.InHand(t) == {inHand[0]} && inHand[0] in t.players
  {
    assert inHand[0] in inHand;
    forall i ensures i in Rules.InHand(t) <==> i == inHand[0] {
      assert i in inHand <==> i == inHand[0];
    }
  }

  lemma PaidIsPayAll(before: Players, after: Players, hands: Hands, dealer: int, pots: seq<Pot>)
    requires Paid(before, after, s => Payout(hands, dealer, pots, s))
    ensures after.Keys == before.Keys && after == Rules.PayAll(before, hands, dealer, pots)
  {
    hide Payout;
  }

  lemma EmptyListing(s: set<int>)
    requires |s| == 0
    ensures s == {}
  {}

  /** One more board card brings the runout one card closer. */
  lemma OneCardCloser(t: Table)
    requires |t.board| < 5 && t.deck != []
    ensures Rules.Runout(Rules.DealCommunity(t, 1)) == Rules.Runout(t)
    ensures |Rules.DealCommunity(t, 1).board| == |t.board| + 1
  {}

  lemma HandsInRange(t: Table)
    requires forall i :: i in t.players ==> 0 <= i < SEATS
    ensures ValidHands(Rules.ShowdownHands(t))
  {
    forall s | s in Rules.ShowdownHands(t) ensures 0 <= s < SEATS && Evaluated(Rules.ShowdownHands(t)[s]) {
      BestIsEvaluated(t.players[s].hand + t.board);
    }
  }

  /** Completing the board touches neither players nor seats. */
  lemma RunoutKeepsSeats(t: Table)
    ensures var t1 := Rules.Runout(t);
            && t1 == t.(board := t1.board, deck := t1.deck)
            && Rules.InHand(t1) == Rules.InHand(t) && Rules.Contributors(t1) == Rules.Contributors(t)
  {
    Rules.DealCommunityKeepsRound(t, if |t.board| < 5 then 5 - |t.board| else 0);
    var t1 := Rules.Runout(t);
    forall i ensures i in Rules.InHand(t1) <==> i in Rules.InHand(t) {
    }
  }

  lemma PruneTwice(t: Table)
    ensures Rules.RemoveIneligible(Rules.RemoveIneligible(t)) == Rules.RemoveIneligible(t)
  {
    var once := Rules.RemoveIneligible(t);
    assert Rules.RemoveIneligible(once).pending == once.pending;
  }

  lemma PostBlindKeepsBlinds(t: Table, i: int, amount: int)
    ensures Rules.PostBlind(t, i, amount).smallBlind == t.smallBlind
    ensures Rules.PostBlind(t, i, amount).bigBlind == t.bigBlind
  {}

  lemma PlaceBetKeepsLimits(t: Table, i: int, amount: int)
    ensures var t1 := Rules.PlaceBet(t, i, amount);
            t1.currentMaxBet == t.currentMaxBet && t1.minRaise == t.minRaise && t1.pending == t.pending
  {}
}
