# Texas Hold'em rooms: hand engine, settlements and the protocols around them

This project models the parts of the repository that move chips, cards and rooms, and proves what they keep.

**The hand engine** (C++ `PokerServer`). `HandEngine.dfy` holds the room as a class whose methods update its fields in
place, as `main.cpp` does. Each method is proved to leave the table that a function of `HandRules.dfy` describes, and
the theorems are about those functions: `HandLedger` (chips), `HandCards` (cards), `HandPlay` (turns and streets),
`HandStart` (a new hand), `HandTheorems` (whole hands: any sequence of accepted and rejected actions from the start to
the first HAND_OVER, with connections fixed and nobody kicked), `HandPayouts` (what each stack takes out of a hand),
`HandLoss`, and `HandOverflow` (raises whose sum overflows). Six modules tell the same hands again by the fields of
the table, and prove that this is what those functions do: `HandOpening` (what start_hand leaves), `HandTurns` (who is
asked), `HandMoves` (what an action does, and what the AI picks), `HandRaises` (the minimum raise over a whole hand),
`HandDeal` (where each card comes from) and `HandWinnings` (what each stack ends with). The mutual recursion of
request_turn, proceed_to_next_street and finish_hand is kept, and its termination proved. It settles through
`PotManager` (side pots) and `HoldemEvaluator` with `Combinations` (best hand); `HandClasses` says what the hand
classes mean. `Settlement` says what a showdown pays; `EngineSettlement` is the engine's settlement loop, proved to
pay that. `RoundPhase` relates round names and street order to the engine.

**The second and third implementations.** `NodeSettlement` is the settlement of `server.js`, proved to credit and
display what the engine pays. `JavaEvaluator` is the gateway's evaluator, proved to encode the engine's evaluation as
one base-15 number that orders hands as the engine does. `JavaRules`, `JavaRoom` (the class), `JavaTurns`,
`JavaLedger`, `JavaLoss`, `JavaProgress`, `JavaCards` and `JavaOverflow` are the gateway's own hand loop and its
theorems; `JavaOpening`, `JavaStreets`, `JavaMoves`, `JavaPayouts`, `JavaDeal` and `JavaHands` say its hands by
fields, and `JavaSkips` is a hand in which a seat is never asked.

**Matchmaking and outbox.** `Matchmaking`, `MatchOrder` and `MatchQueues` are the matching loop. `MatchMessages` is the
match_message table, `MatchWorker` the consumer and the retry job, and `Outbox` the protocol they run with the
engine's idempotent create, under any interleaving of deliveries, retries, crashes and lost replies.

**Reconnect log and snapshots.** `EventLog` is the bounded event log with replay, `Base64` the two routines with
their wrapping 32-bit accumulators, `Snapshot` and `RoomSnapshot` the room writer and reader over JSON values.

Shuffles, random draws, the clock and the outcomes of remote calls are inputs, and every statement is for all of
them. `Common` (32-bit ints among it), `HoldemTypes`, `Sorting` and `TableState` hold what several modules share;
`HandExamples` opens the hands of the concrete cases.

## What the code does differently from what is written about it

- `backend-cpp/docs/engine-architecture.md:81` asks for full-chip conservation of every hand. The code conserves
  chips exactly when one seat is left or a live seat covers every contribution: `HandLoss.FinishConservesIff` on the
  table given to finish_hand, `HandTheorems.SettledConservation` over whole hands. Otherwise the layer that only
  folded seats have reached is skipped (`backend-cpp/src/main.cpp:2976`); `HandLoss.ChipsAreLost` is a start that
  leads there.
- The gateway deals a hand whenever two seats are taken, whatever their chips. If only one of them has any, that seat
  can fold its blind away, and `JavaLoss.CanLoseIff` says exactly on which tables. Such tables are reachable: between
  hands an AI seat can be toggled off (`RoomControlWsService.java:353-355`) or a seat that stays disconnected be
  cleared (`:1474-1487`), and the next hand starts without counting chips again (`:459-490`).
- A short all-in raises the current bet without reopening the action, so bets need not match when a street closes
  (`HandTheorems.ShortAllInUnmatches` says exactly when they still do).
- `raiseBy` is a client's int (`backend-cpp/proto/poker.proto:33`), and the engine checks it only from below. When
  call_amt + raise_by overflows (`main.cpp:3164-3168`), the raise is accepted, moves no chip, reopens the action and
  makes the raiser's own bet the maximum. `HandOverflow.RaiseIsSoundIff` says exactly when that spoils the bets or the
  progress of the hand, `OverflowBreaksTheBets` is a hand where it does, and `EveryHandEndsAnyway` bounds every hand
  in spite of it.
- At the gateway the same sum overflows (`RoomControlWsService.java:728-729`), and there a hand can accept actions
  without end: `JavaOverflow.HandsWithoutEnd`; `RaiseDescendsIff` has the exact condition, and `FittingHandsEnd` the
  bound for hands whose sums fit.
- The gateway passes seats over. Before the flop the seat after the big blind is taken out of the pending seats and the
  turn goes past it (`RoomControlWsService.java:1038-1040`, `:1134-1163`); on later streets the same happens to the seat
  that acted last on the street before. Unless somebody raises, such a seat is not asked on that street:
  `JavaOpening.StartMeaning` and `JavaStreets.ClosingMeans` say whom the turn goes to, and in `JavaSkips.NeverAsked` a
  seat sees the flop without paying. The engine asks everybody (`HandOpening.StartMeaning`, `HandTurns.ProceedAsks`).
- The idempotency map of rooms/create lives in memory: an engine restart ends the guarantee
  (`Outbox.RestartMakesSecondRoom`).
- A matching group that fails leaves its entries out of the queue and lets the sweep skip an anchor
  (`Matchmaking.DroppedGroupSkipsAnchor`).

## Model

| member | source | states |
|---|---|---|
| PotManager.BuildPots | backend-cpp/src/engine/pot_manager.cpp:9-37 | computes the layers of `PotsOf`: one per distinct positive contribution, ascending |
| PotManager.CollectCaps | backend-cpp/src/engine/pot_manager.cpp:9-13 | the ordered set of positive contributions |
| PotManager.CutLayer | backend-cpp/src/engine/pot_manager.cpp:21-32 | how many seats reach a cap, and which of them may win it |
| PotManager.LayersSumToClip | backend-cpp/src/engine/pot_manager.cpp:17-36 | the layers with caps up to x hold exactly the sum of min(contribution, x), for every cap |
| PotManager.PotsHoldEverything | backend-cpp/src/engine/pot_manager.cpp:9-37 | all layers together hold all contributions |
| PotManager.EligibleAtIff | backend-cpp/src/engine/pot_manager.cpp:23-27 | a seat is eligible for a layer exactly when it contributed that much and has not folded |
| PotManager.EligibleSetsShrink | backend-cpp/src/engine/pot_manager.cpp:17-36 | a higher layer is open to no seat that a lower one excludes |
| PotManager.TopPotEligible | backend-cpp/src/engine/pot_manager.cpp:17-36 | the top layer is open exactly to unfolded seats with the largest contribution |
| PotManager.CapIsReached | backend-cpp/src/engine/pot_manager.cpp:17-34 | every layer is a positive amount |
| Combinations.Combine | backend-cpp/src/engine/holdem_evaluator.cpp:12-28 | the emitted combinations are the picks of k elements, in order |
| Combinations.Dfs | backend-cpp/src/engine/holdem_evaluator.cpp:15-26 | one call of the recursive enumeration appends exactly the picks that extend `current` |
| Combinations.EachSubsetExactlyOnce | backend-cpp/src/engine/holdem_evaluator.cpp:12-28 | each k-element choice of positions is emitted exactly once, for every n and k |
| Combinations.EverySubMultisetIsPicked | backend-cpp/src/engine/holdem_evaluator.cpp:12-28 | every k-element sub-multiset of the cards is the content of some pick |
| Combinations.PicksAreSubMultisets | backend-cpp/src/engine/holdem_evaluator.cpp:12-28 | every pick has k elements taken from the given ones |
| HoldemEvaluator.Evaluate5 | backend-cpp/src/engine/holdem_evaluator.cpp:32-122 | the loops over sorted cards compute the classification `Eval5` |
| HoldemEvaluator.Decide | backend-cpp/src/engine/holdem_evaluator.cpp:69-121 | the chain of hand classes, by flush, straight and frequency |
| HoldemEvaluator.FrequencyTable | backend-cpp/src/engine/holdem_evaluator.cpp:60-67 | the (count, rank) pairs, higher count first, then higher rank |
| HoldemEvaluator.FrequencyShape | backend-cpp/src/engine/holdem_evaluator.cpp:60-121 | five ranks group into one of the seven shapes the hand classes read, so no class indexes past its groups |
| HandClasses.ClassMeaning | backend-cpp/src/engine/holdem_evaluator.cpp:32-122 | a hand has rank r exactly when it is of class r, each class said by counting values and suits (rank 8: some value occurs four times, and so on) |
| HandClasses.EvaluationMeaning | backend-cpp/src/engine/holdem_evaluator.cpp:32-122 | evaluate5 gives rank and value exactly when the hand is of that class and the value is its tie-breaker: the top of the straight, the five ranks descending, or each rank once, by count and then by rank |
| HoldemEvaluator.CompareHands | backend-cpp/src/engine/holdem_evaluator.cpp:124-130 | the comparison loop computes `Compare` |
| HoldemEvaluator.CompareIsTotalPreorder | backend-cpp/src/engine/holdem_evaluator.cpp:124-130 | compare_hands is antisymmetric, transitive and total on evaluations, and ties only equal evaluations |
| HoldemEvaluator.EvalIgnoresOrder | backend-cpp/src/engine/holdem_evaluator.cpp:32-122 | evaluate5 reads its cards as a multiset |
| HoldemEvaluator.EvalIgnoresSuitNames | backend-cpp/src/engine/holdem_evaluator.cpp:32-122 | evaluate5 does not depend on suit names |
| HoldemEvaluator.BestHand | backend-cpp/src/engine/holdem_evaluator.cpp:132-144 | the best-so-far loop over all combinations computes `Best` |
| HoldemEvaluator.BestIsMaximum | backend-cpp/src/engine/holdem_evaluator.cpp:132-144 | no five of the cards beat the best hand |
| HoldemEvaluator.BestIsAttained | backend-cpp/src/engine/holdem_evaluator.cpp:132-144 | the best hand is the evaluation of five of the cards |
| HoldemEvaluator.MoreCardsNeverWeaken | backend-cpp/src/engine/holdem_evaluator.cpp:132-144 | adding cards never weakens the best hand |
| HoldemEvaluator.BestIgnoresOrder | backend-cpp/src/engine/holdem_evaluator.cpp:132-144 | the best hand does not depend on card order |
| HoldemEvaluator.BestIgnoresSuitNames | backend-cpp/src/engine/holdem_evaluator.cpp:132-144 | the best hand does not change when suits are renamed apart |
| Settlement.ExactSettlement | backend-cpp/src/main.cpp:2967-3007 | a showdown pays out exactly the sum of the layers with an evaluated eligible seat, odd chips included |
| Settlement.PotPaidInFull | backend-cpp/src/main.cpp:2967-3007 | a layer is paid in full if an evaluated seat is eligible, and not at all otherwise |
| Settlement.NothingLostIff | backend-cpp/src/main.cpp:2967-3007 | all contributions are paid exactly when an evaluated unfolded seat holds the largest one (or nobody contributed) |
| Settlement.TopPotClaimedIff | backend-cpp/src/main.cpp:2968-2976 | the top layer is claimed exactly when such a seat exists |
| Settlement.SplitPaysEverything | backend-cpp/src/main.cpp:2994-3007 | shares and odd chips add up to the layer |
| Settlement.OddChipsGoLeftOfDealer | backend-cpp/src/main.cpp:2994-3007 | the k-th winner clockwise gets the share, plus one chip for the first `odd` of them |
| Settlement.SidePotFairness | backend-cpp/src/main.cpp:2967-3007 | no seat is paid more than the sum of min(contribution, its own); a strictly best live hand is paid exactly that |
| Settlement.PotCreditMeaning | backend-cpp/src/main.cpp:2987-3007 | a layer gives nothing to a seat that does not win it, and a winner the amount divided by the winners, plus an odd chip if fewer winners sit before it, clockwise from the dealer, than there are odd chips |
| Settlement.PotCreditBounds | backend-cpp/src/main.cpp:2967-3007 | nobody takes more than a layer out of it, and nobody ineligible takes anything |
| Settlement.ClockwiseMembers | backend-cpp/src/main.cpp:2851-2861 | the clockwise order lists exactly the winners |
| Settlement.DistanceOrderUnique | backend-cpp/src/main.cpp:2851-2861 | ordering by distance from the dealer determines the order |
| EngineSettlement.BestRow | backend-cpp/src/main.cpp:2970-2985 | the row loop finds a best hand among the eligible rows, or none |
| EngineSettlement.PotWinners | backend-cpp/src/main.cpp:2987-2992 | the tying rows are exactly the winners of the layer |
| EngineSettlement.WinnersByOddChipPriority | backend-cpp/src/main.cpp:2851-2861 | the sort by distance from the dealer equals the clockwise scan |
| EngineSettlement.PaySplit | backend-cpp/src/main.cpp:2994-3007 | share to every winner and odd chips down the order credit each seat its split |
| EngineSettlement.PayPot | backend-cpp/src/main.cpp:2967-3007 | one layer credits every seat exactly `PotCredit` |
| EngineSettlement.PayPots | backend-cpp/src/main.cpp:2967-3020 | all layers together credit every seat exactly `Payout` |
| NodeSettlement.GetPayoutOrder | server.js:1308-1317 | the clockwise scan lists the winners in the engine's odd-chip order |
| NodeSettlement.BuildSidePots | server.js:1319-1345 | the levels give the engine's layers: same amounts, same eligible seats, and with each the seats that paid into it |
| NodeSettlement.ContributingAtIff | server.js:1328-1330 | a seat is listed as contributing to a level exactly when it contributed that much, folded or not |
| NodeSettlement.CreditWinners | server.js:1361-1369 | the remainder loop credits share plus one odd chip while chips last |
| NodeSettlement.DisplayRows | server.js:1370-1378 | the displayed amount of every winner is the credited one |
| NodeSettlement.ResolvePots | server.js:1347-1382 | credits every seat the engine's payout; a pot is displayed exactly when an evaluated seat can win it, once, in ascending order, and shows its winners clockwise with what each is credited |
| NodeSettlement.PotsIgnoreOrder | server.js:1319-1345 | the layers do not depend on the order in which players are listed |
| NodeSettlement.SettlementsAgree | server.js:1347-1382 | the two settlements pay every seat the same, players listed in any order |
| JavaEvaluator.Score | backend-java/src/main/java/nebula/gateway/RoomControlWsService.java:1343-1352 | the score is the category followed by five base-15 digits |
| JavaEvaluator.StraightHigh | backend-java/src/main/java/nebula/gateway/RoomControlWsService.java:1319-1341 | the top of the highest run of five values, the wheel included |
| JavaEvaluator.StraightsAgree | backend-java/src/main/java/nebula/gateway/RoomControlWsService.java:1319-1341 | both evaluators see the same straights |
| JavaEvaluator.RankLists | backend-java/src/main/java/nebula/gateway/RoomControlWsService.java:1297-1306 | the counting loop lists the values occurring four, three, two and one times |
| JavaEvaluator.ListOfShape | backend-java/src/main/java/nebula/gateway/RoomControlWsService.java:1297-1306 | those lists are the engine's frequency groups |
| JavaEvaluator.Eval5Score | backend-java/src/main/java/nebula/gateway/RoomControlWsService.java:1286-1317 | eval5 returns the encoding of the engine's evaluation of the same five cards and its name, a royal flush being called a straight flush |
| JavaEvaluator.BestHandScore | backend-java/src/main/java/nebula/gateway/RoomControlWsService.java:1267-1284 | bestHand's nested loops find score and name of the engine's best hand, and (0, High Card) below five cards |
| JavaEvaluator.EncodeKeepsOrder | backend-java/src/main/java/nebula/gateway/RoomControlWsService.java:1343-1367 | comparing scores is comparing hands: greater, less and equal, royal flush folded into straight flush |
| JavaEvaluator.EvaluatorsAgree | backend-java/src/main/java/nebula/gateway/RoomControlWsService.java:1286-1367 | for any two five-card hands the scores order as compare_hands orders the evaluations |
| JavaEvaluator.ShowdownWinnersAgree | backend-java/src/main/java/nebula/gateway/RoomControlWsService.java:1267-1367 | at a showdown both evaluators name the same winners |
| HandEngine.Room.IsSeatEligible | backend-cpp/src/main.cpp:2593-2601 | a seat that may be dealt in |
| HandEngine.Room.GetInHandSeats | backend-cpp/src/main.cpp:2603-2614 | lists exactly the seats still in the hand, in seat order |
| HandEngine.Room.GetActableSeats | backend-cpp/src/main.cpp:2616-2627 | the seats in the hand with chips |
| HandEngine.Room.NextSeatClockwise | backend-cpp/src/main.cpp:2629-2635 | the first seat clockwise that satisfies the predicate, or -1 |
| HandEngine.Room.GetActiveOffset | backend-cpp/src/main.cpp:2637-2647 | the walk of at most 30 steps over eligible seats |
| HandEngine.Room.PlaceBet | backend-cpp/src/main.cpp:2660-2669 | moves at most the stack into the pot, the bet and the contribution, and nothing else |
| HandEngine.Room.PostBlind | backend-cpp/src/main.cpp:2671-2676 | a blind, skipped for a seat that is not eligible |
| HandEngine.Room.ResetHand | backend-cpp/src/main.cpp:2678-2698 | clears the table and every player for a new hand |
| HandEngine.Room.ApplyPendingRebuys | backend-cpp/src/main.cpp:2700-2711 | adds pending rebuys to stacks |
| HandEngine.Room.DealHoleCards | backend-cpp/src/main.cpp:2713-2727 | two rounds of one card per eligible seat, from the seat after the dealer |
| HandEngine.Room.InitPendingAction | backend-cpp/src/main.cpp:2729-2733 | pending becomes the actable seats, and the first actor is chosen |
| HandEngine.Room.RemoveIneligibleFromPending | backend-cpp/src/main.cpp:2735-2741 | drops pending seats that cannot act any more |
| HandEngine.Room.ChooseNextActor | backend-cpp/src/main.cpp:2743-2747 | prunes, then finds the next pending seat clockwise |
| HandEngine.Room.CanAdvanceStreet | backend-cpp/src/main.cpp:2846-2849 | prunes, and says whether nobody is pending |
| HandEngine.Room.DealCommunity | backend-cpp/src/main.cpp:2799-2804 | moves cards from the deck to the board |
| HandEngine.Room.EnsurePlayersMap | backend-cpp/src/main.cpp:2566-2583 | a player record for every taken seat |
| HandEngine.Room.StartHand | backend-cpp/src/main.cpp:2806-2844 | leaves the table `StartHand` describes, and tells whether a hand started |
| HandEngine.Room.ProceedToNextStreet | backend-cpp/src/main.cpp:2872-2896 | clears bets, deals the street, and asks the first seat or settles |
| HandEngine.Room.RequestTurn | backend-cpp/src/main.cpp:3057-3098 | asks the next pending seat, or goes on to the next street or the settlement |
| HandEngine.Room.FinishHand | backend-cpp/src/main.cpp:2898-3034 | pays the sole survivor, or runs the board out and pays every layer |
| HandEngine.Room.HandleAction | backend-cpp/src/main.cpp:3100-3222 | performs an accepted action, with call_amt + raise_by an int sum, and hands on the turn; tells whether it was accepted |
| HandEngine.Room.AiAct | backend-cpp/src/main.cpp:3224-3243 | performs the action picked for any random draw, with the same int sum in its comparison |
| HandOpening.DealsIff | backend-cpp/src/main.cpp:2806-2815 | a hand is dealt exactly when two taken seats are present, have chips after rebuys, sit out no hand, and are not bankrupt without a rebuy |
| HandOpening.NoDeal | backend-cpp/src/main.cpp:2806-2815 | otherwise exactly the taken seats have players, each with its stack and rebuy or the initial chips, and nothing else changes |
| HandStart.WhoSitsDown | backend-cpp/src/main.cpp:2566-2711 | exactly the taken seats sit down, each with its stack plus any pending rebuy, a new one with the initial chips |
| HandOpening.StartMeaning | backend-cpp/src/main.cpp:2806-2844 | from the fields of the table before: who is dealt in; the first two of them clockwise from the dealer post min(blind, what they sat down with); nobody else has put anything in; rebuys are spent; and the nearest seat from the big blind with chips is asked, or nobody has any and the hand is over |
| HandTurns.NextIsNearest | backend-cpp/src/main.cpp:2743-2747 | the seat chosen is the pending one with the fewest steps clockwise |
| HandTurns.WalkToNearest | backend-cpp/src/main.cpp:2637-2647 | the offset walk stops at the nearest eligible seat, and goes on from it with one less to count |
| HandTurns.ProceedAsks | backend-cpp/src/main.cpp:2872-2896 | a street that closes with somebody able to act opens the next one: bets zero, all able seats pending, the nearest of them from the dealer asked |
| HandTurns.AdvanceMeans | backend-cpp/src/main.cpp:3211-3222 | after an action: over with one seat left; the nearest pending seat from the actor; the next street from the dealer; or over after the river or with nobody able to act |
| HandMoves.AcceptedIff | backend-cpp/src/main.cpp:3100-3189 | an action is accepted exactly from the active seat, by a human if it came from a socket, a check with nothing owed, a raise of at least the minimum with the chips for it or a sum past an int, fold, call and all-in always |
| HandMoves.ActionMeaning | backend-cpp/src/main.cpp:3100-3222 | the whole table after every accepted action, by fields: what the actor has put in, the maximum, the minimum raise, the pending seats, and how the hand goes on |
| HandMoves.AiMeaning | backend-cpp/src/main.cpp:3231-3243 | after ai_act the seat has folded exactly when it owed something and the draw is above 0.85; otherwise it has paid min(owed, its chips), and above 0.7 with more than owed plus the minimum raise, owed plus the minimum raise |
| HandRaises.MinRaiseIsLargest | backend-cpp/src/main.cpp:2840-3202 | at every point of a hand whose raises fit an int, the minimum raise is the most any action so far has lifted the bet above the maximum, the big blind counting as the first, and no bet is above the maximum |
| HandRaises.RaiseAcceptedIff | backend-cpp/src/main.cpp:3155-3172 | at every such point a raise is accepted exactly from the seat on turn, by at least the big blind and every earlier lift of the hand, with the chips for it, or with a sum past an int |
| HandRaises.RaiseLifts | backend-cpp/src/main.cpp:3155-3172 | a refused raise moves nothing; an accepted one that fits lifts the bet by its amount above the maximum |
| HandDeal.CardsFromTheTop | backend-cpp/src/main.cpp:2713-2804 | at every point of every hand, by the shuffled deck: the k-th seat dealt in clockwise from the dealer holds cards k and m + k from the top, m being the seats dealt in, and the board is what follows, no card burned |
| HandLedger.PlaceBetMovesChips | backend-cpp/src/main.cpp:2660-2669 | a bet keeps stacks plus pot, and the pot equal to the contributions |
| HandLedger.ActionKeepsLedger | backend-cpp/src/main.cpp:3126-3209 | every legal action, raises whose sum overflows among them, keeps stacks plus pot, the pot equal to the contributions, and every bet within the seat's contribution |
| HandLedger.FreeIffOverflows | backend-cpp/src/main.cpp:3155-3172 | a legal raise puts nothing in exactly when call_amt + raise_by is more than an int holds |
| HandLedger.ActionKeepsCap | backend-cpp/src/main.cpp:3126-3209 | a legal action leaves every bet within the maximum exactly when it is not a raise whose sum overflows while somebody has bet more than the raiser |
| HandLedger.SoleWinnerTakesAll | backend-cpp/src/main.cpp:2921-2950 | with one seat left all contributions are paid to it |
| HandLedger.ShowdownPaysClaimedPots | backend-cpp/src/main.cpp:2951-3020 | a showdown pays the claimed layers and nothing else |
| HandLedger.UnclaimedIff | backend-cpp/src/main.cpp:2967-3020 | chips go unpaid exactly when the showdown is contested and no live seat covers every contribution |
| HandCards.DeckCardsAreDistinct | backend-cpp/src/main.cpp:2649-2658 | the fresh deck has 52 different cards |
| HandCards.DeckNeverRunsOut | backend-cpp/src/main.cpp:2799-2804 | deck and board always hold at least 32 cards |
| HandCards.NextStreetKeepsCards | backend-cpp/src/main.cpp:2872-2887 | the next street keeps the 52 cards and gives the board the street's size |
| HandCards.RunoutCompletesBoard | backend-cpp/src/main.cpp:2952-2952 | a contested settlement completes the board to five cards |
| HandPlay.NextActorFound | backend-cpp/src/main.cpp:2743-2747 | a pending seat is found whenever there is one |
| HandPlay.RejectedActionChangesNothing | backend-cpp/src/main.cpp:3100-3125 | a rejected action changes at most the record of who tried to act |
| HandPlay.AcceptedActionOutcome | backend-cpp/src/main.cpp:3100-3222 | an accepted action leaves a live hand with the same chips, or a settled one |
| HandPlay.RequestTurnOutcome | backend-cpp/src/main.cpp:3057-3098 | asking for a turn keeps every invariant through streets, runout and settlement |
| HandStart.BlindsAreDifferentSeats | backend-cpp/src/main.cpp:2819-2824 | with two eligible seats the blinds are two different eligible seats |
| HandStart.HoleCardsDealt | backend-cpp/src/main.cpp:2713-2727 | exactly the eligible seats are dealt two cards each, the others none; never more than two, even from a short deck |
| HandStart.OpeningHands | backend-cpp/src/main.cpp:2713-2828 | when the first turn is asked, a seat in the hand holds two cards if the blinds left it chips and none if its blind put it all-in |
| HandStart.StartOutcome | backend-cpp/src/main.cpp:2806-2844 | a started hand is live with all chips on the table, or already settled |
| HandTheorems.HandInvariant | backend-cpp/src/main.cpp:2806-3222 | all invariants hold after every sequence of accepted and rejected actions, whatever is raised |
| HandTheorems.RunningLedger | backend-cpp/src/main.cpp:2660-3222 | while a hand runs: pot = contributions, stacks + pot = starting chips, no negative stack, every bet within the contribution; and within the maximum unless a raise of the street with an overflowing sum took that below a bet |
| HandTheorems.SettledConservation | backend-cpp/src/main.cpp:2898-3034 | at HAND_OVER all chips are conserved exactly when one seat is left or a live seat covers every contribution |
| HandTheorems.CardConservation | backend-cpp/src/main.cpp:2649-2896 | deck, board and hole cards are the 52 cards in every state; the board has the street's size, five at a contested showdown |
| HandTheorems.HoleCardsStay | backend-cpp/src/main.cpp:2713-3222 | at every point of a hand a seat holds exactly the cards it held when the first turn was asked, two or none |
| HandPayouts.StacksOfHand | backend-cpp/src/main.cpp:2660-3034 | seat by seat, stack plus contribution is what the seat sat down with, rebuy included, while the hand runs, and the winnings more when it is over |
| HandPayouts.StacksAreFair | backend-cpp/src/main.cpp:2967-3034 | every reachable contested hand: a seat ends with what it sat down with less its contribution plus at most the sum of min(contribution, its own), exactly that for a strictly best live hand |
| HandWinnings.FinalStacks | backend-cpp/src/main.cpp:2898-3034 | every finished hand, by fields: a seat ends with what it sat down with less what it put in, plus all contributions if it alone is left, or its part of every layer it is among the best unfolded hands of, by its own cards and the board, odd chips clockwise from the dealer |
| HandWinnings.FairStacks | backend-cpp/src/main.cpp:2967-3034 | by fields: a seat takes at most the sum of min(contribution, its own), and exactly that if it is in and beats everybody else who is |
| HandWinnings.AllChipsPaidIff | backend-cpp/src/main.cpp:2898-3034 | by fields: at HAND_OVER the stacks hold all chips that sat down exactly when one seat is left or an unfolded seat has put in at least as much as everybody |
| HandTheorems.NoStall | backend-cpp/src/main.cpp:3057-3098 | a hand that is not over waits for a pending, unfolded seat with chips |
| HandTheorems.AiActionIsAccepted | backend-cpp/src/main.cpp:3224-3243 | the AI's pick is accepted for every random draw, whatever the bets, if the minimum raise is an int |
| HandTheorems.AcceptedActionDescends | backend-cpp/src/main.cpp:3100-3222 | an accepted action strictly lowers (streets left, chips behind, seats pending) exactly when it is not a raise that puts nothing in, or nobody who can act has acted yet |
| HandTheorems.EveryHandEnds | backend-cpp/src/main.cpp:2872-3222 | a hand accepts at most 55 * (chips + 1) actions, and ten more for each raise that puts nothing in |
| HandOverflow.AcceptedActionLowers | backend-cpp/src/main.cpp:3100-3222 | every accepted action, whatever is raised, strictly lowers (streets left, chips behind, seats below the maximum, seats pending) |
| HandOverflow.EveryHandEndsAnyway | backend-cpp/src/main.cpp:2872-3222 | whatever is raised, a hand accepts at most 605 * (chips + 1) actions |
| HandOverflow.LimitsStayInts | backend-cpp/src/main.cpp:2806-3222 | in a hand whose chips and big blind are ints, maximum and minimum raise are ints at every point |
| HandOverflow.RaiseIsSoundIff | backend-cpp/src/main.cpp:3155-3172 | at every point of every such hand, an accepted raise lowers the measure exactly when its sum fits an int or nobody who can act has acted, and keeps all bets within the maximum exactly when its sum fits or nobody has bet more than the raiser |
| HandOverflow.AiIsNeverRefused | backend-cpp/src/main.cpp:3224-3243 | at every point of every such hand the AI's pick is accepted |
| HandOverflow.OverflowBreaksTheBets | backend-cpp/src/main.cpp:3155-3172 | for every shuffle: three seats with 1000 chips, one calls, the small blind raises by 2147483647; it is accepted, moves no chip, and leaves the maximum below the bets, and the big blind then checks |
| HandTheorems.ActionKeepsMatched | backend-cpp/src/main.cpp:3126-3209 | every legal action but a short all-in keeps every acted seat with chips from owing anything |
| HandTheorems.ShortAllInUnmatches | backend-cpp/src/main.cpp:3184-3202 | a short all-in, bets being within the maximum, keeps that so exactly when every seat with chips is still to act |
| HandTheorems.BetsAreMatched | backend-cpp/src/main.cpp:2729-3222 | over a street without a short all-in, no acted seat with chips owes anything; without a raise that took the maximum below a bet either, each has bet exactly the maximum |
| HandTheorems.AllMatchedWhenStreetCloses | backend-cpp/src/main.cpp:2846-2849 | when the last seat acts on a matched street, no live stack owes anything, and if bets were within the maximum all have bet exactly that |
| HandLoss.CoveringFoldLosesChips | backend-cpp/src/main.cpp:2968-2976 | if the only seat covering the others folds before a contested showdown, chips leave the table |
| HandLoss.FinishConservesIff | backend-cpp/src/main.cpp:2898-3034 | finish_hand keeps every chip exactly when, on the table it is given, one seat is left or a live seat covers every contribution |
| HandLoss.ChipsAreLost | backend-cpp/src/main.cpp:2806-3034 | a starting table of 1150 chips and two actions that, from start_hand and for every shuffle, end the hand with fewer |
| JavaRoom.Room.ActiveSeatList | backend-java/src/main/java/nebula/gateway/RoomControlWsService.java:1186-1195 | the taken seats, ascending |
| JavaRoom.Room.Contenders | backend-java/src/main/java/nebula/gateway/RoomControlWsService.java:1197-1205 | the seated players who have not folded |
| JavaRoom.Room.NextPendingSeat | backend-java/src/main/java/nebula/gateway/RoomControlWsService.java:1175-1184 | the first pending seat clockwise, taken off the pending set |
| JavaRoom.Room.ResetPendingForStreet | backend-java/src/main/java/nebula/gateway/RoomControlWsService.java:1134-1142 | pending becomes the seats that can act, without the current seat |
| JavaRoom.Room.ResetPendingAfterAggression | backend-java/src/main/java/nebula/gateway/RoomControlWsService.java:1144-1152 | pending becomes the seats that can act, without the aggressor |
| JavaRoom.Room.FirstActionSeat | backend-java/src/main/java/nebula/gateway/RoomControlWsService.java:1154-1163 | the first seat of a street, taken off the pending set |
| JavaRoom.Room.Draw | backend-java/src/main/java/nebula/gateway/RoomControlWsService.java:1215-1218 | the top card; an empty deck is replaced by a fresh one |
| JavaRoom.Room.DealCommunity | backend-java/src/main/java/nebula/gateway/RoomControlWsService.java:1220-1225 | cards from the deck to the board |
| JavaRoom.Room.PostBlind | backend-java/src/main/java/nebula/gateway/RoomControlWsService.java:1116-1124 | a blind from an unfolded player |
| JavaRoom.Room.BestSeats | backend-java/src/main/java/nebula/gateway/RoomControlWsService.java:849-869 | the showdown loop names exactly the best-scoring contenders |
| JavaRoom.Room.FinishHand | backend-java/src/main/java/nebula/gateway/RoomControlWsService.java:837-879 | the winners share the pot, the first taking the remainder; the pot field stays |
| JavaRoom.Room.SettleStreetOrAdvanceTurn | backend-java/src/main/java/nebula/gateway/RoomControlWsService.java:793-835 | the loop ends and leaves the table `Settle` describes |
| JavaRoom.Room.ApplyAction | backend-java/src/main/java/nebula/gateway/RoomControlWsService.java:675-791 | performs an accepted action, with every sum of a raise an int sum, and settles; anything else changes nothing |
| JavaRoom.Room.StartNewHand | backend-java/src/main/java/nebula/gateway/RoomControlWsService.java:1006-1047 | resets, deals, posts blinds and finds the first actor |
| JavaTurns.NextPendingFinds | backend-java/src/main/java/nebula/gateway/RoomControlWsService.java:1175-1184 | a seat is found exactly when some pending seat is taken, and it is pending and taken |
| JavaTurns.ScanFrom | backend-java/src/main/java/nebula/gateway/RoomControlWsService.java:1175-1184 | the seat found is the first pending one clockwise |
| JavaStreets.FoundIsNearest | backend-java/src/main/java/nebula/gateway/RoomControlWsService.java:1175-1184 | the seat found is the pending one with the fewest steps clockwise |
| JavaStreets.StreetAsks | backend-java/src/main/java/nebula/gateway/RoomControlWsService.java:1134-1163 | a new street asks the nearest able seat from the dealer, the seat that acted last not being among them, and leaves the others pending |
| JavaStreets.ClosingMeans | backend-java/src/main/java/nebula/gateway/RoomControlWsService.java:793-835 | how a street closes: over after the river or with nobody able to bet; otherwise the next street opens without the last actor, or is passed over if that is the only seat able to bet |
| JavaStreets.SettleMeans | backend-java/src/main/java/nebula/gateway/RoomControlWsService.java:793-835 | settling by fields: over with one seat left, the nearest pending seat, or a closing street |
| JavaMoves.AcceptedIff | backend-java/src/main/java/nebula/gateway/RoomControlWsService.java:675-725 | an action is accepted exactly from the seat on turn: a check with nothing owed, a raise with more chips than owed and an amount that does not round up past an int, fold, call and all-in always |
| JavaMoves.ActionMeaning | backend-java/src/main/java/nebula/gateway/RoomControlWsService.java:675-835 | the whole table after every accepted action, by fields: what the actor has put in, the maximum, the minimum raise as the least multiple of 50 not below the lift, the pending seats, and how the hand goes on |
| JavaOpening.StartMeaning | backend-java/src/main/java/nebula/gateway/RoomControlWsService.java:1006-1047 | from the fields of the table before: the dealer moves to the next taken seat, the next two post min(50, chips) and min(100, chips), seats without chips are out, and the nearest able seat past the one after the big blind is asked |
| JavaHands.LastActionPays | backend-java/src/main/java/nebula/gateway/RoomControlWsService.java:837-879 | the action that ends a hand pays each seat whom the engine's evaluator names as winner the pot divided by the winners, and the lowest-numbered of them the remainder too; nobody else gets anything |
| JavaHands.MinRaiseIsLargest | backend-java/src/main/java/nebula/gateway/RoomControlWsService.java:675-835 | the minimum raise is the largest lift of the street so far, 100 counting as the first, rounded up to a multiple of 50 |
| JavaHands.RaiseMeaning | backend-java/src/main/java/nebula/gateway/RoomControlWsService.java:719-756 | at every point of every hand: exactly when a raise is accepted, and that it takes the seat all-in or lifts the bet by the amount asked for, the largest lift of the street at least, rounded up |
| JavaPayouts.FinishPays | backend-java/src/main/java/nebula/gateway/RoomControlWsService.java:837-879 | finishHand pays every seat exactly its part: equal shares to those nobody outscores, the remainder to the lowest-numbered, nothing to others |
| JavaPayouts.TakersAreEngineTakers | backend-java/src/main/java/nebula/gateway/RoomControlWsService.java:849-869 | on the river those are the seats whose hand no other beats by the engine's compare_hands |
| JavaDeal.CardsFromTheTop | backend-java/src/main/java/nebula/gateway/RoomControlWsService.java:1021-1036 | at every point of every hand, by the shuffled deck: the k-th seat with chips holds cards 2k and 2k + 1 from the top, and the board is what follows |
| JavaSkips.NeverAsked | backend-java/src/main/java/nebula/gateway/RoomControlWsService.java:1038-1163 | for every shuffle: three seats with 1000 chips, the small blind calls, the big blind checks, and the third seat, owing 100, is on the flop with all its chips |
| JavaLedger.PotPaidInFull | backend-java/src/main/java/nebula/gateway/RoomControlWsService.java:873-879 | the winners between them receive the whole pot |
| JavaLedger.SettleWorth | backend-java/src/main/java/nebula/gateway/RoomControlWsService.java:793-835 | settling keeps chips plus pot, who is in, and sound stacks, through any runout |
| JavaLedger.ActionKeepsWorth | backend-java/src/main/java/nebula/gateway/RoomControlWsService.java:675-791 | every action keeps what the hand is worth, and only a fold takes a contender away |
| JavaLedger.HandWorth | backend-java/src/main/java/nebula/gateway/RoomControlWsService.java:675-1047 | over any run of actions the hand is worth the chips it started with |
| JavaLedger.FinishedHandConserves | backend-java/src/main/java/nebula/gateway/RoomControlWsService.java:837-879 | a finished hand has its starting chips exactly when a contender is left or the pot is empty |
| JavaLedger.TwoFundedPlayersConserve | backend-java/src/main/java/nebula/gateway/RoomControlWsService.java:675-1047 | with two funded players at the start no run of actions loses or makes a chip |
| JavaLoss.LosesIffLoneBlind | backend-java/src/main/java/nebula/gateway/RoomControlWsService.java:675-1047 | some actions make a hand end with other chips than it started with exactly when one player is funded, the hand is running and there is a pot; with nobody funded or two, none do |
| JavaLoss.LoneBlindIff | backend-java/src/main/java/nebula/gateway/RoomControlWsService.java:1006-1047 | the same condition on the table before the hand: the one funded seat posts a blind it can afford and is not the first to act after the big blind |
| JavaLoss.CanLoseIff | backend-java/src/main/java/nebula/gateway/RoomControlWsService.java:675-1047 | a coming hand can lose chips exactly on such tables, whatever the shuffle |
| JavaLoss.LoneFoldLoses | backend-java/src/main/java/nebula/gateway/RoomControlWsService.java:675-1047 | on such a table the first fold loses exactly the pot |
| JavaLoss.NobodyFunded | backend-java/src/main/java/nebula/gateway/RoomControlWsService.java:1006-1047 | with nobody funded no blind is posted and the hand is over at once |
| JavaLoss.SoleContenderMayFold | backend-java/src/main/java/nebula/gateway/RoomControlWsService.java:1006-1010 | two taken seats, one of them with chips: its fold loses the big blind, for every shuffle |
| JavaProgress.SettleOk | backend-java/src/main/java/nebula/gateway/RoomControlWsService.java:793-835 | settling ends with the hand over or with the turn at a seat that can act |
| JavaProgress.AcceptedActionDescends | backend-java/src/main/java/nebula/gateway/RoomControlWsService.java:675-791 | an accepted action never stalls the hand; it ends the hand or strictly lowers (streets left, chips behind, seats pending) exactly when it is not a raise that pays nothing, or all others who can act are pending anyway |
| JavaProgress.StartOk | backend-java/src/main/java/nebula/gateway/RoomControlWsService.java:1006-1047 | a new hand starts with the turn in order, or over |
| JavaProgress.EveryHandEnds | backend-java/src/main/java/nebula/gateway/RoomControlWsService.java:675-1047 | a hand accepts at most 55 * (chips + 1) actions, and ten more for each raise that pays nothing |
| JavaOverflow.FreeIffOverflows | backend-java/src/main/java/nebula/gateway/RoomControlWsService.java:719-749 | an accepted raise pays nothing exactly when callNeed + raiseBy is more than an int holds |
| JavaOverflow.RaiseDescendsIff | backend-java/src/main/java/nebula/gateway/RoomControlWsService.java:675-1047 | at every point of every hand with at most 2147483550 chips: an accepted raise ends the hand or lowers the measure exactly when its sum fits an int, or all others who can act are pending anyway |
| JavaOverflow.FittingHandsEnd | backend-java/src/main/java/nebula/gateway/RoomControlWsService.java:675-1047 | a hand accepts at most 55 * (chips + 1) actions as long as no accepted raise overflows |
| JavaOverflow.HandsWithoutEnd | backend-java/src/main/java/nebula/gateway/RoomControlWsService.java:719-756 | for every shuffle and n: on three seats with 1000 chips, 3 * n actions are accepted before the flop (raise by 2147483590, check, the same raise) and the table is what it was at the start |
| JavaCards.CardConservation | backend-java/src/main/java/nebula/gateway/RoomControlWsService.java:1006-1240 | deck, board and seats' hole cards are the 52 cards in every state; contenders hold two, the board the street's size |
| JavaCards.DeckNeverRunsOut | backend-java/src/main/java/nebula/gateway/RoomControlWsService.java:1215-1218 | the deck is never empty when a card is drawn in a hand |
| JavaCards.WinnersOutscored | backend-java/src/main/java/nebula/gateway/RoomControlWsService.java:849-869 | a contested showdown is won by exactly the seats nobody outscores |
| JavaCards.ShowdownMatchesEngine | backend-java/src/main/java/nebula/gateway/RoomControlWsService.java:837-879 | the gateway pays exactly the contenders the engine's evaluator would name as winners |
| MatchQueues.Matchmaker.RemoveFromAllQueues | backend-java/src/main/java/nebula/gateway/MatchmakingService.java:433-437 | drops a user's entries from every tier and nothing else |
| MatchQueues.Matchmaker.Pick | backend-java/src/main/java/nebula/gateway/MatchmakingService.java:311-316 | the inner loop picks the anchor and the first compatible entries |
| MatchQueues.Matchmaker.SweepOnce | backend-java/src/main/java/nebula/gateway/MatchmakingService.java:308-403 | one pass over the anchors, groups taken out of the queue as it goes |
| MatchQueues.Matchmaker.MaybeMatchBeans | backend-java/src/main/java/nebula/gateway/MatchmakingService.java:301-405 | the nested loops compute `Sweeps`; every user stays queued at most once |
| MatchQueues.Matchmaker.QueueBean | backend-java/src/main/java/nebula/gateway/MatchmakingService.java:101-110 | a user leaves every queue, joins one, and that tier is matched |
| Matchmaking.SweepsPartition | backend-java/src/main/java/nebula/gateway/MatchmakingService.java:301-405 | the loop ends; starting entries are exactly those queued, matched and dropped, counted once |
| Matchmaking.NoUserInTwoGroups | backend-java/src/main/java/nebula/gateway/MatchmakingService.java:301-405 | no user ends in two groups, or in a group and the queue |
| Matchmaking.EveryGroupIsProper | backend-java/src/main/java/nebula/gateway/MatchmakingService.java:308-325 | every group is two entries, the anchor one of them, with a rating gap of at most 120, 260 after five seconds of waiting, 1200 after fifteen |
| Matchmaking.PickedIffPeers | backend-java/src/main/java/nebula/gateway/MatchmakingService.java:311-317 | a group is found exactly when the anchor has a compatible peer |
| Matchmaking.SortOrders | backend-java/src/main/java/nebula/gateway/MatchmakingService.java:307-307 | the sort puts the queue in arrival order |
| MatchOrder.FirstGroup | backend-java/src/main/java/nebula/gateway/MatchmakingService.java:308-325 | a sweep books nothing exactly when nobody reaches anybody when its turn comes; otherwise its first group is the first entry in arrival order that reaches another and the first entry it reaches |
| Matchmaking.NothingLeftToMatch | backend-java/src/main/java/nebula/gateway/MatchmakingService.java:304-405 | with the clock standing still and no group dropped, no remaining entry reaches any other |
| Matchmaking.DroppedGroupSkipsAnchor | backend-java/src/main/java/nebula/gateway/MatchmakingService.java:346-359 | a dropped group can leave an anchor that has a peer |
| MatchMessages.Table.InsertPending | backend-java/src/main/java/nebula/gateway/MatchMessageDao.java:39-49 | a new pending row, or nothing when the match id exists |
| MatchMessages.Table.UpdateStatus | backend-java/src/main/java/nebula/gateway/MatchMessageDao.java:72-83 | sets the status and keeps a stored room code when none is given |
| MatchMessages.Table.BumpRetryByMatchId | backend-java/src/main/java/nebula/gateway/MatchWorker.java:93-101 | counts a retry on a pending row only |
| MatchMessages.Table.ListPendingForRetry | backend-java/src/main/java/nebula/gateway/MatchMessageDao.java:94-110 | the first retryable rows in insertion order, all of them below the limit |
| MatchMessages.AllRetryableListed | backend-java/src/main/java/nebula/gateway/MatchMessageDao.java:94-110 | the full list holds exactly the retryable rows |
| MatchWorker.Worker.ProcessOne | backend-java/src/main/java/nebula/gateway/MatchWorker.java:110-169 | the row changes of one delivery, for every answer of the engine and whichever of the lookup, the status updates and the notification throw |
| MatchWorker.Worker.Compensate | backend-java/src/main/java/nebula/gateway/MatchWorker.java:79-91 | pushes the listed ids and counts a retry for each, up to the first push or bump that throws |
| MatchWorker.DeliveryOutcome | backend-java/src/main/java/nebula/gateway/MatchWorker.java:110-169 | a pending row ends with status 1 exactly when a room was answered and stored and no failed notification wrote over it, stays pending exactly when nothing could be written, and a settled row changes only by a failed lookup |
| MatchWorker.ProcessOneIsRun | backend-java/src/main/java/nebula/gateway/MatchWorker.java:110-169 | one delivery, whatever fails in it, is a run of protocol steps |
| MatchWorker.CompensateIsRun | backend-java/src/main/java/nebula/gateway/MatchWorker.java:79-91 | one compensation, wherever it is cut short, is a run of protocol steps |
| Outbox.AtMostOneRoom | backend-cpp/src/main.cpp:2383-2411 | from any moment on and under any interleaving, all creates answered for a match id name one open room, while the engine runs and no room answered for it is closed |
| Outbox.NotifiesAnsweredRooms | backend-java/src/main/java/nebula/gateway/MatchWorker.java:128-160 | a room is notified only while its row says status 1 with that code, and every code stored or notified is one the engine answered for the match id |
| Outbox.RestartMakesSecondRoom | backend-cpp/src/main.cpp:2385-2411 | after an engine restart a redelivered message makes a second room; without one it does not |
| Outbox.SettledForGood | backend-java/src/main/java/nebula/gateway/MatchMessageDao.java:72-83 | status never returns to 0, and a stored room code is never lost, not even when a failed lookup or notification turns 1 into 2 |
| Outbox.SettledCreatesNothing | backend-java/src/main/java/nebula/gateway/MatchWorker.java:110-113 | once a row is settled, deliveries create nothing more for it |
| Outbox.RetryPushesBounded | backend-java/src/main/java/nebula/gateway/MatchWorker.java:79-101 | retry pushes of a row exceed five only by the bumps that were lost |
| Outbox.FiveRetryPushes | backend-java/src/main/java/nebula/gateway/MatchWorker.java:79-101 | unless the scheduler stops between a push and its bump, at most five retry pushes |
| EventLog.RoomLog.Append | backend-cpp/src/main.cpp:1350-1354 | the log stays the last min(600, n) entries, consecutively numbered |
| EventLog.RoomLog.AppendAndSplice | server.js:552-568 | the same for the splice |
| EventLog.Session.ReplayMissed | backend-cpp/src/main.cpp:1400-1419 | sends exactly the missed entries in order, and moves both cursors to the highest number sent |
| EventLog.Session.ReplayMissedNode | server.js:611-623 | the same with a single cursor |
| EventLog.SentIffMissed | backend-cpp/src/main.cpp:1407-1412 | an entry is sent exactly when retained, past the cursor, and room-wide or the seat's own |
| EventLog.SentInOrder | backend-cpp/src/main.cpp:1407-1412 | in order, once each |
| EventLog.RetainedNumbers | backend-cpp/src/main.cpp:1350-1354 | the retained numbers are consecutive and end at the newest event |
| EventLog.ReplayTwice | backend-cpp/src/main.cpp:1400-1419 | an immediate second replay sends nothing |
| EventLog.ReplayTwiceNode | server.js:611-623 | the same for the single cursor, on a log with rising numbers |
| EventLog.TwoReplaysSendAll | backend-cpp/src/main.cpp:1400-1419 | a replay, and another after the log has grown, send together exactly what one replay of the grown log would |
| EventLog.SmallGapLosesNothing | backend-cpp/src/main.cpp:1350-1419 | a gap of at most 600 loses nothing |
| EventLog.LargeGapLoses | backend-cpp/src/main.cpp:1350-1419 | a larger gap loses room-wide events |
| Base64.Encode | backend-cpp/src/main.cpp:464-481 | despite the wrapping accumulator the output is that of section 4 of RFC 4648 |
| Base64.Alphabet | backend-cpp/src/main.cpp:465-465 | the alphabet is letters, digits, '+' and '/', in the order of table 1 of RFC 4648 |
| Base64.SextetIsSixBits | backend-cpp/src/main.cpp:464-481 | the k-th group is the number made of bits 6k to 6k + 5 of the input |
| Base64.TestVector | backend-cpp/src/main.cpp:464-481 | "foob" becomes "Zm9vYg==", a test vector of section 10 of RFC 4648 |
| Base64.EncodedLength | backend-cpp/src/main.cpp:464-481 | four characters for every three bytes begun |
| Base64.NextSextet | backend-cpp/src/main.cpp:470-476 | the six bits taken from the accumulator are the next sextet of the input |
| Base64.Decode | backend-cpp/src/main.cpp:483-501 | each output byte is eight consecutive bits of the alphabet indices before the first '=', other characters skipped |
| Base64.NextOctet | backend-cpp/src/main.cpp:493-498 | the eight bits taken from the accumulator are the next octet |
| Base64.RoundTrip | backend-cpp/src/main.cpp:464-501 | decoding an encoding yields the input, for every byte string |
| Base64.EncodeThenDecode | backend-cpp/src/main.cpp:464-501 | the two routines in sequence return their input |
| Snapshot.PlayerReadsBack | backend-cpp/src/main.cpp:529-565 | a player comes back from its row |
| Snapshot.SeatReadsBack | backend-cpp/src/main.cpp:567-613 | what comes back of any seat: human seats whole but for the socket, AI seats by name, empty seats blank |
| Snapshot.RowsReadBack | backend-cpp/src/main.cpp:676-682 | the player map comes back from its rows |
| Snapshot.EventsReadBack | backend-cpp/src/main.cpp:801-811 | the event log comes back through base64, entries without an envelope dropped |
| RoomSnapshot.RoomReadsBack | backend-cpp/src/main.cpp:637-817 | what the reader makes of the writer's output, for every room |
| RoomSnapshot.SnapshotRoundTrip | backend-cpp/src/main.cpp:637-817 | every field is restored exactly when the room is within the reader's bounds |

## Left out

- Integer width: raises are 32-bit, and every sum a client's raise enters wraps, in the engine and at the gateway, as
  does the base64 accumulator. Signed overflow is undefined in C++; the two's-complement result is taken. Chips, pots,
  scores and times are unbounded. Initial chips and rebuys have no upper bound in the code either, so a table with
  more chips than an int holds is not modelled as the code would behave on it; where that matters the theorems about
  raises say so (`HandOverflow.Fits`, `JavaOverflow.Starts`). The lemmas of `HandMoves` are about tables whose maximum
  and minimum raise are ints, which by `HandOverflow.LimitsStayInts` every table of such a hand is. A raise amount at
  the gateway is an int or absent, after getAsInt.
- Messages: sockets, protobuf, broadcasts, hand history rows, winner names, activity lines and match_over are not
  part of the hand model; nothing that moves chips or cards reads them.
- Action names: the normalisation of action strings and the error texts; actions are an enumeration with one case
  for unsupported names.
- Kicks, disconnects, AI takeover and the second entry into finish_hand after HAND_OVER: the hand theorems hold
  from start_hand to the first HAND_OVER with connections fixed.
- HandPlay.RejectedActionChangesNothing: the record of the last actor may change before the action is refused, as in
  the code, so the lemma says that everything else stays.
- Sorting: std::sort, List.sort and Array.sort are modelled by functions whose result is determined by the order
  they promise; the algorithms inside the libraries are not modelled.
- EngineSettlement.AddToEach: odd chips are added to the first `odd` seats of the order, where the code loops over the
  order and stops when the chips run out.
- JavaEvaluator.Nest: the five nested loops of bestHand are one recursive method, one level per loop.
- JavaLedger.TwoFundedPlayersConserve: the pot field keeps its value after a gateway hand, so conservation is stated
  for the chips of the players.
- The gateway's end of match, its AI policy (floating point) and its snapshots.
- Node's evaluator: its card values and its ace tests disagree with each other, so the evaluations are inputs of
  NodeSettlement, ranked by the same comparison as the engine's. Node's hand loop.
- HandTheorems.AiActionIsAccepted: asks that the minimum raise is an int, as the field is; for hands whose chips and
  big blind are ints HandOverflow.AiIsNeverRefused needs no such condition.
- MatchQueues.Matchmaker.SweepOnce: works on the tier's list as a value that is stored when the call ends. The code
  takes no lock on a tier (`MatchmakingService.java:101-110`, `:301-405`), so two requests can sweep one list at the
  same time; Matchmaking.NoUserInTwoGroups and the other matchmaking theorems are about one sweep at a time. The order
  in which the shared maps are cleaned is not captured either. Missing profiles, a busy lock and a failed insert all
  count as a dropped group. So does a push that throws after the row was inserted (`:346-359`), but that row stays
  pending and the retry job delivers its group later.
- MatchWorker.Worker.ProcessOne: a status update that throws after it took effect counts as one that went through.
- MatchMessages: last_error, update_time and the unused bumpRetry by row id (which would set the status back to 0 but
  has no caller). Payload parsing is one flag: whether there are players.
- Outbox: the scheduler's list of retryable rows may be any selection of them, of which the 40 oldest is one.
- Snapshot: objects have named keys instead of text, `value()` on numbers outside 32 bits is not modelled, and the
  reader and writer are functions on values, so the order in which fields are filled is not captured. Players and
  pending seats are assumed to carry seat numbers 0 to 9. The ignored voice list is not written. Files, atomic
  renames and JSON text.
- EventLog.Session.ReplayMissed: the join path advances the cursor before calling it; the lemmas are about the log
  and the replay itself.
- Authentication, tournaments, inventory, leaderboards, tokens, static files and everything in the browser.
