# Discord poker bot: a verified model of the table, the betting commands and the hand evaluators

This project models the core of a Discord bot that runs heads-up
Texas Hold'em tables. Each channel has one table. The model covers:

- **Hand evaluation.** The current evaluator scores five cards by a tuple
  `(category, tie-breakers...)`. The older evaluator scores them by a
  single integer `category * 1_000_000 + tie-breaker`. Both score seven
  cards by their best five-card selection out of
  `itertools.combinations(cards, 5)`.
- **The table (`PokerTable`).** This covers seating, buy-in, starting a
  hand (dealer rotation, blinds, two hole cards each), the end-of-round
  test, street advance, and the split into winners and losers. It also
  covers the show-or-muck window that follows a fold win or a showdown.
- **The end of a hand.** Paying the pot to the best live hands, with the
  odd chips going to the first winners. Losers get a window to show or
  muck, with an automatic muck. Closing the hand auto-starts the next
  hand. The all-in runout is modelled too.
- **The betting commands.** `check`, `call`, `raise`, `allin`, `fold`,
  `show` and `muck`, and the `maybe_next_street` helper that follows them.

The code that changes things in place keeps that form:

- `Player` and `PokerTable` are classes whose methods update their fields.
- The commands and the showdown steps are methods on a `PokerTable`.

Each method is proved against a function on a value `State` that
mirrors the table's fields: `t.Snapshot() == XState(old(t.Snapshot()), ...)`.
The lemmas state what those functions promise. Examples:

- chips are conserved by the betting commands while someone is live,
  and across a show-or-muck window once betting is refused while the
  window is open (the gate from "## Findings"; see "## Left out" for
  the pots the source drops);
- the table invariant is preserved;
- every refusal leaves the table unchanged;
- the pot is split as `pot // k`, plus one chip for the first `pot % k` winners;
- the best five cards are the first maximum among the combinations;
- what each score component means.

A few things are parameters of the model:

- The shuffled deck is a parameter of every step that can deal a hand
  (`newDeck`/`nextDeck`/`deck`).
- The Discord user who typed a command is the `author` parameter.
- A timer that fires becomes an explicit `AutoMuck` event.

Modules:

- `Cards`: cards and their text form.
- `TupleOrder`: Python's tuple comparison.
- `RankAnalysis`: sorting, counting and grouping ranks.
- `Categories`: the meaning of the hand categories, defined independently
  of the evaluators.
- `Combinatorics`: the combinations.
- `HandEvaluator`: the current evaluator.
- `LegacyHandEvaluator`: the older evaluator.
- `Table`: players and the table.
- `Showdown`: finishing, paying, the runout and the automatic muck.
- `Commands`: the bot commands.

## Model

| member | source | states |
|---|---|---|
| Cards.CardStr | DiscordPokerBot/src/hand_evaluator.py:7-11 | a valid card prints as a two-character string |
| Cards.CardStrInjective | DiscordPokerBot/src/hand_evaluator.py:7-11 | two valid cards with the same text are the same card |
| Cards.FlushSuitCount | DiscordPokerBot/src/hand_evaluator.py:25 | in a flush every card has the suit of the first card |
| TupleOrder.LessIrreflexive | DiscordPokerBot/src/hand_evaluator.py:74 | no score beats itself, so a tie never replaces the best hand found so far |
| TupleOrder.LessTransitive | DiscordPokerBot/src/hand_evaluator.py:74 | the score comparison is transitive |
| TupleOrder.LessTrichotomy | DiscordPokerBot/src/hand_evaluator.py:74 | any two scores are equal or exactly one beats the other |
| TupleOrder.HeadDecides | DiscordPokerBot/src/hand_evaluator.py:16-17 | a higher first component (the category) wins whatever follows |
| TupleOrder.CommonPrefix | DiscordPokerBot/src/hand_evaluator.py:16-17 | scores that agree on a prefix compare as their remainders do |
| RankAnalysis.SortDesc | DiscordPokerBot/src/hand_evaluator.py:19 | `sorted(..., reverse=True)` returns a non-increasing permutation of its input |
| RankAnalysis.SortedUnique | DiscordPokerBot/src/hand_evaluator.py:19 | two non-increasing orderings of the same multiset are equal, so the sort result is determined |
| RankAnalysis.Ordered | DiscordPokerBot/src/hand_evaluator.py:22-24 | the (rank, count) groups hold each distinct rank once with its true count, sorted by count and then rank, both descending |
| RankAnalysis.OrderedHead | DiscordPokerBot/src/hand_evaluator.py:24 | the first group has the largest count, and the highest rank among ranks with that count |
| RankAnalysis.OrderedSecond | DiscordPokerBot/src/hand_evaluator.py:24 | when the first group is not everything, the second group is the largest among the other ranks |
| RankAnalysis.Dedup | DiscordPokerBot/src/hand_evaluator.py:28 | the distinct ranks are strictly decreasing, hold exactly the ranks of the input, and start with its highest rank |
| RankAnalysis.Without | DiscordPokerBot/src/hand_evaluator.py:53 | filtering out a rank keeps exactly the other ranks, still in descending order |
| RankAnalysis.WithoutCounts | DiscordPokerBot/src/hand_evaluator.py:53 | the filter removes exactly the copies of that rank |
| RankAnalysis.Max | DiscordPokerBot/src/hand_evaluator.py:44 | `max` returns a member of the list that no member exceeds |
| RankAnalysis.Take | DiscordPokerBot/src/hand_evaluator.py:53 | slicing `[:n]` keeps the first `min(n, len)` elements |
| Categories.Category | DiscordPokerBot/src/hand_evaluator.py:40-64 | the category of five ranks, defined by rank counts and runs rather than by the evaluator's tests; it lies in 0..8 |
| Categories.StraightAgrees | DiscordPokerBot/src/hand_evaluator.py:27-38 | the window scan with the wheel override finds a straight exactly when the five ranks form a run of five or the wheel, and reports the same high card |
| Categories.WheelTest | DiscordPokerBot/src/hand_evaluator.py:37-38 | the wheel subset test holds exactly when the distinct ranks are A-5-4-3-2 |
| Categories.QuadsAgree | DiscordPokerBot/src/hand_evaluator.py:43 | the first group has count 4 exactly when some rank appears four times |
| Categories.FullHouseAgree | DiscordPokerBot/src/hand_evaluator.py:46 | given three of a kind in the first group, the second group has count 2 exactly when some rank appears twice |
| Categories.TripsAgree | DiscordPokerBot/src/hand_evaluator.py:52 | the first group has count 3 exactly when some rank appears three times |
| Categories.TwoPairAgree | DiscordPokerBot/src/hand_evaluator.py:55 | without trips or quads, the first two groups are pairs exactly when two ranks are paired |
| Categories.PairAgree | DiscordPokerBot/src/hand_evaluator.py:60 | without trips or quads, the first group is a pair exactly when some rank is paired |
| Combinatorics.CombinationsCount | DiscordPokerBot/src/hand_evaluator.py:72 | there are C(n, k) selections |
| Combinatorics.CombinationsLength | DiscordPokerBot/src/hand_evaluator.py:72 | every selection has exactly k cards |
| Combinatorics.CombinationsNonEmpty | DiscordPokerBot/src/hand_evaluator.py:72 | with at least k cards there is a selection, so the best hand is defined |
| Combinatorics.SevenChooseFive | DiscordPokerBot/src/hand_evaluator.py:66-72 | seven cards give 21 five-card hands |
| Combinatorics.CombinationSuitCount | DiscordPokerBot/src/hand_evaluator.py:72 | a selection holds no more cards of a suit than its source |
| Combinatorics.SelectionWithin | DiscordPokerBot/src/hand_evaluator.py:72 | every selection takes its cards from the list, as a sub-multiset |
| Combinatorics.SelectionOf | DiscordPokerBot/src/hand_evaluator.py:72 | any k cards of the list, taken as a multiset, are exactly the cards of some selection |
| Combinatorics.CombinationsSameRanks | DiscordPokerBot/src/hand_evaluator.py:72 | hands with the same ranks position by position give selections with the same ranks position by position |
| HandEvaluator.SortedRanks | DiscordPokerBot/src/hand_evaluator.py:19 | the rank values (index plus two) in descending order, a permutation of the cards' values, each in 2..14 for valid cards |
| HandEvaluator.Evaluate5 | DiscordPokerBot/src/hand_evaluator.py:13-64 | the score starts with a category in 0..8, and the name is that category's name |
| HandEvaluator.ClassifyCategory | DiscordPokerBot/src/hand_evaluator.py:40-64 | the score's first component is the category defined independently from the rank counts, the runs and the flush |
| HandEvaluator.StraightMeaning | DiscordPokerBot/src/hand_evaluator.py:41-51 | a straight scores `(4, high)`, or `(8, high)` when suited |
| HandEvaluator.QuadsMeaning | DiscordPokerBot/src/hand_evaluator.py:43-45 | four of a kind scores the quad rank and then the single kicker |
| HandEvaluator.FullHouseMeaning | DiscordPokerBot/src/hand_evaluator.py:46-47 | a full house scores the three-of-a-kind rank and then the pair rank |
| HandEvaluator.TripsMeaning | DiscordPokerBot/src/hand_evaluator.py:52-54 | three of a kind scores the trip rank and then the two unpaired kickers, high first |
| HandEvaluator.TwoPairMeaning | DiscordPokerBot/src/hand_evaluator.py:55-59 | two pair scores the high pair, the low pair and then the unpaired kicker |
| HandEvaluator.PairMeaning | DiscordPokerBot/src/hand_evaluator.py:60-63 | one pair scores the pair rank and then the three other ranks, strictly decreasing |
| HandEvaluator.CategoryDecides | DiscordPokerBot/src/hand_evaluator.py:40-64 | a better category always wins, whatever the tie-breakers |
| HandEvaluator.StraightFlushBeatsQuads | DiscordPokerBot/src/hand_evaluator.py:41-45 | any straight flush beats any four of a kind |
| HandEvaluator.WheelLowestStraight | DiscordPokerBot/src/hand_evaluator.py:36-38 | the wheel scores `(4, 5)` (or `(8, 5)` suited) and loses to every other straight of the same suitedness |
| HandEvaluator.FullHouseByTrips | DiscordPokerBot/src/hand_evaluator.py:46-47 | between two full houses the higher three-of-a-kind rank wins |
| HandEvaluator.PairRank | DiscordPokerBot/src/hand_evaluator.py:61 | the second component of a one-pair score is the paired rank |
| HandEvaluator.PairKickersDecide | DiscordPokerBot/src/hand_evaluator.py:60-63 | between equal pairs, the kickers decide |
| HandEvaluator.BestOfIsFirstMaximum | DiscordPokerBot/src/hand_evaluator.py:71-76 | the strict-improvement scan returns the first entry whose score no entry exceeds |
| HandEvaluator.BestHandIsFirstMaximum | DiscordPokerBot/src/hand_evaluator.py:66-76 | the best hand is one of the five-card selections and its score is at least that of every selection; every earlier selection scores strictly less |
| HandEvaluator.SameRanksSameScore | DiscordPokerBot/src/hand_evaluator.py:19-25 | suits matter only through the flush test |
| HandEvaluator.NoFlushSelection | DiscordPokerBot/src/hand_evaluator.py:25 | with no suit held five times, no selection is a flush |
| HandEvaluator.BestHandIgnoresSuits | DiscordPokerBot/src/hand_evaluator.py:66-76 | two seven-card hands with the same ranks and no possible flush get the same best score |
| HandEvaluator.ShiftedMultiset | DiscordPokerBot/src/hand_evaluator.py:19 | hands holding the same cards in any order hold the same values 2..14 |
| HandEvaluator.FlushMultiset | DiscordPokerBot/src/hand_evaluator.py:25 | a reordering of a flush is a flush |
| HandEvaluator.Evaluate5Multiset | DiscordPokerBot/src/hand_evaluator.py:13-64 | five cards in any order get the same score and name |
| HandEvaluator.BestScoreCovered | DiscordPokerBot/src/hand_evaluator.py:66-76 | the best score of a hand is at most the best score of any reordering of it |
| HandEvaluator.BestHandOrderFree | DiscordPokerBot/src/hand_evaluator.py:66-76 | hands holding the same cards in any order get the same best score |
| LegacyHandEvaluator.SortedRanks | DiscordPokerBot/hand_evaluator.py:18 | the rank indices in descending order, a permutation of the cards' ranks |
| LegacyHandEvaluator.ClassifyCategory | DiscordPokerBot/hand_evaluator.py:42-59 | the name is the name of the category defined independently, using the same tests as the current evaluator |
| LegacyHandEvaluator.StraightScore | DiscordPokerBot/hand_evaluator.py:43-52 | a straight scores 4_000_000 plus its high rank index, or 8_000_000 plus it when suited |
| LegacyHandEvaluator.WheelLowestStraight | DiscordPokerBot/hand_evaluator.py:37-40 | the wheel scores 4_000_003 (8_000_003 suited); every other straight scores at least 4_000_004 (8_000_004) |
| LegacyHandEvaluator.QuadsScore | DiscordPokerBot/hand_evaluator.py:45-46 | four of a kind scores 7_000_000 plus the quad rank |
| LegacyHandEvaluator.QuadsIgnoreKicker | DiscordPokerBot/hand_evaluator.py:45-46 | two quads of the same rank tie whatever their kickers |
| LegacyHandEvaluator.FullHouseScore | DiscordPokerBot/hand_evaluator.py:47-48 | a full house scores 6_000_000 plus the trip rank |
| LegacyHandEvaluator.FullHouseIgnoresPair | DiscordPokerBot/hand_evaluator.py:47-48 | full houses with the same trips tie whatever their pairs |
| LegacyHandEvaluator.TripsScore | DiscordPokerBot/hand_evaluator.py:53-54 | three of a kind scores 3_000_000 plus the trip rank, ignoring the kickers |
| LegacyHandEvaluator.TwoPairScore | DiscordPokerBot/hand_evaluator.py:55-56 | two pair scores 2_000_000 plus the higher pair rank |
| LegacyHandEvaluator.TwoPairIgnoresLowPair | DiscordPokerBot/hand_evaluator.py:55-56 | two pair hands with the same high pair tie whatever the low pair and kicker |
| LegacyHandEvaluator.PairScore | DiscordPokerBot/hand_evaluator.py:57-58 | one pair scores 1_000_000 plus the pair rank, ignoring the kickers |
| LegacyHandEvaluator.FlushScore | DiscordPokerBot/hand_evaluator.py:49-50 | a flush that is no straight scores 5_000_000 plus the weighted rank sum |
| LegacyHandEvaluator.HighCardScore | DiscordPokerBot/hand_evaluator.py:59 | a high-card hand scores the weighted rank sum |
| LegacyHandEvaluator.WeightedSumOfFive | DiscordPokerBot/hand_evaluator.py:50 | the weighted sum is `r0 + 100*r1 + 100^2*r2 + 100^3*r3 + 100^4*r4` over the descending ranks |
| LegacyHandEvaluator.HighCardAboveStraightFlush | DiscordPokerBot/hand_evaluator.py:43-59 | a high-card hand whose lowest rank is not a 2 outscores every straight flush (the category bands overlap) |
| LegacyHandEvaluator.BestOfIsFirstMaximum | DiscordPokerBot/hand_evaluator.py:66-71 | the strict-improvement scan returns the first entry whose score no entry exceeds |
| LegacyHandEvaluator.BestHandIsFirstMaximum | DiscordPokerBot/hand_evaluator.py:61-71 | the best hand is a five-card selection scoring at least every selection, and strictly more than every earlier one |
| Table.Funded | table.py:64 | counts the seats with chips; if it is positive, some seat has chips |
| Table.SeatIndex | table.py:54-55 | the first seat of a user, or none when the user is not seated |
| Table.ResetSeat | table.py:14-17 | a reset seat keeps user, name and stack; it has no cards, is not folded and has nothing committed |
| Table.AddKeepsIdsUnique | table.py:45-49 | adding an unseated user keeps one seat per user |
| Table.BuyinEffect | table.py:51-60 | the buy-in succeeds exactly when the amount is within the limits and the user is seated with no chips; then only that user's stack changes and becomes the amount; otherwise nothing changes |
| Table.InitialInvariant | table.py:21-42 | a new table is valid and holds no chips |
| Table.SmallBlindSeat | table.py:84-85 | the dealer, who posts the small blind, moves one seat on |
| Table.BigBlindSeat | table.py:86 | the big blind is the next seat, never the small blind's |
| Table.PostedSeat | table.py:91-96 | a seat after the reset and its blind holds no cards |
| Table.BlindsConserveChips | table.py:91-97 | the blinds move from the stacks to the pot, with no chip created or lost |
| Table.FullBlinds | table.py:91-98 | with enough chips the pot is sb + bb, the bet to match is bb, and each blind pays exactly its blind |
| Table.BlindsPosted | table.py:91-104 | a short stack posts `min(blind, stack)`; other seats keep their stacks with nothing committed; each seat gets one card per dealing round, popped from the end |
| Table.BeginHandInvariant | table.py:63-106 | a new hand keeps the table valid; everyone is in with two hole cards; the deck loses two cards per player; the dealer rotates |
| Table.DeckCoversNextStreet | table.py:128-136 | a valid table always holds the cards the next street pops |
| Table.NextStreetInvariant | table.py:121-139 | advancing the street keeps the table valid and the chips unchanged; it opens a round with no one acted, no bet and nothing committed |
| Table.NextStreetProgress | table.py:128-138 | during a hand every street change brings the showdown one street closer |
| Table.NextStreetDraws | table.py:121-139 | the flop adds three cards, the turn and river one each, and the showdown none; they come off the end of the deck, no card is lost, and seat 0 acts |
| Table.RunOutReachesShowdown | showdown.py:104-105 | repeating `next_street` from a betting street ends at the showdown with five board cards and no chip moved |
| Table.RunOutDeals | showdown.py:104-105 | the runout deals exactly the board cards still to come, from the end of the deck |
| Table.TopScoreIsMaximum | table.py:148-149 | the best score is attained by a live seat and no live seat beats it; it is absent only when nobody is live |
| Table.SomeoneLive | table.py:143-149 | a live seat makes the best score defined |
| Table.SplitMembers | table.py:150-151 | the split keeps exactly the live seats whose score is (or is not) the best, in increasing seat order |
| Table.WinnersAndLosersPartition | table.py:142-152 | there is at least one winner; winners hold the best score, which every live seat is at most; losers score strictly less; each live seat is exactly one of the two |
| Table.ResolveTouchesOneEntry | table.py:186-205 | recording a decision changes only that user's entry, and only when a window is open and the user is in it |
| Table.TopLiveScore | table.py:143-149 | the loop over live seats finds the best score |
| Table.SplitByScore | table.py:150-151 | the loop builds exactly the winners and losers |
| Table.SplitLive | table.py:143-151 | the best-score loop then the split return exactly the winners and the losers |
| Table.Player.constructor | table.py:5-12 | a new player has no chips, no cards, is not folded and has nothing committed |
| Table.Player.ResetForHand | table.py:14-17 | the player is reset for a new hand |
| Table.PokerTable.constructor | table.py:21-42 | a new table is idle and empty, with the given blinds and buy-in limits |
| Table.PokerTable.IndexOf | table.py:54-55 | the loop finds the user's seat, or none |
| Table.PokerTable.AddPlayer | table.py:45-49 | a user is seated at the end exactly when not already seated; otherwise nothing changes |
| Table.PokerTable.PopDeck | table.py:104 | returns the last card and removes it |
| Table.PokerTable.SetBuyin | table.py:51-60 | the outcome and the new table are exactly what the buy-in rules give |
| Table.PokerTable.BeginHand | table.py:63-106 | a hand starts exactly when two players have chips, and the table is then the new hand's; otherwise nothing changes |
| Table.PokerTable.DealHoleCards | table.py:101-104 | two rounds of one card per seat, popped from the end of the deck |
| Table.PokerTable.PostBlinds | table.py:84-99 | posts both blinds and puts the turn on the seat after the big blind |
| Table.PokerTable.EveryoneMatched | table.py:108-119 | true exactly when every seat still in with chips has acted and matched the bet |
| Table.PokerTable.NextStreet | table.py:121-139 | the table becomes the next street's |
| Table.PokerTable.WinnersAndLosers | table.py:142-152 | with a live seat, returns the winners in seat order and the losers as a set kept in seat order (see Left out) |
| Table.PokerTable.StartFoldWinnerWindow | table.py:176-180 | opens a fold window waiting on the winner alone |
| Table.PokerTable.ResolveShowOrMuck | table.py:182-209 | records the decision; reports the hand finished exactly when the window was open, the user was in it and everyone has now decided |
| Showdown.FinishEffect | showdown.py:8-24 | finishing closes the window; with fewer than two funded players nothing else changes; otherwise a new pre-flop hand starts from the stacks |
| Showdown.PaidOutSoFar | showdown.py:63-66 | the first i winners together receive `i * (pot // k) + min(i, pot % k)` |
| Showdown.SharesMakeThePot | showdown.py:63-66 | the shares add up to the pot, and any two differ by at most one, the earlier winner getting more |
| Showdown.CreditPaysWinners | showdown.py:65-66 | winner number a gets its share; no other seat changes |
| Showdown.CreditTotal | showdown.py:65-66 | crediting adds exactly the paid-out amount to the stacks |
| Showdown.TopScoreWhenLive | showdown.py:47-48 | a best score exists exactly when someone is still in |
| Showdown.PayoutEffect | showdown.py:62-68 | paying out empties the pot into the winners' stacks by share; no chip is lost, nothing else of any seat changes, and the street becomes idle |
| Showdown.LoserIds | showdown.py:59-83 | the window waits on exactly the live users who scored below the best |
| Showdown.ShowdownWindowWaitsForLosers | showdown.py:80-83 | when someone lost, a showdown window opens with every loser undecided |
| Showdown.ShowdownInvariant | showdown.py:45-96 | the showdown keeps the table valid |
| Showdown.ShowdownKeepsChips | showdown.py:62-78 | with someone live the showdown neither creates nor loses chips |
| Showdown.NobodyLiveShowdown | showdown.py:47-51 | with nobody live nobody is paid; the hand is only finished, and a next hand starts from the stacks without the pot |
| Showdown.ShowdownSteps | showdown.py:53-83 | the showdown pays the winners, then finishes when nobody lost and otherwise opens the losers' window |
| Showdown.ShowdownEnds | showdown.py:68-78 | after the showdown the street is idle, or pre-flop when the next hand was dealt |
| Showdown.RunOutAsWrittenDuringHand | showdown.py:104-105 | from a betting street the loop as written stops within four passes, where the runout does |
| Showdown.RunOutAsWrittenNeverStopsWhenIdle | showdown.py:104-105 | from an idle street the loop as written never reaches the showdown, however many passes it makes |
| Showdown.RunOutKeepsPlayers | showdown.py:104-105 | the runout folds nobody and moves no chips |
| Showdown.RunoutEffect | showdown.py:99-117 | the runout keeps the table valid and the chips; when it fires, the hand reaches its showdown |
| Showdown.AutoMuckEffect | showdown.py:88-94 | the automatic muck changes nothing once the user has decided or outside a showdown window; otherwise it records a muck and finishes the hand once everyone has decided |
| Showdown.FinishHand | showdown.py:8-24 | reports a new hand exactly when two players have chips, and leaves the table as finishing gives |
| Showdown.PayWinners | showdown.py:65-66 | the loop credits each winner its share |
| Showdown.BeginShowdown | showdown.py:45-96 | the table becomes the showdown's result |
| Showdown.HandleAllinRunout | showdown.py:99-117 | reports a runout exactly when one fires (guarded by a hand in progress), and the table becomes its result |
| Showdown.AutoMuck | showdown.py:88-94 | reports the hand finished exactly when the muck fired and completed the window |
| Commands.BetEffect | DiscordPokerBot/pokerbot_5d.py:121-125 | moving chips from the actor's stack to the pot keeps the table valid and the chips |
| Commands.MaybeNextStreetEffect | DiscordPokerBot/pokerbot_5d.py:79-96 | unless everyone matched nothing changes; otherwise the next street is dealt, or the river ends in the showdown; an idle table stays idle |
| Commands.MaybeNextStreetKeeps | DiscordPokerBot/pokerbot_5d.py:79-96 | keeps the table valid, and the chips when someone is live |
| Commands.AfterActionKeeps | DiscordPokerBot/pokerbot_5d.py:111-112 | the runout-or-next-street step keeps the table valid, and the chips when someone is live |
| Commands.TopCommittedIsMaximum | DiscordPokerBot/pokerbot_5d.py:168 | the new bet is the largest live commitment or the old bet, and at least the old bet |
| Commands.AliveMembers | DiscordPokerBot/pokerbot_5d.py:186 | the alive list holds exactly the unfolded seats, in order |
| Commands.CallEffect | DiscordPokerBot/pokerbot_5d.py:121-125 | a call pays the amount to call, or the whole stack when short; the caller then matches the bet or is all-in; no chip is lost |
| Commands.RaiseEffect | DiscordPokerBot/pokerbot_5d.py:141-148 | a raise pays the call plus the raise; the bet grows by the raise and the raiser matches it; no chip is lost |
| Commands.AllInEffect | DiscordPokerBot/pokerbot_5d.py:164-168 | all-in moves the whole stack to the pot; the bet becomes the largest live commitment (never lower than before) |
| Commands.FoldedEffect | DiscordPokerBot/pokerbot_5d.py:184-185 | folding marks only the actor's seat |
| Commands.FoldWinEffect | DiscordPokerBot/pokerbot_5d.py:186-196 | when one player is left, that player takes the whole pot, the hand ends and the winner's window opens |
| Commands.CheckKeeps | DiscordPokerBot/pokerbot_5d.py:99-112 | a check keeps the table valid, and the chips when someone is live |
| Commands.CallKeeps | DiscordPokerBot/pokerbot_5d.py:114-132 | a call keeps the table valid, and the chips when someone is live |
| Commands.RaiseKeeps | DiscordPokerBot/pokerbot_5d.py:134-154 | a raise keeps the table valid, and the chips when someone is live |
| Commands.AllInKeeps | DiscordPokerBot/pokerbot_5d.py:156-175 | all-in keeps the table valid, and the chips when someone is live |
| Commands.FoldKeeps | DiscordPokerBot/pokerbot_5d.py:177-200 | a fold keeps the table valid, and the chips when someone remains |
| Commands.ShowOrMuckEffect | DiscordPokerBot/pokerbot_5d.py:202-214 | show or muck outside a window, or by a user not in it, changes nothing; otherwise it records the decision, and finishes the hand once everyone decided |
| Commands.Refusals | DiscordPokerBot/pokerbot_5d.py:103-182 | every betting command is refused while a show-or-muck window is open (the gate from "## Findings"); otherwise a command is accepted exactly from the player whose turn it is; each refusal leaves the table unchanged; each command's own refusal comes exactly from its own test |
| Commands.WindowKeepsChips | DiscordPokerBot/pokerbot_5d.py:99-214 | while a window is open every betting command is refused and changes nothing; with an empty pot, show, muck and the automatic muck keep every chip |
| Commands.FinishKeepsChips | showdown.py:8-22 | closing a window with an empty pot keeps every chip, whether or not the next hand begins |
| Commands.DecisionKeepsChips | DiscordPokerBot/pokerbot_5d.py:202-214 | show or muck with an empty pot keeps every chip |
| Commands.AutoMuckKeepsChips | showdown.py:88-94 | the automatic muck with an empty pot keeps every chip |
| Commands.FirstHand | table.py:63-106 | the first heads-up hand: seat 1 posts the small blind and acts first, seat 0 posts the big blind, 200 chips |
| Commands.SmallBlindFolds | DiscordPokerBot/pokerbot_5d.py:177-196 | the small blind's fold gives seat 0 the pot and opens its window, with the turn left on the folded seat |
| Commands.CalledInWindow | DiscordPokerBot/pokerbot_5d.py:114-132 | as written, the folded seat's call during the window puts 5 chips in the pot |
| Commands.MuckStartsNextHand | DiscordPokerBot/pokerbot_5d.py:209-214 | the winner's muck closes the window and begins the next hand, keeping only the stacks |
| Commands.PotLostAsWritten | DiscordPokerBot/pokerbot_5d.py:114-132 | as written, that call and the muck leave 195 of the 200 chips |
| Commands.GateKeepsPot | DiscordPokerBot/pokerbot_5d.py:114-132 | with the gate the call is refused and the muck keeps all 200 chips |
| Commands.BustedSurvivorCheckNeverEnds | showdown.py:99-105 | on the busted heads-up table the survivor's check passes the as-written guard with the street idle, and the loop never ends |
| Commands.TurnOf | DiscordPokerBot/pokerbot_5d.py:103-104 | the window gate from "## Findings", then the turn test as the commands make it |
| Commands.MaybeNextStreet | DiscordPokerBot/pokerbot_5d.py:79-96 | the table becomes what `maybe_next_street` gives |
| Commands.Check | DiscordPokerBot/pokerbot_5d.py:99-112 | the reply and the new table are the check's, with the runout only during a hand (see Left out) and refused while a window is open (see Findings) |
| Commands.Call | DiscordPokerBot/pokerbot_5d.py:114-132 | the reply and the new table are the call's, with the runout only during a hand (see Left out) and refused while a window is open (see Findings) |
| Commands.Raise | DiscordPokerBot/pokerbot_5d.py:134-154 | the reply and the new table are the raise's, refused while a window is open (see Findings) |
| Commands.AllIn | DiscordPokerBot/pokerbot_5d.py:156-175 | the reply and the new table are the all-in's, with the runout only during a hand (see Left out) and refused while a window is open (see Findings) |
| Commands.Fold | DiscordPokerBot/pokerbot_5d.py:177-200 | the reply and the new table are the fold's, refused while a window is open (see Findings) |
| Commands.ShowOrMuck | DiscordPokerBot/pokerbot_5d.py:202-214 | reports the hand finished exactly when the window was open, the user in it and everyone now decided; the table is the result |

## Left out

- Discord I/O is not modelled. This covers sending messages, DMing hole
  cards, board images, the button views (`ui.py`) and `table_text`. Only
  the state changes and the replies that decide them are kept.
- The shuffle is a parameter. `deal_deck()` and `random.shuffle` are
  replaced by a `newDeck`/`nextDeck`/`deck` parameter. Every step that
  may deal a hand requires one with at least `2 * players + 5` cards.
  The source always deals from 52 cards and `add_player` has no seat
  limit, so this requirement leaves out a crash. With 24 to 26 players
  the deck runs dry while `next_street` deals the board (the river card
  for 24 players, the flop for 25 and 26), and `deck.pop()` raises
  `IndexError`. With 27 or more players it raises inside `begin_hand`'s
  dealing loop, after the blinds, the dealer and the hand count have
  already changed. The model does not capture these runs.
  The hand evaluators do not need distinct cards.
- The `asyncio.sleep` timers are not modelled. The three-second pause
  before the next hand is dropped. The seven-second auto-muck timer is
  the explicit `Showdown.AutoMuck` event, and it may come at any moment
  after the window opens. Interleavings with other tasks are not
  modelled.
- The per-channel table registry and the `start`, `join`, `buyin` and
  `end` commands are not modelled. Neither are the `status` command and
  the earlier bot revisions. The table's own `add_player` and
  `set_buyin` are modelled.
- A missing table is not modelled. `get_table` returning no table, and
  the command then returning early, is outside the model: every command
  takes a table.
- When `turn_idx` is `None` before the first hand, Python would raise
  instead of replying. The model replies `NoTurn` and changes nothing.
- `resolve_show_or_muck` looks up the player's record (`next(...)`)
  only to print the hand. That lookup and the messages are not
  modelled, and neither is the `StopIteration` it would raise for a
  user in the window who has no seat.
- HandEvaluator.BestHandIgnoresSuits: only covers seven-card hands in
  which neither hand can make a flush. When a flush is possible, suits
  do change the score.
- `HandEvaluator.BestHand` and `LegacyHandEvaluator.BestHand` require at
  least five cards. With fewer, Python returns `None`. The table only
  scores hole cards plus a full board.
- The concrete hands in `test_hand_evaluator.py` are not restated as
  lemmas about particular cards. The properties they check are proved
  for all hands: the ordering of categories, the wheel, and kickers
  deciding ties.
- The legacy evaluator's overlapping score bands are kept as written.
  `LegacyHandEvaluator.HighCardAboveStraightFlush` states the overlap.
  The table ranks hands with the current evaluator.
- LegacyHandEvaluator.TwoPairScore: proved only without a flush. It requires `!flush`, because a flush
  with two pairs cannot come from a real deck. The evaluator would
  score it as a flush.
- Pots the source drops are kept as written, apart from the window gate
  in "## Findings". `begin_hand` resets the pot to zero, so chips left in
  the pot when a hand begins are lost (`Table.BlindsConserveChips`
  counts only the stacks). This happens in two ways. When nobody is
  live at a showdown, nobody is paid: `Showdown.NobodyLiveShowdown`
  states this as written, and for the same reason the
  chip-conservation lemmas about the commands hold only when someone is
  live. Between hands with no window open (for example after a hand
  that left only one player with chips), the betting commands are still
  accepted; what they put in the pot stays there until the next
  `begin_hand` drops it.
- `next_street` puts the turn on seat 0 on every street. This includes
  the showdown, and it does not skip folded or all-in seats. `raise`
  does not offer the table to the all-in runout. A folded or all-in
  player whose turn it is may still act. All of these are modelled as
  written.
- Table.PokerTable.WinnersAndLosers: returns the losers in seat order,
  where the source sorts every result by descending score before it
  filters, so its losers come best first (ties in seat order). The
  orders differ from three players on, when two losers score
  differently. Only the losers' ids reach the state, as the keys of the
  show-or-muck window, so the model loses only the order of the loser
  messages and of the auto-muck timers. `Table.Losers` and
  `Table.SplitByScore` use the same seat order.
- Commands.Check, Commands.Call, Commands.AllIn: embed the corrected
  runout guard from the "## Findings" row (`Showdown.RunoutFires`: the
  street is not idle), as do `Commands.AfterAction` and the
  `CheckKeeps`, `CallKeeps`, `AllInKeeps` and `AfterActionKeeps` lemmas.
  On an idle table where the runout test as written passes, the
  source's command never returns: the loop of
  `Showdown.RunOutAsWrittenNeverStopsWhenIdle` spins forever, as
  `Commands.BustedSurvivorCheckNeverEnds` shows for a reachable table.
  The model's command instead only passes the turn there.
- Commands.Check, Commands.Call, Commands.Raise, Commands.AllIn,
  Commands.Fold: refuse every betting command with `WindowOpen` while a
  show-or-muck window is open (`Commands.TurnReply`, the gate from
  "## Findings"). The source tests only the turn
  (`Commands.TurnReplyAsWritten`), and `Commands.CallAsWritten` keeps
  its call for `Commands.PotLostAsWritten`.
- Integers are unbounded, as in Python. Negative raise amounts and buy-in
  limits are accepted as the source accepts them.

## Findings

| source | as written | input that shows it | evidently intended | confidence | as-written member | corrected member |
|---|---|---|---|---|---|---|
| DiscordPokerBot/pokerbot_5d.py:99-200 | No betting command tests `showdown_pending`, and after a fold win the turn stays on the folded seat. A bet made while the show-or-muck window is open goes into the pot, and when the window closes `begin_hand` resets the pot. | Heads-up, blinds 5/10, 100 chips each. The small blind folds at once and the big blind wins 15. The folded small blind then types `call` and pays 5. The winner mucks and the next hand begins: 195 chips are left of 200. | While a window is open only `show` and `muck` act; every betting command is refused and the chips are conserved. | not executed | Commands.CallAsWritten, Commands.PotLostAsWritten | Commands.TurnReply, Commands.WindowKeepsChips, Commands.GateKeepsPot |
| showdown.py:101-105 | The runout fires when someone still in has no chips and everyone matched, without asking whether a hand is in progress. `next_street` leaves an idle street idle, so `while street != "showdown"` never ends. | A heads-up table after a showdown that seat 1 lost with all its chips: idle, turn on seat 0, no next hand dealt. Seat 0's `check` is accepted, and the runout then loops forever. | The runout only during a hand (street not idle). The loop then ends within four passes at the showdown. | not executed | Showdown.RunOutAsWrittenNeverStopsWhenIdle, Commands.BustedSurvivorCheckNeverEnds | Showdown.HandleAllinRunout, Showdown.RunoutEffect |
