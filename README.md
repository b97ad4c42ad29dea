# Card engine of a merge patience game, in Dafny

This project models the card engine of a browser merge-patience game. Four columns are fed
from a three-card queue, and the queue is refilled from a finite deck of 160 cards worth
2, 4, 8, 16 and 32. A card may go onto an empty column, or onto a column whose top card is at
least as large. Equal adjacent cards merge into one card of twice the value, and the merged
value is added to the score. The game ends when a column overflows at eight cards, when the
deck and queue are both empty, or when the right-most queue card fits nowhere and no trash is
left. Every card also carries a luck tier and a suit, and a fortune report is read off the
final board.

The model follows the program file by file:

| module | models |
|---|---|
| `Cards` | The card, column and luck types, and sorting cards largest value first. |
| `Draws` | The random source as an explicit stream of draws in [0, 1). |
| `Numerals` | Decimal numerals, as JavaScript prints integers. |
| `GameLogic` | Placement, the single-step merge and the batch merge, the finite deck and the Fisher–Yates shuffle. |
| `GameState` | The game store, as a class `GameStore`. |
| `GameService` | The service that drives both stores. |
| `UIState` | The UI store, as a class `UIStore`. |
| `LuckConfig` | The luck tables and the tier and suit rolls. |
| `FortuneEvaluator` | The fortune report. |
| `SeededRandom` | xmur3, mulberry32 and the daily seed. |
| `LuckTracker` | The append-only merge log, as a class `MergeLog`. |

How the model is built:
- Each store operation is a pure transition on a `Board` value, such as `StoreMove`,
  `StoreUndo` or `StoreTrash`. Lemmas prove its guards, conservation of cards and the preserved
  store invariant.
- Each store method is proved to perform its transition on the class's fields.
- The source's loops are methods with loop invariants, each proved equal to the function
  that specifies it: the merge scans, the deck loops, the in-place shuffle on an `array`, the
  deal and settle loops, the tier-count reduce, the suit-count map and the xmur3 hashing loop.

Random draws, fresh card ids and the luck of created cards are parameters:
- A `Stream` of draws with a cursor stands for `Math.random`.
- A counter `nextId` supplies card ids.
- A `Minter` gives each newly created card its tier and suit.

## Model

| member | source | states |
|---|---|---|
| GameLogic.PlacementKeepsColumnDescending | src/logic/GameLogic.ts:9-20 | On a column sorted largest first, a card may be placed exactly when the column stays sorted; an empty column takes any card. |
| GameLogic.PlacementErrorMessage | src/logic/GameLogic.ts:28-35 | There is no message exactly when the card may be placed. Otherwise the column is non-empty and the message names the card's value and the top card's value. |
| GameLogic.MaxCardValueIsMax | src/logic/GameLogic.ts:45-52 | The running maximum is at least 2 and at least every card's value, and it is 2 or the value of some card. |
| GameLogic.GenerationPower | src/logic/GameLogic.ts:55-70 | The maximum power lies between 3 and 6. It is 3 for a largest value below 16 with a score of at most 5000, at least 5 from a largest value of 64, and at least 4 above a score of 5000. |
| GameLogic.ScanColumnMax | src/logic/GameLogic.ts:47-51 | The inner loop over one column's cards extends the running maximum over those cards. |
| GameLogic.CalculateCardGenerationRange | src/logic/GameLogic.ts:43-71 | The result is the generation power of the largest value on the board and the score, and so lies between 3 and 6. |
| GameLogic.FirstPair | src/logic/GameLogic.ts:110-112 | Returns the lowest index of an equal adjacent pair, with no pair below it. There is none exactly when no two adjacent cards are equal. |
| GameLogic.ChainMergeShape | src/logic/GameLogic.ts:97-137 | With fewer than two cards or no equal pair, the cards come back unchanged with gain 0. Otherwise only the lowest pair merges: the length drops by one, a fresh card of value 2v sits at the pair's index, the gain is 2v, and the cards before and after are unchanged. |
| GameLogic.ChainMergeKeepsSum | src/logic/GameLogic.ts:110-131 | The single-step merge keeps the sum of card values. |
| GameLogic.ChainScanMerges | src/logic/GameLogic.ts:107-131 | The scan with the found-merge flag computes the single-step merge of the lowest pair. |
| GameLogic.ChainScanCopies | src/logic/GameLogic.ts:126-130 | Once the flag is set, the scan copies the remaining cards unchanged. |
| GameLogic.ProcessChainMerge | src/logic/GameLogic.ts:97-137 | The loop method returns the column with the single-step merge's cards and the same id, the gain, and the next fresh id. |
| GameLogic.FirstPairAt | src/logic/GameLogic.ts:112 | An equal pair at i with no pair below it is the one the scan finds. |
| GameLogic.MergePass | src/logic/GameLogic.ts:155-172 | A pass never lengthens the cards, shortens them when it changes anything, and never moves the id counter back. |
| GameLogic.MergePassFacts | src/logic/GameLogic.ts:155-172 | A pass changes something exactly when there is an equal adjacent pair. Without one it returns the cards with gain 0. It always keeps the sum of card values. |
| GameLogic.MergePassKeepsSum | src/logic/GameLogic.ts:157-172 | Merging every disjoint pair keeps the sum of card values. |
| GameLogic.AllMergesFacts | src/logic/GameLogic.ts:144-180 | The batch merge terminates with no equal adjacent pair and the same value sum. On an already settled column it changes nothing and gains 0. |
| GameLogic.RunMergePass | src/logic/GameLogic.ts:155-172 | The inner while loop of a pass computes the pass. |
| GameLogic.ProcessAllMerges | src/logic/GameLogic.ts:144-180 | The do-while method returns the batch merge's cards, gain and next id. |
| GameLogic.MergePassKeepsOrder | src/logic/GameLogic.ts:157-172 | Whatever original cards a pass's result holds appear in the input in the same relative order. Which cards survive is stated by MergePassKeepsUnpaired. |
| GameLogic.AllMergesKeepsOrder | src/logic/GameLogic.ts:153-174 | Whatever original cards the batch merge's result holds appear in the input in the same relative order. Which cards survive is stated by AllMergesSurvivors. |
| GameLogic.UnpairedSettled | src/logic/GameLogic.ts:157-170 | The cards a pass leaves unpaired are a subsequence of the column, and they are the whole column exactly when it has no equal adjacent pair. |
| GameLogic.MergePassKeepsUnpaired | src/logic/GameLogic.ts:157-172 | For any bound up to the first fresh id, the result's cards with ids below the bound are exactly the input's unpaired cards with ids below it, in order. The fresh merged cards are the only other cards. |
| GameLogic.MergePassKeptCards | src/logic/GameLogic.ts:157-172 | When every id is below the first fresh id, the pass's result holds all of the unpaired cards and no other original card, in their original order. |
| GameLogic.AllMergesSurvivors | src/logic/GameLogic.ts:153-174 | Pass by pass, the original cards entering a pass are exactly those the previous pass left unpaired. The original cards in the final column are exactly those the last pass left unpaired. So a card survives exactly when no pass pairs it, in its original order. |
| GameLogic.CreateFiniteDeck | src/logic/GameLogic.ts:186-209 | The nested push loops build the configured deck with consecutive fresh ids. |
| GameLogic.BuildDeck | src/logic/GameLogic.ts:197-206 | The outer loop over the configuration yields each entry's cards in turn. |
| GameLogic.AppendRun | src/logic/GameLogic.ts:199-205 | The inner loop appends count cards of one value, with ids continuing the deck's. |
| GameLogic.RunsFacts | src/logic/GameLogic.ts:197-206 | The deck built from a configuration has its size, its count of each value and its value total, and its ids are consecutive. |
| GameLogic.DeckComposition | src/logic/GameLogic.ts:186-209 | The deck holds 53×2, 43×4, 32×8, 21×16 and 11×32 and no other value: 160 cards worth 1222, with distinct ids. |
| GameLogic.SwapPermutes | src/logic/GameLogic.ts:226-227 | A swap keeps the multiset of cards. |
| GameLogic.ShuffledPermutes | src/logic/GameLogic.ts:216-231 | The shuffle keeps the length and the multiset of cards. |
| GameLogic.ShuffleDeck | src/logic/GameLogic.ts:216-231 | The in-place loop on the array performs the specified shuffle with one draw per position from the top down, so the array holds a permutation of its old contents. |
| GameLogic.ShuffleOne | src/logic/GameLogic.ts:220-228 | One round draws an index below the current one and swaps it with the last unshuffled position. |
| GameLogic.SwapCards | src/logic/GameLogic.ts:226-227 | The destructuring swap exchanges the two array elements. |
| GameLogic.ShuffleStep | src/logic/GameLogic.ts:220-228 | A shuffle from cur equals the swap with the drawn index followed by the shuffle from cur - 1. |
| Cards.SortDescFacts | src/logic/FortuneEvaluator.ts:8-10 | Sorting by value leaves the cards in non-increasing value order, with the same multiset and the same length. |
| Cards.SortDescHead | src/logic/FortuneEvaluator.ts:8-10 | The stable sort puts first the first card of largest value. |
| Cards.FirstMaxIndex | src/logic/FortuneEvaluator.ts:98 | Returns the index of a card of largest value with no equally large card before it. |
| GameState.FindColumn | src/state/GameState.ts:119 | Returns the index of the first column with the id, or none when no column has it. |
| GameState.RefillConserves | src/state/GameState.ts:130-137 | Refilling loses exactly the right-most queue card. The queue keeps its length while the deck has cards, and the remaining queue cards shift one place right. |
| GameState.PlaceOnColumnShape | src/state/GameState.ts:139-143 | The card goes on top of the columns with the target id, and every other column is unchanged. |
| GameState.PlaceOnColumnConserves | src/state/GameState.ts:139-143 | With distinct column ids, the placement adds exactly that card to the board's column cards. |
| GameState.PushHistory | src/state/GameState.ts:146-155 | The new snapshot is prepended to the history, which keeps at most two entries, newest first. |
| GameState.PlacedConserves | src/state/GameState.ts:130-162 | A placement keeps every card of the board, the score and both budgets, and records the board before the move at the head of the history. |
| GameState.NotOverHasMove | src/state/GameState.ts:203-231 | While the game is not over and the queue is stocked, the queue is non-empty and the right-most card fits a column with room, or a trash is left. |
| GameState.StoreMoveGuards | src/state/GameState.ts:114-170 | A move does nothing while animating, after game over, on an empty queue or for an unknown column. An illegal card or a full column moves nothing, and only the full column sets game over. A legal move places the card and schedules a merge exactly when the game goes on. |
| GameState.StoreMoveConserves | src/state/GameState.ts:114-170 | Every move keeps all cards, the score and the budgets, never clears game over, schedules a merge only when the game is not over, and keeps the store invariant. |
| GameState.PlacedKeepsInvariant | src/state/GameState.ts:130-162 | A placement keeps the bounded history, the budgets and the stocked queue. |
| GameState.StoreUndoFacts | src/state/GameState.ts:172-182 | Undo does nothing without an undo left or a snapshot. Otherwise it restores the head snapshot, drops it and spends exactly one undo. It keeps the store invariant. |
| GameState.UndoUndoesMove | src/state/GameState.ts:114-182 | Undo right after a legal move restores the columns, queue, deck and score from before the move. |
| GameState.StoreTrashFacts | src/state/GameState.ts:184-201 | Trash does nothing without a trash left or on an empty queue. Otherwise it loses exactly the right-most queue card and spends one trash, and leaves the columns, score, history and undos alone. It keeps the store invariant. |
| GameState.DealtColumnIds | src/state/GameState.ts:45 | The dealt columns carry ids 1 to 4 in order. |
| GameState.DealFull | src/state/GameState.ts:48-55 | Two rounds of the deal give column j the deck's cards at n-1-j and n-5-j, and leave the first n-8 cards. |
| GameState.DealConserves | src/state/GameState.ts:48-55 | The deal moves cards from the deck to the columns and loses none. |
| GameState.DealInitialColumns | src/state/GameState.ts:48-55 | The nested pop-and-push loops perform the specified deal. |
| GameState.SettleColumnsFacts | src/state/GameState.ts:58-65 | Sorting and batch-merging each column keeps the ids and the value sum and leaves no equal adjacent pair. |
| GameState.SettleInitialColumns | src/state/GameState.ts:58-65 | The forEach loop sorts and batch-merges each column in turn and sums the gains into the score. |
| GameState.FirstIndexOfValue | src/state/GameState.ts:76 | Returns the first index of a card of that value, or none when there is none. |
| GameState.RemoveFirstOfValueFacts | src/state/GameState.ts:76-79 | The splice removes one card of that value when there is one, and nothing otherwise. |
| GameState.RemoveValueTimesFacts | src/state/GameState.ts:75-80 | With at least n cards of value v, n rounds remove exactly n of them and no other card. |
| GameState.RemoveInitialTwos | src/state/GameState.ts:75-80 | The removal loop takes up to three 2s out of the deck, as specified. |
| GameState.InitialQueue | src/state/GameState.ts:68-72 | The initial queue is three cards of value 2. |
| GameState.NewShuffledDeck | src/state/GameState.ts:42 | Builds the 160-card deck and shuffles it with 160 draws. |
| GameState.InitialSetupFacts | src/state/GameState.ts:41-95 | A new game has four settled columns with ids 1 to 4, three 2s in the queue and 149 cards in the deck. Columns and deck are worth 1222 - 6. The starting score is what settling the dealt columns gains. The new board, with no history, two undos and one trash, satisfies the store invariant. |
| GameState.InitializeGame | src/state/GameState.ts:41-95 | The step-by-step setup yields the specified new game, which satisfies the store invariant. |
| GameState.DetectMergingPair | src/state/GameState.ts:246-252 | The detection loop returns the ids of the lowest equal adjacent pair, or nothing. |
| GameState.MergingPairIsMerged | src/state/GameState.ts:246-265 | A pair is marked exactly when the chain merge changes the column, and the marked cards are the two the merged card replaces. |
| GameState.StoreResolveStep | src/state/GameState.ts:254-277 | With no pair marked the loop stops unchanged. Otherwise one chain merge shortens the column, a positive gain is scored, and the loop continues on the result. |
| GameState.StoreResolveFacts | src/state/GameState.ts:241-281 | The store's merge loop ends with no equal adjacent pair and keeps the value sum. It never lowers the score and changes the column exactly when it had a pair. |
| GameState.GameStore.constructor | src/state/GameState.ts:97-98 | The store starts as a new game with ids from 0, satisfying its invariant. |
| GameState.GameStore.ResetGame | src/state/GameState.ts:233-235 | The store's fields become a new game, with the counters and flags reset. |
| GameState.GameStore.MoveCardFromQueue | src/state/GameState.ts:114-170 | The fields change as the move transition says, including the game-over flag and whether a merge is scheduled, and the invariant is kept. |
| GameState.GameStore.PlaceFromQueue | src/state/GameState.ts:130-162 | The slice, pop, unshift, map and history steps perform the placement on the fields. |
| GameState.GameStore.Undo | src/state/GameState.ts:172-182 | The fields change as the undo transition says, keeping the invariant. |
| GameState.GameStore.TrashCard | src/state/GameState.ts:184-201 | The fields change as the trash transition says, keeping the invariant. |
| GameState.GameStore.AddScore | src/state/GameState.ts:238 | The score grows by the points, and nothing else changes. |
| GameState.GameStore.SetAnimating | src/state/GameState.ts:239 | Sets the animating flag only. |
| GameState.GameStore.SetAnimatingCards | src/state/GameState.ts:240 | Sets the animating ids only. |
| GameState.GameStore.ProcessMergeWithAnimation | src/state/GameState.ts:241-281 | An unknown column changes nothing. Otherwise the column becomes the result of the store's merge loop, the score grows by its gains, and the animation marks are cleared when anything merged. Queue, deck, history and budgets stay as they were. |
| GameState.GameStore.ResolveColumn | src/state/GameState.ts:246-279 | Repeats detect-and-merge on one column until no pair is marked, and equals the store's merge loop. |
| GameState.GameStore.AnimateChainMerge | src/state/GameState.ts:255-275 | One round marks the pair, puts the chain merge's cards in the column, scores a positive gain and clears the marks. |
| GameService.EvaluateGameOver | src/state/GameState.ts:203-231 | The verdict is the game-over predicate. The reason is overflow when a column overflows, then deck-empty, then deadlock, each only when the earlier ones do not apply. A trigger column is named exactly for overflow, and it is the first full column. |
| GameService.ServiceMoveFacts | src/logic/GameService.ts:8-58 | A move changes the board exactly when it is legal: not animating, not over, a non-empty queue, a known column and a fitting card. Otherwise it is a no-op. A legal move is the placement. Every move keeps all cards, the score, the budgets and the store invariant. |
| GameService.PlacedShape | src/logic/GameService.ts:31-50 | The right-most queue card goes on top of the target column only. The deck's last card enters the queue at the front, keeping its length. The pre-move snapshot heads a history of at most two. |
| GameService.ServiceMoveMatchesStore | src/logic/GameService.ts:8-58 | Into a column with room, the service's move yields the store's board, and it schedules a merge whenever the store does. |
| GameService.ServiceFillsFullColumn | src/logic/GameService.ts:16-37 | The service has no column-limit check: it places a fitting card on a full column, which then exceeds the limit. The store refuses that move and ends the game instead. |
| GameService.ServiceUndoFacts | src/logic/GameService.ts:60-80 | With a non-negative undo budget the service's undo is the store's. It keeps the invariant, and undoing a legal move restores the board and score from before it. |
| GameService.ServiceTrashFacts | src/logic/GameService.ts:82-105 | With a non-negative trash budget the service's trash is the store's. It loses exactly the right-most queue card, spends one trash and keeps everything else and the invariant. |
| GameService.ChainMergeKeepsPositive | src/logic/GameLogic.ts:114-120 | Merging positive cards creates a positive card. |
| GameService.ServiceResolveStep | src/logic/GameService.ts:116-135 | A round with a positive gain shortens the column, adds the gain, and continues on the merged cards. |
| GameService.ServiceResolveFacts | src/logic/GameService.ts:107-143 | The animated loop keeps the value sum and never loses score. On positive cards it ends with no equal adjacent pair and equals the store's loop. |
| GameService.TopPairPass | src/logic/GameLogic.ts:155-172 | With no pair below the top two cards, one batch pass is the single-step merge. |
| GameService.TopPairMerged | src/logic/GameService.ts:116-135 | When only the top pair can be equal, both resolutions start with the same merge of that pair, which again leaves only the top pair possible. |
| GameService.TopPairResolvesAlike | src/logic/GameService.ts:107-143 | When only the top pair can be equal and the cards are positive, the animated loop and the batch merge give the same cards, score and ids. |
| GameService.PlacementResolvesAlike | src/logic/GameService.ts:107-143 | A card placed on a settled column of positive cards resolves alike both ways. |
| GameService.ResolutionsDifferInGeneral | src/logic/GameService.ts:107-143 | From 2, 2, 4, 4 the animated loop ends at 8, 4 but the batch merge ends at 4, 8, so the two resolutions are not the same in general. |
| GameService.SetColumnCardsAt | src/logic/GameService.ts:126-128 | With distinct ids, the map replaces the cards of the one column with the id and keeps every id. |
| GameService.MoveCardFromQueue | src/logic/GameService.ts:8-58 | The store's fields change as the service's move transition says, keeping the invariant, and the method reports whether a merge was scheduled. |
| GameService.Undo | src/logic/GameService.ts:60-80 | The store changes as the service's undo says. After a restore, the UI shows the game-over evaluation of the restored board. A no-op leaves the UI unchanged. |
| GameService.TrashCard | src/logic/GameService.ts:82-105 | The store changes as the service's trash says. After a discard, the UI shows the game-over evaluation. A no-op leaves the UI unchanged. |
| GameService.RestoreSnapshot | src/logic/GameService.ts:69-76 | The setter calls restore the head snapshot and spend one undo; the setters the store does not define are taken as field assignments. |
| GameService.DiscardRightmost | src/logic/GameService.ts:91-101 | The setter calls drop the right-most queue card, refill from the deck and spend one trash; the setters the store does not define are taken as field assignments. |
| GameService.ProcessMergeWithAnimation | src/logic/GameService.ts:107-143 | An unknown column changes nothing. Otherwise the column becomes the result of the animated loop and the score grows by its total gain. The UI then shows the game-over evaluation of the settled board, with animation off when anything merged. The UI marks lose exactly the ids of every pair merged, round after round, and keep their order. |
| GameService.ResolveAt | src/logic/GameService.ts:116-142 | The recursive loop on the found column equals the animated loop and ends by showing the evaluation. The UI marks lose exactly the merged pairs' ids. |
| GameService.MergeAndContinue | src/logic/GameService.ts:118-136 | The gaining branch performs one merge round and then recurses. The UI marks lose this round's pair and then every later round's pair. |
| GameService.AnimateMerge | src/logic/GameService.ts:119-133 | Marks the pair, puts the merged cards in the column, adds the gain, turns animation off and unmarks the pair. The marks end as the old marks less exactly the pair's ids. |
| GameService.ApplyMerge | src/logic/GameService.ts:124-131 | Only the target column's cards and the score change. |
| GameService.ShowGameOver | src/logic/GameService.ts:141-142 | The UI banner becomes the game-over evaluation of the board. |
| GameService.ResetGame | src/logic/GameService.ts:145-151 | The UI's game-over state and animation marks are cleared, and the store starts a new game. |
| UIState.DedupFacts | src/state/UIState.ts:39 | The set conversion keeps exactly the ids given, each once, and changes nothing on a list without repeats. |
| UIState.DedupKeepsPrefix | src/state/UIState.ts:39 | Adding ids keeps the old ones in front, in their order. |
| UIState.WithoutFacts | src/state/UIState.ts:44 | The filter keeps exactly the ids that are not removed, adds no repeats, and never lengthens the list. |
| UIState.WithoutTwice | src/state/UIState.ts:44 | Removing one list of ids and then another removes both at once. |
| UIState.MarkThenUnmark | src/state/UIState.ts:37-45 | On repeat-free marks, adding ids and then removing the same ids leaves the old marks less those ids, in their order. |
| UIState.UIStore.constructor | src/state/UIState.ts:26-31 | The initial UI state: not animating, no marks, no game over. |
| UIState.UIStore.SetAnimating | src/state/UIState.ts:33-35 | Sets the animating flag only. |
| UIState.UIStore.AddAnimatingCards | src/state/UIState.ts:37-40 | The marks become the union of old and new ids, without repeats and with the old ids first. |
| UIState.UIStore.RemoveAnimatingCards | src/state/UIState.ts:42-45 | Exactly the given ids are removed, and the rest keep their order. |
| UIState.UIStore.ClearAnimatingCards | src/state/UIState.ts:47-49 | The marks become empty. |
| UIState.UIStore.SetGameOver | src/state/UIState.ts:51-63 | A game that is over stores the payload's trigger and reason. Otherwise trigger and reason are cleared whatever the payload says. animationFinished is always false. |
| UIState.UIStore.ResetGameOver | src/state/UIState.ts:65-71 | The game-over flag, trigger, reason and animationFinished return to their initial values. |
| UIState.UIStore.SetAnimationFinished | src/state/UIState.ts:73-76 | Sets animationFinished only. |
| LuckConfig.PoolsPartitionCatalog | src/logic/LuckConfig.ts:15-37 | Each pool lists five distinct suits of its tier, and every suit sits in the pool of its catalog tier. |
| LuckConfig.EvolutionTableShape | src/logic/LuckConfig.ts:45-57 | The sorted key list is exactly the table's keys, and each row is a probability distribution. |
| LuckConfig.SelectKeyIsFloor | src/logic/LuckConfig.ts:142-148 | Over ascending keys, the loop ends on the last key not above the value, or on its starting choice. |
| LuckConfig.EvolutionKeyIsFloor | src/logic/LuckConfig.ts:137-149 | The key is the largest table key that is at most the value, or 2 when the value is below every key. |
| LuckConfig.FindEvolutionKey | src/logic/LuckConfig.ts:137-149 | The loop over the sorted keys returns the specified key. |
| LuckConfig.ProbabilitiesAreDistribution | src/logic/LuckConfig.ts:151-153 | The probabilities of any value form a distribution. They are (1, 0, 0) below 16 and (0.9, 0.1, 0) from 16 to 127, and tier 1 has probability 0 from 2048. |
| LuckConfig.TierByValue | src/logic/LuckConfig.ts:155-166 | For a draw in [0, 1), a value below 16 always rolls tier 1, a value below 128 never rolls tier 3, and a value of 2048 or more never rolls tier 1. |
| LuckConfig.PickSuitForTier | src/logic/LuckConfig.ts:168-187 | The suit always belongs to the tier's pool. A retainable previous suit comes back when the first draw is below 0.5, using one draw; when that draw is not below 0.5, the pick uses exactly two draws. Without a retainable suit it uses one. Otherwise the suit is the pool entry at floor(r·5) of the last draw, which is in range. |
| LuckConfig.RolledLuckIsConsistent | src/logic/LuckConfig.ts:211-227 | The rolled suit has the rolled tier, and the emoji and label are its catalog entry. A roll uses two draws, and three exactly when the previous tier equals the rolled tier, the previous suit has that tier and the retention draw is not below 0.5. The previous suit is offered only when the previous tier equals the rolled tier. |
| Draws.ScaledIndex | src/logic/LuckConfig.ts:185 | For a draw in [0, 1), floor(r·n) is an index below n when n is positive. |
| LuckConfig.NarrativesFilled | src/logic/LuckConfig.ts:59-135 | Every suit has three non-empty narratives. |
| LuckConfig.GetSuitNarrative | src/logic/LuckConfig.ts:189-202 | Returns the suit's narrative for the requested tier, which is never empty. |
| FortuneEvaluator.TierCountsOfCounts | src/logic/FortuneEvaluator.ts:12-20 | Each tier's count is the number of cards of that tier, and the counts sum to the number of cards. |
| FortuneEvaluator.CalculateTierCounts | src/logic/FortuneEvaluator.ts:12-20 | The reduce loop computes the tier counts, which sum to the number of cards. |
| FortuneEvaluator.TalliesDistinct | src/logic/FortuneEvaluator.ts:23-32 | The counting map has at most one entry per suit. |
| FortuneEvaluator.TalliesCount | src/logic/FortuneEvaluator.ts:25-32 | Each entry counts exactly the cards of its suit and remembers one such card. |
| FortuneEvaluator.TalliesPresent | src/logic/FortuneEvaluator.ts:25-32 | A suit has an entry exactly when some card has that suit. |
| FortuneEvaluator.SortByCountFacts | src/logic/FortuneEvaluator.ts:41 | The count sort keeps the entries, orders them by count and keeps suits distinct. |
| FortuneEvaluator.CalculateSuitHighlights | src/logic/FortuneEvaluator.ts:22-43 | The forEach over the cards, then the map, sort and slice, computes the specified highlights. |
| FortuneEvaluator.HighlightsFacts | src/logic/FortuneEvaluator.ts:22-43 | At most four highlights, with distinct suits, largest count first. Each counts exactly the cards of its suit and carries that suit's emoji and label. |
| FortuneEvaluator.HighlightsTopFour | src/logic/FortuneEvaluator.ts:34-42 | A suit with cards that is not highlighted has no more cards than any of the four highlighted suits. |
| FortuneEvaluator.ComputeVolatility | src/logic/FortuneEvaluator.ts:45-55 | The score is 2·t3 + t2 - t1. The level is stable when the score is at most 0, mixed from 1 to 3, and volatile above 3. |
| FortuneEvaluator.DeriveSummaryLabel | src/logic/FortuneEvaluator.ts:57-75 | Each label holds exactly when its rule applies and no earlier rule does. The rules are: no card; three or more tier-3 cards; a tier-3 highest card; at least as many tier-2 as tier-1 cards; otherwise. |
| FortuneEvaluator.BuildNarrativeLines | src/logic/FortuneEvaluator.ts:77-91 | One line per highlight in order, plus a closing line unless the volatility is mixed; that line is the volatile or the stable line. |
| FortuneEvaluator.RankedCardsFacts | src/logic/FortuneEvaluator.ts:94-96 | With or without a queue, the ranking is the sorted board and queue cards: the same multiset, sorted largest first. |
| FortuneEvaluator.RankedTierCounts | src/logic/FortuneEvaluator.ts:99 | Counting tiers over the ranking counts the board and queue cards. |
| FortuneEvaluator.RankedHighest | src/logic/FortuneEvaluator.ts:98 | The ranking is empty exactly when there are no cards. Otherwise its head is the first card of largest value. |
| FortuneEvaluator.TopCardsFacts | src/logic/FortuneEvaluator.ts:109 | The first six ranked cards are sorted, come from the cards, and no card left out beats any of them. |
| FortuneEvaluator.EvaluateFortuneFacts | src/logic/FortuneEvaluator.ts:93-121 | The report's tier counts count the board and queue cards and sum to their number, and tier3Count repeats the tier-3 count. There are at most six top cards, largest first, unbeaten by any card left out. The highest card exists exactly when there are cards and is the first of largest value. There is one narrative line per dominant suit, plus one unless mixed. |
| FortuneEvaluator.DominantSuitsFacts | src/logic/FortuneEvaluator.ts:100-112 | The dominant suits are at most four distinct suits, largest count first. Each counts that suit's cards on the board and in the queue, and no omitted suit beats them. |
| SeededRandom.AbsorbAppend | src/utils/random.ts:8-11 | Hashing a concatenation hashes the first part and then continues with the second. |
| SeededRandom.AbsorbUnits | src/utils/random.ts:8-11 | The for loop folds every code unit, first to last, into the state. |
| SeededRandom.HashDependsOnOrder | src/utils/random.ts:6-11 | A single worked example, not a general property: "ab" and "ba" hash to different states. |
| SeededRandom.StateOfAb | src/utils/random.ts:7-11 | A single worked example: the hash state of "ab" is 424046158. |
| SeededRandom.StateOfBa | src/utils/random.ts:7-11 | A single worked example: the hash state of "ba" is 3520708329. |
| SeededRandom.Xmur3.constructor | src/utils/random.ts:6-11 | Building the closure hashes the string's UTF-16 code units. |
| SeededRandom.Xmur3.Next | src/utils/random.ts:12-16 | Each call avalanches the state, stores it back and returns it. |
| SeededRandom.Fraction | src/utils/random.ts:30 | An unsigned 32-bit integer divided by 2^32 lies in [0, 1), and scaling back gives the integer. |
| SeededRandom.SeededStreamIsUnit | src/utils/random.ts:22-32 | Every output of a seeded generator lies in [0, 1). |
| SeededRandom.Mulberry32.constructor | src/utils/random.ts:22-23 | The generator starts from the seed, with no call made. |
| SeededRandom.Mulberry32.Next | src/utils/random.ts:24-31 | Each call adds 0x6d2b79f5 to the state with 32-bit wrap-around and returns the next element of the seed's fixed output sequence. |
| SeededRandom.Unsigned32 | src/utils/random.ts:35-37 | seed >>> 0 is the unsigned 32-bit integer congruent to the seed modulo 2^32. |
| SeededRandom.Truncate | src/utils/random.ts:36 | Rounds toward zero: the result lies within one of the number, on the zero side of it. |
| SeededRandom.ToUint32 | src/utils/random.ts:36 | NaN and the infinities give 0. A finite number gives the value below 2^32 that is congruent to the number rounded toward zero. |
| SeededRandom.ToUint32Integral | src/utils/random.ts:36 | On an integral number, >>> 0 is the congruence modulo 2^32, and a fraction below one is dropped toward zero first. |
| SeededRandom.NormalizeSeed | src/utils/random.ts:34-41 | A number (finite, NaN or infinite) goes through >>> 0, and a string through one call of its xmur3 hash. |
| SeededRandom.CreateSeededRandom | src/utils/random.ts:43-45 | Returns a fresh generator whose output sequence is determined by the seed alone, so equal seeds give identical sequences. |
| SeededRandom.PadStart2Digits | src/utils/random.ts:49-50 | A number below 100, padded to two digits, reads back as the number. |
| SeededRandom.DailySeedLayout | src/utils/random.ts:47-53 | The seed is the year, "-", two month digits, "-" and two day digits. ":" and the salt follow exactly when the salt is non-empty. |
| Numerals.NatDigitsRoundTrip | src/utils/random.ts:49-50 | The decimal numeral of a natural number reads back as that number. |
| LuckTracker.MergeLog.constructor | src/logic/LuckTracker.ts:8 | The log starts empty. |
| LuckTracker.MergeLog.RecordMergeLuck | src/logic/LuckTracker.ts:10-12 | Appends exactly one snapshot at the end. The earlier entries are unchanged, and the snapshot holds values the caller cannot alter afterwards. |
| LuckTracker.MergeLog.ClearMergeHistory | src/logic/LuckTracker.ts:14-16 | The log becomes empty. |
| LuckTracker.MergeLog.GetMergeHistory | src/logic/LuckTracker.ts:18-20 | Returns the entries in recording order and leaves the log as it is. |

## Left out

- The display colour (`getColorForValue`), the tier labels and the React components are cosmetic and are not modelled; a card keeps its id, value, tier and suit.
- `Card` in src/types.ts has no tier or suit, but the fortune and luck code read them; the model's card carries both. The emoji and label a card carries are taken to be its suit's catalog entry, as `rollLuckAttributes` sets them (src/logic/LuckConfig.ts:221-226); the fortune highlights read them from the catalog.
- Ids come from `Math.random()` for the deck cards and the three initial queue cards (src/logic/GameLogic.ts:201, src/state/GameState.ts:69-71) and from `Date.now() + Math.random()` for merged and generated cards (src/logic/GameLogic.ts:84, 116, 161); a counter stands for both, so distinct ids are a property of the model where the program has them only with high probability, and a caller-supplied `Minter` gives the luck of every created card, whose roll is not shown for merged and dealt cards.
- `Math.random` and every other generator call become an explicit stream of draws with a cursor; ambient randomness is not modelled.
- A finite numeric seed is the exact real its double denotes; -0 is the same as 0, which ToUint32 does not tell apart either.
- LuckConfig.RollLuckTier: the tier thresholds and their running sums are exact reals; the double rounding of the stored probabilities and of their sums (0.7 + 0.2 is 0.8999999999999999 as a double) is not modelled, so a draw lying exactly between the real and the double threshold falls in a different tier in the model.
- The division of mulberry32's output by 2^32 is a real number; it is exact in a double, so no floating-point rounding is modelled.
- The `setTimeout` and `delay` timers of the two merge loops are dropped; each loop runs to its end in one call, so interleavings with user input during an animation are not modelled.
- `unlockHigherTierCards` is called by the service's merge loop (src/logic/GameService.ts:139), but neither the store nor any other file defines it; the model treats the call as a no-op, so the service's merge loop goes on to show the game-over evaluation where the program as written would fail at that call.
- The service calls `setHistory`, `setDeck`, `setScore`, `setUndoCount` and `setTrashCount` (src/logic/GameService.ts:50-53, 73-76, 100-101), but the store defines only `setColumns` and `setQueue` (src/state/GameState.ts:27-28, 108-109); the model treats the five calls as plain assignments to the store's fields, so the TypeError the program as written raises at the first of them in each operation (in `trashCard`, after the queue was already replaced) is not modelled.
- The service calls `processChainMerge(column.cards)` and expects merged cards, a gain and the merged ids; the model uses the `GameLogic` version that takes a column, and the merged ids are the lowest equal pair's. As written, the program passes an array where a column is expected, so `column.cards.length` (src/logic/GameLogic.ts:98) raises a TypeError, and the returned object has no `mergedCards` or `mergedCardIds`; that failure is not modelled.
- The service calls `state.checkGameOver()` and hands the result to `setGameOver`, but the store's version returns a boolean; `EvaluateGameOver` gives its verdict, with the reason and trigger column the UI expects (src/state/types.ts:3-7).
- The service calls `resetState`, which the store does not define; the model uses the store's `resetGame`.
- The store's merge loop and the service's differ on non-positive cards (the store keeps merging while a pair is marked, the service while a merge gains); the two are proved equal only on positive cards, which is what the game produces.
- The timestamp of the fortune report comes from the clock and is left out.
- `getDailySeed` takes the year, month and day as numbers; reading the date from the clock is left out.
- No general equivalence of the animated merge loop and the batch merge is claimed: they agree when the only possible equal pair is the top two cards, and a column with several pairs resolves differently.
