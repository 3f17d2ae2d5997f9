# Verification of the trading service's core logic

This project models the self-contained logic of the Kalshi tennis trading service in Dafny
and proves what it promises, for every input, every run or every interleaving. Probabilities,
prices and contract counts are exact reals; cents, times and scores are integers, with the
source's truncation towards zero written out. `dafny verify dfyconfig.toml` checks the whole
project.

| files | part of the service |
|---|---|
| `Markov`, `MarkovModel`, `MarkovSymmetry`, `MarkovMonotone`, `MarkovOnCourt`, `GamePoints` | hierarchical Markov tennis model: plain recursions, the memoising object, and theorems about them |
| `TennisRules`, `PointFlags`, `PointFlagTheorems`, `RowDeliveries` | rules 5, 6 and 7 of the ITF Rules of Tennis as a step machine, the point-flag detectors and the set counter, their agreement, and what the order of deliveries does to it |
| `Resolver`, `ResolverFifo`, `ResolverPnl`, `ResolverIsolation`, `CashFlow`, `ResolverCash`, `ResolverRows`, `RoundTrips`, `Summary` | backtest order resolution, row by row, first-in first-out matching, conservation of money, independence of markets, rows against each market's cash flow, aggregates |
| `Replay`, `ReplayTrace` | single-strategy and broadcast replay, tick by tick and at close time, with their caches and the shared Markov model, and what strategies get to hear in them |
| `Positions`, `PositionRuns` | position ledger and its runs |
| `Kelly`, `BuyTheDip`, `DipRuns`, `DipWindow`, `BookPressure`, `NoLookAhead`, `PressureRules`, `PressureRuns`, `Registry` | sizing, the two sell-to-close strategies, when they trade, and their runs |
| `Scheduler` | the pending map shared by the scheduling goroutine and its waiters |
| `Quota`, `QuotaRuns` | the order quota guard and its runs |
| `Money`, `Fractions`, `Text`, `Wrappers` | truncation to integers, fractions, decimal text, options and results |

Objects that the source updates in place are classes; each method is proved equal to a
function of the old state, and the theorems are about runs of those functions. The emitter's
answers, clock readings, the order in which Go visits a map and the turns in which goroutines
act are parameters over which every theorem is quantified. Locks are modelled by treating
each locked section, transaction or single UPDATE as one step.

The theorems about point rows are for rows as `internal/store/types.go` describes them: sets,
games and points numbered from one, the score before the point, the scorer of the point.  Rows
that show games after their point are counted alike (`PointFlagTheorems.CounterStepShown`); what
the live-data poller's rows, without point number and scorer, do to the tracker is in
`RowDeliveries.PolledRows`.

Where code and comments disagree the model follows the code:

- Games still to come in a set are won with the point probability itself, not with the game
  recursion, and a set at seven games to six is not over (`MarkovSymmetry.SevenSixPlaysOn`).
  When a game becomes the one at hand its value therefore shifts, and holding serve can lower
  the holder's win probability (`GamePoints.HoldHurts`, and exactly when in
  `GamePoints.GamePoint`).
- A waiter whose timer has fired deletes its market's pending entry whoever owns it, and a
  cancelled one compares start times only. So an entry never outlives its waiter, but a
  replaced waiter can delete its successor's entry and leave a waiter that the pass does not
  know of (`Scheduler.TimerRace`, `Scheduler.MovedBack`, and exactly when in
  `Scheduler.ExclusiveStep`).
- A buy that is matched in part is zeroed as a whole, so neither the cost nor the payout of
  its open remainder is in any row.  A market's rows then add up to more than its cash flow if
  that buy loses and to less if it wins; they agree exactly when the market's sells end between
  two buys (`ResolverCash.MarketCashExactly`, `ResolverCash.CutLotDecides`, and an input in
  `ResolverCash.SoldInPart`).
- An exit that finds its market unregistered forgets the position without a sell, and so does
  unregistering the market's event; the strategy may then buy again (`DipRuns.LostByExit`,
  `DipRuns.LostByUnregistering`, `PressureRuns.BuysTwice`).  In no other way do positions part
  from the accepted orders (`DipRuns.TracksExactly`, `PressureRuns.TracksExactly`).
- The set counter counts a row before the filter for rows seen before, so an old row that comes
  again can credit a set twice and hide a match point (`RowDeliveries.OldRowAgain`; exactly when
  the count is right in `RowDeliveries.CountsExactly`).
- Prices charged above a dollar or below nothing are clamped before they are booked, so booked
  P&L differs from cash by what the clamp hides (`PositionRuns.PositionAccounting`,
  `PositionRuns.NothingHidden`, and an input in `PositionRuns.PaidAboveADollar`).
- Cents get half a cent added and their fraction dropped towards zero, so a loss of whole cents is
  booked as one cent less (`Positions.WholeCents`, `PositionRuns.FiveCentsLost`).
- A close-time strategy goes through the tick replay when run alone but not in the broadcast;
  the two agree exactly when that replay gives it no order and every match with two markets is
  finalized with a close time (`Replay.Engine.AgreeExactly`).
- A NO buy is written in two transactions; a settlement between them books it as a YES
  position (`PositionRuns.LabelRace`, `PositionRuns.SettledBeforeLabel`).
- The quota guard's per-strategy key joins market and strategy with a bar; the check is
  redundant exactly when no two markets in use share a key
  (`QuotaRuns.StrategyCheckRedundant`, two orders that do in `QuotaRuns.SharedKey`).
- Average entry price is taken over all contracts ever bought, so after selling and buying
  again booked P&L drifts from cash (`PositionRuns.PositionDrift`, `PositionRuns.RebuyExample`).
- In a tie-break the point classifier reads plain counts as game scores
  (`PointFlagTheorems.ClassifyTiebreak`).

## Model

| member | source | states |
|---|---|---|
| MarkovModel.Model.constructor | internal/algorithms/markov.go:56-65 | a new model has empty tables and return probability one minus the serve probability |
| MarkovModel.Model.GameWinProbMemoized | internal/algorithms/markov.go:144-156 | returns the game recursion at its arguments from any valid tables, and keeps every table entry equal to the recursion at its key |
| MarkovModel.Model.TbWinProbMemoized | internal/algorithms/markov.go:295-339 | the same for the tie-break, whose key omits the point probability and the point total; terminates on all integer scores |
| MarkovModel.Model.TiebreakWinProb | internal/algorithms/markov.go:279-291 | the tie-break value at the parsed score |
| MarkovModel.Model.GameWinProb | internal/algorithms/markov.go:130-140 | the value of the current game or tie-break |
| MarkovModel.Model.SetWinProbCached | internal/algorithms/markov.go:239-274 | the set recursion at its arguments, tables kept valid; terminates on all integer scores |
| MarkovModel.Model.SetWinProb | internal/algorithms/markov.go:201-234 | the set value when the current game is won with a given probability |
| MarkovModel.Model.MatchWinProbFromSetScore | internal/algorithms/markov.go:106-125 | the match recursion at its arguments, tables kept valid |
| MarkovModel.Model.WinProbability | internal/algorithms/markov.go:83-102 | the plain win probability of any score, whatever was asked before |
| MarkovModel.Model.FairValue | internal/algorithms/markov.go:379-385 | the plain clamped fair value, whatever was asked before |
| MarkovModel.Model.SetWinProbability | internal/algorithms/markov.go:390-396 | the plain clamped set value, whatever was asked before |
| MarkovModel.Ask | internal/algorithms/markov.go:75-79 | any of the three queries is answered as by the plain recursions, tables kept valid |
| MarkovModel.SharedModelAnswers | internal/algorithms/markov.go:18-41 | any sequence of win-probability, fair-value and set queries to a shared model is answered as by a fresh model per query |
| MarkovSymmetry.TiebreakServerIndifferent | internal/algorithms/markov.go:295-339 | at every even point total the tie-break value does not depend on who serves next |
| MarkovSymmetry.TiebreakSwap | internal/algorithms/markov.go:295-339 | exchanging the players turns a tie-break value into its complement |
| MarkovSymmetry.TiebreakLevelIsHalf | internal/algorithms/markov.go:279-339 | at every level score, seven all and beyond included, the tie-break value is exactly one half |
| MarkovSymmetry.SetServerIndifferent | internal/algorithms/markov.go:239-274 | at every even game total the set value does not depend on who serves |
| MarkovSymmetry.SetValueSwap | internal/algorithms/markov.go:239-274 | exchanging the players turns a set value into its complement |
| MarkovSymmetry.LevelSetIsHalf | internal/algorithms/markov.go:239-274 | a level set, a fresh one in particular, is worth exactly one half to either server |
| MarkovSymmetry.SevenSixPlaysOn | internal/algorithms/markov.go:240-249 | at seven games to six the set is still open, unlike what the comment on set ends says |
| MarkovSymmetry.MatchLayer | internal/algorithms/markov.go:106-125 | the match layer is exactly 1/2, 1/2, 3/4 and 1/4 at 0-0, 1-1, 1-0 and 0-1 in sets, for every serve probability |
| MarkovSymmetry.GameSwap | internal/algorithms/markov.go:160-190 | exchanging the players turns a game value into its complement, deuce and advantage included |
| MarkovSymmetry.WinProbabilitySwap | internal/algorithms/markov.go:83-102 | the two players' win probabilities add to one exactly when the score does not give both the match |
| MarkovSymmetry.FairValueSwap | internal/algorithms/markov.go:379-396 | one minus the home fair value is the away player's own fair value, through the clamp, for match and set |
| MarkovMonotone.GameOneStep | internal/algorithms/markov.go:160-190 | every unfinished game score satisfies the one-step equation, closed forms included |
| MarkovMonotone.GameUnit | internal/algorithms/markov.go:160-190 | game values lie in [0,1] |
| MarkovMonotone.GameOrder | internal/algorithms/markov.go:160-190 | a game value lies between those after losing and after winning the next point |
| MarkovMonotone.GameMonotone | internal/algorithms/markov.go:160-190 | game values never fall as the point probability rises |
| MarkovMonotone.TiebreakPoint | internal/algorithms/markov.go:295-339 | a tie-break point moves the value towards its winner, with the serve moving on |
| MarkovMonotone.SetOrder | internal/algorithms/markov.go:239-274 | winning a game is at least as good for the set as losing it |
| MarkovMonotone.WinProbabilityUnit | internal/algorithms/markov.go:83-102 | game, set and match answers lie in [0,1] |
| MarkovMonotone.BetterGameBetterMatch | internal/algorithms/markov.go:83-125 | a better current game is never a worse match |
| MarkovMonotone.PointNeverHurts | internal/algorithms/markov.go:83-102 | a point that does not end the game never lowers its winner's win probability |
| MarkovMonotone.TiebreakPointNeverHurts | internal/algorithms/markov.go:83-102 | the same in a tie-break, for either player |
| MarkovOnCourt.OnePoint | internal/algorithms/markov.go:130-190 | at every score of every match, games and tie-breaks alike, the value of the game at hand is the mean of its values after either outcome of the next point by the rules of tennis, its end and the rules' serving order included |
| MarkovOnCourt.PointTexts | internal/algorithms/markov.go:350-365 | the five point texts stand for no to four points and any other text for none |
| MarkovOnCourt.PointOnCourt | internal/algorithms/markov.go:75-102 | the same on court, for every point of a match played by the rules of tennis that does not end its game |
| GamePoints.FreshGame | internal/algorithms/markov.go:160-190 | a fresh game's value in closed form, through the value at deuce |
| GamePoints.GameBoost | internal/algorithms/markov.go:160-190 | a player who wins points at least half the time wins a game with no less than the point probability, the other with no more |
| GamePoints.BetweenEnds | internal/algorithms/markov.go:83-102 | any score is worth its game's value between the values carried for winning and for losing the game |
| GamePoints.CarriedStep | internal/algorithms/markov.go:239-274 | at the start of a game the carried value is the mean of those for its two ends, weighed as one point of its server, the serve changing hands; at six games all, as the tie-break |
| GamePoints.StartValue | internal/algorithms/markov.go:201-234 | at the start of a game the answer is the carried value plus a shift, because only the game at hand is won with the game recursion |
| GamePoints.GamePoint | internal/algorithms/markov.go:256-259 | for every point that ends a game but not the match, exactly how much its winner gains, and the winner's probability is not lowered if and only if the shift costs no more than losing the game would have |
| GamePoints.GamePointNeverHurts | internal/algorithms/markov.go:83-102 | with a serve probability of at least one half, a match-winning point, or a game after which its winner serves, never lowers the winner's chances; at exactly one half no game does |
| GamePoints.HoldHurts | internal/algorithms/markov.go:256-259 | at the default 0.64, holding from 40-0 at five games all lowers the holder's win probability |
| PointFlags.MatchTracker.constructor | internal/algorithms/setpoint.go:221-225 | a new match state counts nothing |
| PointFlags.MatchTracker.UpdateMatchState | internal/algorithms/setpoint.go:218-244 | the counters after a row: a new set credits the leader of the last row, or its scorer if level |
| PointFlags.MatchTracker.OnPoint | internal/algorithms/setpoint.go:213-262 | counts the row first, then detects at the new count, unless the row was seen before |
| PointFlagTheorems.TbPointValueDecimal | internal/algorithms/markov.go:369-375 | tie-break text is read back exactly while it fits 64 bits |
| PointFlagTheorems.TbPointValueSigned | internal/algorithms/markov.go:369-375 | signs are read |
| PointFlagTheorems.TbPointValueTooBig | internal/algorithms/markov.go:369-375 | a number beyond 64 bits counts as zero |
| PointFlagTheorems.TbPointValueNoNumber | internal/algorithms/markov.go:369-375 | any other text counts as zero |
| PointFlagTheorems.CanWinGameExact | internal/algorithms/matchpoint.go:303-319 | outside tie-breaks it holds exactly when the player's next point wins the game |
| PointFlagTheorems.SetPointExact | internal/algorithms/setpoint.go:412-499 | at every score in play the signal is present exactly when the next point can end the set (the match, if set points are excluded), names that player and context, and marks match points rightly |
| PointFlagTheorems.FlagsExactOutsideTiebreak | internal/algorithms/pointclass.go:23-64 | set, match and break point flags, and the match-point detector, agree with the rules outside tie-breaks |
| PointFlagTheorems.ClassifyTiebreak | internal/algorithms/pointclass.go:26-39 | in a tie-break no set or match point is flagged and a break point exactly when the returner has 40 points and the server does not |
| PointFlagTheorems.Silent | internal/algorithms/matchpoint.go:253-262 | the match-point detector is silent in tie-breaks, and all detectors once a player has two sets |
| PointFlagTheorems.CounterStep | internal/algorithms/matchpoint.go:125-150 | fed rows showing the score before each point, the counter holds the true set score |
| PointFlagTheorems.CounterStepShown | internal/algorithms/matchpoint.go:125-150 | the same when rows show the games after their point |
| PointFlagTheorems.RowExact | internal/algorithms/setpoint.go:213-244 | the n-th row of a match takes the counter to that row's true set score, at which detection is exact |
| RowDeliveries.CountsExactly | internal/algorithms/setpoint.go:213-244 | for rows of a match delivered in any order, late, again or not at all, the counter is the true set score of the latest row at every delivery if and only if each delivery with a higher set number than the one before it is the first of the next set and the one before it speaks for the winner of the set that is over |
| RowDeliveries.SteadyProper | internal/algorithms/setpoint.go:218-244 | rows that come in order, each any number of times in a row, meet that condition |
| RowDeliveries.KeysGrow | internal/algorithms/setpoint.go:247-257 | rows of a match have keys that grow, so the filter drops exactly the rows that came before |
| RowDeliveries.Watch | internal/algorithms/setpoint.go:213-262 | the tracker, fed any deliveries, gives no signal for a row that came before and, while all deliveries meet that condition, the exact signal for every new row of the set being played |
| RowDeliveries.OldRowAgain | internal/algorithms/setpoint.go:213-216 | the first row coming again in the second set makes the counter credit the set twice and the match point go unsignalled |
| RowDeliveries.PolledRows | internal/kalshilivedata/poller.go:321-345 | rows without point number and scorer share one key per game, and after a tie-break speak for nobody |
| Resolver.MatchOldest | internal/backtest/resolve.go:62-86 | the inner loop computes the recursive match of one sell: rows, queue and P&L |
| Resolver.ResolveOrdersWithSells | internal/backtest/resolve.go:28-141 | the loops compute the fold of the raw orders over rows and queues, for any sizes and prices |
| ResolverRows.OneOrder | internal/backtest/resolve.go:42-138 | every order leaves no trace (unresolved market, price under the filter, sell with nothing open) or one row of its own, the last, with its fields; a buy's is its settlement, which for a NO buy pays on no, a sell's is won exactly if it earns something |
| ResolverRows.EarlierRows | internal/backtest/resolve.go:75-78 | to earlier rows it does nothing but wipe some: no P&L, not won, context marked |
| ResolverRows.HedgeSettles | internal/backtest/resolve.go:113-124 | a YES and a NO buy of one size at prices that add to a dollar settle to exactly nothing; the YES buy is won on yes, the NO buy on no |
| ResolverRows.NoBuyWins | internal/backtest/resolve.go:113-124 | ten NO contracts at 40 cents on a market resolved to no: six dollars, won |
| ResolverRows.LastRowDecides | internal/backtest/resolve.go:29-32 | a market's result is the one in its last row |
| ResolverFifo.MatchIsDrop | internal/backtest/resolve.go:64-85 | one sell takes its size or what is open off the front of the queue and earns its price on them less what exactly those contracts cost |
| ResolverFifo.FifoQueue | internal/backtest/resolve.go:42-138 | after any orders of positive size each market's queue is its stream of bought contracts without the ones taken |
| ResolverFifo.SellRow | internal/backtest/resolve.go:56-102 | a sell's row carries its price on the contracts it took less the cost of exactly that slice of the stream; with nothing open it leaves no row |
| ResolverPnl.MatchConserves | internal/backtest/resolve.go:64-85 | a match moves money only between the buys' rows and the sell |
| ResolverPnl.ResolverConservation | internal/backtest/resolve.go:28-141 | total P&L is sells' proceeds less the cost of what they matched plus settlement of untouched buys; a buy's row is zero exactly when touched, and its open part is what the queue holds |
| ResolverPnl.TakenIsMin | internal/backtest/resolve.go:64-73 | a sell takes the lesser of its size and the open total |
| ResolverPnl.CashIdentity | internal/backtest/resolve.go:28-141 | for any sizes and prices, total P&L is cash in less cash out, what is held at settlement paid, plus cost less payout of the open parts of partly matched buys; so exactly the cash flow if no buy ends partly matched |
| CashFlow.RowsVersusCash | internal/backtest/resolve.go:75-84 | settlement of untouched lots less the cost of what was sold is payout less cost plus what a cut lot strands |
| CashFlow.StrandedNone | internal/backtest/resolve.go:75-84 | nothing is stranded exactly when the stream is cut between two lots |
| CashFlow.StrandedAt | internal/backtest/resolve.go:75-84 | at most one lot is cut, and it alone is stranded |
| ResolverCash.AllBooked | internal/backtest/resolve.go:42-138 | after any orders of positive size each lot's row is zero once any of it is sold and its settlement until then, and a market's rows add up to its proceeds less the cost of what was sold plus those settlements |
| ResolverCash.MarketIdentity | internal/backtest/resolve.go:28-141 | each market's rows add up to its cash flow, kept from the orders alone, plus what a cut lot strands |
| ResolverCash.MarketCashExactly | internal/backtest/resolve.go:75-84 | for prices between nothing and a dollar, a market's rows add up to its cash flow if and only if its sells end between two lots |
| ResolverCash.CutLotDecides | internal/backtest/resolve.go:75-84 | if a lot is cut, rows fall short of cash if it wins and exceed it if it loses |
| ResolverCash.SoldInPart | internal/backtest/resolve.go:75-78 | ten contracts at 40 cents, one sold at 50: rows hold ten cents, cash is 5.50 or -3.50 |
| RoundTrips.RoundTripCash | internal/backtest/resolve.go:54-137 | without a price filter, if a market's orders are round trips of equal size, its rows add up to exactly price times size of sells less buys, plus a dollar per contract of an open buy that wins; an unresolved market has neither rows nor cash |
| RoundTrips.RoundTripsCash | internal/backtest/resolve.go:54-137 | the same, still without a price filter, for any markets together |
| ResolverPnl.BuyOnlySettles | internal/backtest/resolve.go:17-18 | without sells the output is per-order settlement |
| ResolverIsolation.MarketsDoNotInterfere | internal/backtest/resolve.go:28-141 | the rows of any set of markets are those of resolving only their orders |
| ResolverIsolation.OneListOrMany | internal/backtest/replay.go:154-159 | resolving all matches in one list gives each match the rows it gets alone, if later matches do not reuse its tickers |
| Summary.Totals | internal/backtest/resolve.go:150-162 | wins are the rows won, wins and losses make up all rows, and payout, net P&L, invested, edge, size and price are their sums |
| Summary.Variance | internal/backtest/resolve.go:177-178 | squared deviations from the mean are the sum of squares less the mean times the total |
| Summary.Risk | internal/backtest/resolve.go:174-193 | both deviation sums, gross win as the sum of gains, gross win less gross loss as net P&L, and the drawdown as the largest fall of the running total, attained |
| Summary.ComputeSummary | internal/backtest/resolve.go:144-208 | counts, sums, averages, win rate, return, variance and profit factor, each tied to the rows; all zero for no rows |
| Summary.SettledTotals | internal/backtest/resolve.go:150-162 | for buys held to settlement payout less what was invested is the net P&L |
| Summary.GainsAreWinners | internal/backtest/resolve.go:179-184 | gross win is the net P&L of the rows that earned something |
| Summary.TwoRows | internal/backtest/resolve.go:150-162 | the sums over two rows spelled out |
| Replay.Engine.CachedMarketOrder | internal/backtest/engine.go:396-403 | returns what would be computed afresh and keeps the cache right |
| Replay.Engine.BuildEvents | internal/backtest/replay.go:32-50 | if the library sorts by time, the events hold each tick of the home and of the away market once under its own ticker, each point of the match once, and nothing else, in time order |
| Replay.Engine.CachedEvents | internal/backtest/engine.go:407-414 | returns what would be built afresh and keeps the cache right |
| Replay.Engine.Consult | internal/backtest/replay.go:99-107 | one callback of one strategy, each of whose queries to a memoising model may depend on the answers so far: as if answered by the plain recursions |
| Replay.Engine.ReplayInterleaved | internal/backtest/replay.go:95-108 | feeds one strategy every event in order, over any valid model |
| ReplayTrace.ReplayHears | internal/backtest/replay.go:95-108 | any strategy given a tape of its calls emits the same orders, and the tape shows it registered for its match, then told each tick of both markets once and, if it observes scores, each point once, nothing else, in time order and with the replay time set |
| ReplayTrace.HearsAnswers | internal/algorithms/setpoint.go:321-326 | a callback's queries are answered one by one, each asked in the light of the answers before it, until it has no more |
| Replay.Engine.RunStrategy | internal/backtest/engine.go:204-242 | the strategy's resolved orders over the matches, those of the close-time replay after them, and the match count, from any valid caches and any valid model |
| ReplayTrace.OneMatch | internal/backtest/engine.go:216-226 | the orders of a match are those the strategy emitted there, in order, resolved against its rows |
| ReplayTrace.OrdersInOrder | internal/backtest/engine.go:226 | orders come in the order of the matches |
| ReplayTrace.MatchesCounted | internal/backtest/engine.go:211-217 | the match count is the number of matches with two markets, and the close-time count that of those also finalized with a close time |
| Replay.Engine.RunCloseTimeBacktest | internal/backtest/replay.go:112-160 | a close-time strategy's one instance taken through every finalized match, its orders resolved in one list; nothing for the others |
| ReplayTrace.CloseReplayHears | internal/backtest/replay.go:120-151 | a close-time replay registers each such match's close time and markets, quotes the home and then the away ticks, and unregisters |
| ReplayTrace.AllRowsCollected | internal/backtest/replay.go:154-158 | and is resolved against the rows of all matches |
| Replay.Engine.RunCloseTimeBacktestBroadcast | internal/backtest/replay.go:165-245 | all close-time strategies in one pass: each gets the orders it gets alone and the number of finalized matches |
| Replay.Engine.Advance | internal/backtest/engine.go:367-377 | one action of a match's goroutine (a query, a callback, the next event) keeps every strategy where it would be alone |
| Replay.Engine.RunTickBroadcastForMatch | internal/backtest/engine.go:340-392 | from any point on, with events broadcast to all strategies over a shared model, each gets the orders it gets alone, and the engine is not modified |
| Replay.Engine.TakeTurns | internal/backtest/engine.go:293-302 | goroutines of all matches, each visiting the factories in an order of its own, taking turns in any order over one shared model stay on track |
| Replay.Engine.BroadcastMatches | internal/backtest/engine.go:293-302 | whatever the interleaving, every match's result is in its place and what each strategy gets alone |
| Replay.Engine.Merge | internal/backtest/engine.go:304-314 | per strategy, orders in match order and the number of matches |
| Replay.Engine.RunTickBroadcast | internal/backtest/engine.go:270-318 | every strategy without the close-time interface gets the orders and match count that its tick replay alone gives, though all of them share one memoising model |
| Replay.Engine.RunAll | internal/backtest/engine.go:249-334 | the tick broadcast for those strategies and the close-time broadcast for the others |
| Replay.Engine.AgreeExactly | internal/backtest/engine.go:232-242 | running a strategy alone and in the broadcast agree if and only if it has no close-time interface, or its tick replay gives no order and every match with two markets is finalized with a close time |
| Replay.Engine.OpenMatchDiffers | internal/backtest/engine.go:211-217 | for a close-time strategy a match that is not finalized counts as one match alone and as none in the broadcast |
| Replay.Engine.BroadcastAgrees | internal/backtest/factories.go:11-16 | the broadcast over a model that all strategies of all matches share equals single runs with a fresh model each, exactly for the strategies just described |
| Positions.Manager.ApplyBuy | internal/positions/manager.go:62-133 | the row after a buy, its errors, and every other row unchanged |
| Positions.Manager.ApplyBuyNO | internal/positions/manager.go:138-155 | a buy that also labels the row, or an error and no change |
| Positions.Manager.ApplySell | internal/positions/manager.go:163-228 | the row, remaining contracts and cents after a sell, the cents being its exact result with half a cent added and the fraction dropped and the change of what is booked; its errors, other rows unchanged |
| Positions.WholeCents | internal/positions/manager.go:206 | a whole number of cents gained is booked as it is, one lost as a cent less, and nothing else |
| PositionRuns.SellBooks | internal/positions/manager.go:206-214 | so of a sell with a whole result |
| PositionRuns.FiveCentsLost | internal/positions/manager.go:206 | five cents lost are booked as four |
| Money.Truncates | internal/positions/manager.go:206 | conversion to an integer is the one number no further from zero, by less than one, on the same side |
| PositionRuns.BuyRefused | internal/positions/manager.go:67-74 | when a buy is refused, and why |
| PositionRuns.SellRefused | internal/positions/manager.go:169-203 | when a sell is refused, and why |
| Positions.Manager.Settle | internal/positions/manager.go:236-290 | the settled row and its settlement cents, a dollar less the average entry per open contract if the market went the position's way, which for a NO position is to no, else the average entry lost; nothing for a missing or settled row |
| PositionRuns.SettleBooks | internal/positions/manager.go:258-276 | the same of the row |
| Positions.Manager.SettleMarket | internal/store/lifecycle.go:26-58 | settles exactly the market's open rows |
| PositionRuns.RoundingError | internal/positions/manager.go:206 | truncating x + 0.5 errs by more than -0.5 and less than 1.5, and by at most 0.5 for gains |
| PositionRuns.PositionStateMachine | internal/positions/manager.go:62-290 | in every run sold never exceeds bought, averages stay in [0,1], bought times average entry is the clamped cost, an unsettled row is closed exactly when sold equals bought, it settles at most once, and its times are those of the first buy and of what closed it |
| PositionRuns.SettledIsFinal | internal/positions/manager.go:254-256 | after settlement nothing but the action label can change, whatever follows |
| PositionRuns.PositionAccounting | internal/positions/manager.go:205-214 | for a flat position with no buy after a sell, booked cents are the cash paid and received plus what clamping the prices hides, up to half a cent down per operation and a cent and a half per sell plus half a cent up |
| PositionRuns.NothingHidden | internal/positions/manager.go:70-79 | without accepted sells above a dollar the clamp never hides a gain, and hides nothing if and only if every accepted price is a fraction of a dollar |
| PositionRuns.ProperAccounting | internal/positions/manager.go:205-214 | at such prices booked cents are the cash flow within those bounds |
| PositionRuns.PaidAboveADollar | internal/positions/manager.go:70-79 | ten contracts bought at 1.02 and lost: ten dollars booked, 10.20 gone |
| PositionRuns.PositionDrift | internal/positions/manager.go:115-120 | in every run booked cents are cash, plus what clamping hides, plus cost less the averages charged, within the same bounds |
| PositionRuns.RebuyExample | internal/positions/manager.go:115-124 | buying again after a sale makes booked P&L differ from cash |
| PositionRuns.LabelCommutes | internal/positions/manager.go:148-153 | the label of a NO buy, written in a transaction of its own, may come before or after any buy or sell |
| PositionRuns.LabelRace | internal/positions/manager.go:148-153 | it may come after a settlement without changing the outcome exactly when the row is settled or labelled already, nothing is open, or the open part rounds to no cents either way |
| PositionRuns.SettledBeforeLabel | internal/positions/manager.go:138-155 | a settlement between the two turns a gain of six dollars into a loss of four |
| PositionRuns.Drive | internal/positions/manager.go:40-43 | a manager driven by operations takes its row through those states and leaves the others alone |
| Kelly.KellySize | internal/algorithms/kelly.go:36-46 | sizes are non-negative and an order costs at most five dollars |
| Kelly.KellyExactly | internal/algorithms/kelly.go:25-46 | a size is nothing exactly without an edge, a bankroll, a fraction or a proper price; else it costs five dollars or, if less, times the payoff it is the fraction of the bankroll times the edge |
| BuyTheDip.BuyTheDipStrategy.UnregisterMarkets | internal/algorithms/buythedip.go:129-141 | forgets prices and positions of exactly the event's markets |
| DipRuns.BlockedSellsOnly | internal/algorithms/buythedip.go:190-195 | while its event is at a set or match point a market is offered no buy, and its exits are as at any other time |
| Registry.EventForMarket | internal/algorithms/buythedip.go:405-414 | an event listing the market, whichever the iteration meets first, or none if there is none |
| BuyTheDip.BuyTheDipStrategy.TrimSamples | internal/algorithms/buythedip.go:150-158 | drops exactly the samples at the front that are older than the window |
| BuyTheDip.BuyTheDipStrategy.OnPriceAt | internal/algorithms/buythedip.go:147-171 | the order offered and the whole new state, exit before entry; the samples kept are the old ones and the new one without those at the front older than the window |
| DipWindow.WindowExactly | internal/algorithms/buythedip.go:150-158 | over every run in which a market's times never go back, exactly its prices within the window are remembered |
| DipWindow.DipFromEarliest | internal/algorithms/buythedip.go:200-215 | an accepted buy's dip is the earliest price within the window less its own |
| DipWindow.EntryExactly | internal/algorithms/buythedip.go:174-260 | exactly when a buy is offered, and its price, edge and size |
| DipWindow.ThresholdExactly | internal/algorithms/buythedip.go:205-212 | a threshold of whole cents is reached exactly by a drop of that much |
| DipWindow.ExitExactly | internal/algorithms/buythedip.go:291-345 | exactly when a held position is offered for sale, and its price, edge and size |
| BuyTheDip.BuyTheDipStrategy.CheckEntry | internal/algorithms/buythedip.go:174-288 | the buy a dip calls for; a position exactly if it is accepted |
| BuyTheDip.BuyTheDipStrategy.CheckExit | internal/algorithms/buythedip.go:291-373 | the sell an exit calls for; the position is kept if it is refused |
| DipRuns.RunRoundTrips | internal/algorithms/buythedip.go:147-373 | in every run of calls, registering and unregistering included, on every market that never loses a position and whatever the other markets do, accepted orders alternate buy and sell with equal sizes, and the position is the open buy |
| DipRuns.TracksExactly | internal/algorithms/buythedip.go:129-141 | throughout a run that holds if and only if no exit on that market finds it unregistered and its event is never unregistered while a position is held |
| DipRuns.LostByExit | internal/algorithms/buythedip.go:315-323 | calls by which an exit on a market gone from its event makes the strategy buy twice in a row |
| DipRuns.LostByUnregistering | internal/algorithms/buythedip.go:129-141 | calls by which unregistering and registering again does the same |
| DipRuns.BuysTwice | internal/algorithms/buythedip.go:147-171 | both made on the object itself |
| DipRuns.Drive | internal/algorithms/buythedip.go:123-171 | the object taken through any calls makes a run of them in which every lookup finds what the registry holds, and emits what the run accepts |
| DipRuns.EveryRoundTrip | internal/algorithms/buythedip.go:291-309 | each round trip's result per contract lies between minus the stop loss and the take-profit share of the dip |
| DipRuns.SaneBand | internal/algorithms/buythedip.go:55-68 | non-negative take-profit and stop loss and a positive threshold keep every round trip in the band |
| DipRuns.DipRunCash | internal/backtest/resolve.go:54-137 | without a price filter the resolver's rows for any markets that never lose a position add up to the accepted orders' own cash flow: sells less buys, plus a dollar per contract of open buys that win, and nothing on unresolved markets |
| BookPressure.BookPressureStrategy.BookAtTime | internal/algorithms/bookpressure.go:162-174 | the binary search loop computes the recursive search, on any series |
| BookPressure.PressureMeaning | internal/algorithms/bookpressure.go:196-209 | pressure times the total size is bids less asks; it is positive when bids outweigh asks, within one either way, and absent exactly for a missing, thin or empty book |
| BookPressure.BookPressureStrategy.OnPriceAt | internal/algorithms/bookpressure.go:180-407 | the order offered and the whole new state |
| PressureRules.EntryExactly | internal/algorithms/bookpressure.go:219-290 | exactly when a buy is offered, read off price, time and the sizes of the last book tick, and its price, edge, target and size |
| PressureRules.ExitExactly | internal/algorithms/bookpressure.go:311-400 | exactly when a held position is offered for sale, the reversal of the book included, its price, edge and size, and the cooldown it starts |
| BookPressure.BookPressureStrategy.UnregisterMarkets | internal/algorithms/bookpressure.go:138-150 | forgets prices, books, positions and cooldowns of exactly the event's markets |
| PressureRuns.BlockedSellsOnly | internal/algorithms/bookpressure.go:230-234 | while its event is at a set or match point a market is offered no buy, and its exits are as at any other time |
| NoLookAhead.BookAtIsLast | internal/algorithms/bookpressure.go:160-174 | on a sorted series the lookup is the last tick at or before the query time |
| NoLookAhead.NoLookAhead | internal/algorithms/bookpressure.go:180-407 | runs over books that agree up to a time offer the same orders at every event up to it, whatever comes later |
| PressureRuns.PressureRoundTrips | internal/algorithms/bookpressure.go:180-407 | in every run of calls, on every market that never loses a position, accepted orders alternate buy and sell with equal sizes, each sell between stop loss and take-profit whatever its reason, and the position is the open buy |
| PressureRuns.TracksExactly | internal/algorithms/bookpressure.go:351-359 | throughout a run that holds if and only if no exit on that market finds it unregistered and its event is never unregistered while a position is held |
| PressureRuns.CooldownsExactly | internal/algorithms/bookpressure.go:236-240 | on such a market every buy comes a cooldown after the sell before it, if that was stamped later than zero, and the cooldown runs from that sell, throughout a run if and only if its event is never unregistered during a cooldown |
| PressureRuns.BuysTwice | internal/algorithms/bookpressure.go:138-150 | calls by which unregistering makes the strategy buy twice in a row |
| PressureRuns.Drive | internal/algorithms/bookpressure.go:132-193 | the object taken through any calls makes a run of them and emits what the run accepts |
| PressureRuns.PressureRunCash | internal/backtest/resolve.go:54-137 | without a price filter the resolver's rows for such markets add up to the accepted orders' cash flow, which is nothing on unresolved markets |
| Scheduler.PendingOwned | internal/scheduler/scheduler.go:218-252 | in every interleaving each entry is owned by a waiter for its market and time that has yet to update the map; with all waiters finished the map is empty |
| Scheduler.InsertsAreNew | internal/scheduler/scheduler.go:161-191 | a pass never overwrites an entry |
| Scheduler.PassEnds | internal/scheduler/scheduler.go:161-191 | when a pass is done with a market, in any interleaving, a due market has no entry and any other one for the time the pass came with, unless its waiter cleared it meanwhile; other markets are untouched |
| Scheduler.StaleGoes | internal/scheduler/scheduler.go:161-191 | a stale entry, or any entry of a due market, has its waiter cancelled and then goes |
| Scheduler.DuePass | internal/scheduler/scheduler.go:161-191 | a pass over a due market cancels its waiter and deletes its entry |
| Scheduler.SamePass | internal/scheduler/scheduler.go:161-191 | a pass over a market whose time has not changed changes nothing |
| Scheduler.UpdateExactly | internal/scheduler/scheduler.go:230-252 | when a waiter updates the map and what that deletes |
| Scheduler.OwnerClears | internal/scheduler/scheduler.go:230-252 | a waiter's own update leaves no entry of its own, by either path |
| Scheduler.Drain | internal/scheduler/scheduler.go:230-252 | from every reachable state the waiters' steps alone can empty the map |
| Scheduler.ExclusiveStep | internal/scheduler/scheduler.go:236-252 | every wanted waiter keeps its slot across a step exactly when the step does not delete a successor's entry |
| Scheduler.ExclusiveRuns | internal/scheduler/scheduler.go:161-252 | throughout a run every wanted waiter holds its slot if and only if no step deletes a successor's entry |
| Scheduler.TimerRace | internal/scheduler/scheduler.go:246-252 | a timer firing just before a reschedule makes the old waiter delete the new entry |
| Scheduler.MovedBack | internal/scheduler/scheduler.go:238-243 | a start time moved away and back does the same through the cancel path |
| Quota.QuotaGuard.constructor | internal/algorithms/quota.go:57-99 | nothing spent, no cooldowns, a full bucket |
| QuotaRuns.TokensBounded | internal/algorithms/quota.go:81-95 | in every run the bucket never holds more than its limit |
| Quota.QuotaGuard.ChargeBudget | internal/algorithms/quota.go:139-167 | charges in full, or rolls back and charges what is left, or refuses |
| QuotaRuns.RateHolds | internal/algorithms/quota.go:170-180 | over any stretch of any run, forwarded orders number at most a full bucket plus the stretch's refills |
| Quota.QuotaGuard.Approve | internal/algorithms/quota.go:110-180 | the verdict and the whole new state |
| Quota.QuotaGuard.EmitOrder | internal/algorithms/quota.go:101-193 | every order goes to the paper trail; the inner emitter gets the approved ones, rescaled |
| QuotaRuns.EmitExactly | internal/algorithms/quota.go:101-193 | every call case by case: cooldowns, budget, bucket; an order that passes is forwarded whole if the budget has room and else at exactly what remains, and that much is booked |
| QuotaRuns.BucketFills | internal/algorithms/quota.go:72-95 | the bucket starts full and each tick refills a token until it is full again |
| QuotaRuns.BudgetHolds | internal/algorithms/quota.go:139-167 | in every run forwarded cents are at most what is booked as spent, which never exceeds the budget above the floor |
| QuotaRuns.CooldownHolds | internal/algorithms/quota.go:110-137 | forwarded orders on one market are at least a cooldown apart |
| QuotaRuns.StrategyCheckRedundant | internal/algorithms/quota.go:123-134 | the per-strategy check never refuses what the per-market check let through if and only if no two markets share a key |
| QuotaRuns.SharedKey | internal/algorithms/quota.go:124 | two orders on different markets that share a key |
| QuotaRuns.NoBarUnambiguous | internal/algorithms/quota.go:124 | market tickers without a bar share no key |
| QuotaRuns.Drive | internal/algorithms/quota.go:101-193 | a guard taken through any events goes through the run's states and forwards what the run logs |

## Left out

- Floating-point rounding in probabilities, prices and P&L: the model is exact.
- 64-bit overflow of cents and of tie-break counts beyond the stated bound.
- Summary.ComputeSummary: gives the squares of the two deviations; their square roots, and the Sharpe and Sortino ratios over them, are left out.
- Replay.Engine.RunStrategy: leaves out the summary, which `Summary.ComputeSummary` computes from the orders alone.
- Ordering markets by event title and the sort by timestamp: parameters of `Replay.Engine`; only that they are functions is used.
- Liquidity pool and real order sizing, submission, refund and retry: a guarded subtraction and a clamp, or code that is not part of this model.
- Overlapping `QuotaGuard.EmitOrder` calls: add, rollback and rescale are not one atomic action, so the budget bound is for calls one after the other.
- Database rows as such, logging, payload text beyond entry price and dip size, order contexts of the book-pressure strategy beyond the reason.
- Filters, cooldown and pricing in the set-point and match-point strategies' `processPoint`: threshold checks after the detection that is modelled.
- Rows of the API-Tennis scraper, which show a game's final games and take the tie-break flag and the scorer from the game: the flags are not claimed for them.
- Tracking calls of the scheduler, and its skipping of markets already tracked: they do not touch the pending map.
- Other strategies: they repeat the two lifecycles modelled here or fire once on a threshold.
- PositionRuns.PositionAccounting: assumes no buy after a sell, because the average entry price then no longer is the cost of the contracts that left; `PositionRuns.PositionDrift` states the gap.
