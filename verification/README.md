# SharipovAI paper trading: a verified model

This project models the parts of the SharipovAI repository that decide money and authority, and proves
what they keep over every input and every run:

- the crash-recoverable, single-use PAPER execution protocol and the account book it drives
  (`Ledger`, `Protocol`, `ProtocolSafety`, `ProtocolWindow`, `ProtocolDuplicate`, `TickSpec`, `TickLaws`, `CouncilLoop`,
  `MarkToMarket`, `Execution`, `ExecutionLaws`);
- decision synthesis: weighted votes, quality thresholds and mandatory gates (`Controller`, `Evaluation`,
  `ControllerLaws`);
- the leverage-free capital allocator (`CapitalAllocation`, `AllocationLaws`);
- learning state: reputations, consensus, their persistence, bounded reputation and calibration snapshots
  (`MetaAI`, `ReputationLaws`, `Consensus`, `ConsensusLaws`, `MetaPayload`, `MetaPersistence`, `MetaReputation`, `MetaIdempotence`, `MetaFailures`,
  `MetaNames`, `PersistentMetaAI`,
  `LearningReputation`, `LearningCalibration`);
- small algorithm cores: drawdown loops, the sliding-window rate limiter, the two-file state store
  (`Drawdown`, `RateLimiter`, `StateFile`).

`Common`, `Rounding`, `Sums` and `Text` hold shared definitions, arithmetic and strings. `dafny verify dfyconfig.toml` checks everything.

## How the protocol is modelled

`Protocol` is a state machine over one versioned store and any number of loop processes. A store write
returns, raises without effect, or takes effect and raises all the same; compare-and-set refuses a stale
version. A crash erases a process's memory at any point. One step is the local work up to and including one
store operation, so interleavings of processes, crashes and failed writes are all runs of the machine.
A process follows its tick: recovery of the authorized and then of the protective intents, then one visit of each
symbol in order, a protective exit first and the entry or authorized exit after it. A raise while an entry is staged
or applied leaves the tick; a raise inside an exit, and a refused or raising execution, load the durable document;
a load that fails leaves memory as it was. A process that has just started recovers and may go on to trade at once.

`CouncilLoop.PaperLoop` is the loop object with its fields updated in place. Each of its methods, up to a whole tick,
appends to a trail of steps and is proved to leave the object in the state that the trail leads to, so the results
about runs are results about calls. `CouncilLoop.Live` is a whole life of it: loading, recovery, and tick after tick.
`TickSpec` says what recovery, each visit and a tick do to the account when memory is as stored and every write returns;
the object's methods are proved to do exactly that then, and `TickLaws` says when that is a trade.

Amounts are `real` where the program uses Decimal or float. Digest ids are injective, so an intent is named by
what is hashed. Rounding of stored figures is modelled where it matters (`Rounding`).

## What turned out false, and when it holds

The conditions below are exact, except where one is called sufficient.

- The bounded duplicate check. The newest-500-trades check does not answer as the full history would in every
  reachable state, however small the number of symbols. A completion write that raises leaves its executed intent in
  the store but not in memory. When in the same tick the exit of another position fails in its preflight, the loop
  loads the durable document and the intent is pending again, while a second symbol is bought and sold in alternate
  ticks. If that goes on, the intent's trade leaves the list, and once the first position is closed recovery executes
  the intent a second time (`ProtocolDuplicate.FiveHundredIsNotAlwaysEnough`). Let f bound the faults that any one
  intent meets: completion writes without effect while it is pending, and one ambiguous execution write. The faults of
  a run as a whole are not limited. For whole runs a sufficient bound is proved: single execution holds while
  m + f (m + 1) stays below the window for one process on m symbols, 3 m + 1 + f (2 m + 1) for two
  (`ProtocolWindow.SingleExecution`, `ProtocolWindow.BoundIs`). The duplicating run gives its one unlucky intent no more
  faults than the list has trades, and no other intent any. So for one process on two symbols f with 2 + 3 f below the
  window is safe, f equal to the window is not, and the greatest safe f between them is left open. For a single
  execution the condition is exact: it duplicates if and only if a trade of its intent has left the list
  (`ProtocolWindow.DuplicateIffForgotten`).
- The correlation cap of the allocator holds for exactly those requests that name their group, or no symbol
  (`CapitalAllocation.GroupCapIffNamed`).
- Recovery sizing. With an affordable floor within the market maximum, the quantity and notional filters let the entry
  through, under any cost model, if and only if the floor is a whole number of lots or the budget itself buys a whole
  number of lots from the minimum on (`Execution.RecoveryIff`); the floor is off the lot grid only when it is an
  unaligned minimum quantity. Sizing in general passes exactly when a whole number of lots fits (`Execution.SizedIff`).
- BUY/SELL symmetry of the controller holds exactly when the margin is positive or the score threshold exceeds
  one half; end to end also when the agreement threshold exceeds 50 (`Controller.SymmetryIff`,
  `Evaluation.EndToEndSymmetryIff`).
- A trade needs a news voice exactly when the quality or the agreement threshold is positive
  (`Evaluation.NewsIff`). Votes of no weight, which the controller ignores, enter the quality measurement: equal counted
  votes give the same outcome on every input if and only if both thresholds are zero (`Evaluation.VoicesDecideIff`).
  Otherwise a mute news vote unlocks a trade (`Evaluation.MuteNewsUnlocksTrade`) or mute votes of no quality stop one
  (`Evaluation.DullVotesStopTrade`).
- Consensus depends on the iteration order of a set exactly when the agreement threshold is at most one half and
  some opinion can be eligible (`Consensus.OrderFreeIff`).
- Writing and reading back the reputations is the identity, up to the history limit, exactly when agents and retained
  ids are stripped and not blank and retained outcomes are in range with stripped strings (`MetaPayload.RoundTripIff`):
  a predicted action "BUY " comes back as "BUY" and may turn right where it was wrong. Outcomes with a negative drawdown
  contribution or a confidence outside 0..1 are recorded and stored, and while one is among the newest the store cannot
  be read (`MetaPersistence.RunFolds`, `MetaFailures.AcceptedButUnreadable`); a failed write then makes the process take
  its decision for recorded (`MetaFailures.FailedWriteRetriableIff`).
- Asking changes what is stored. A consensus gives every agent whose eligible opinion it weighs a fresh reputation if it
  has none, and the next write stores it. Reading back strips names, and of two names that come down to the same one the
  later in order wins. So when a consensus has asked about a name with blank ends, a learned reputation under the
  stripped name is lost at the next start or reload exactly when the asked name comes later in order
  (`MetaNames.ConsultationWipesIff`; `MetaNames.ConsultationWipes` is a run in which it happens), and asking about a blank
  name makes the store unreadable from the next write on (`MetaPersistence.RunFolds`). As long as nobody else's name comes down to an agent's,
  the agent's stored reputation is what its own outcomes make of it, over every run (`MetaReputation.AgentFolds`).
- A batch refused for an unsupported regime leaves its leading outcomes in memory (`MetaFailures.RefusedBatchLeaksIff`),
  and the next write of that process makes them durable (`MetaFailures.LeakBecomesDurable`). A decision takes effect
  twice exactly when its event is missing and its id has left the bounded list (`MetaIdempotence.DuplicateIffForgotten`,
  `MetaFailures.LimitPlusOneForgets`).
- Learning scores stay within their bound exactly when rounding the bound to twelve decimals does not raise it
  (`LearningReputation.ScoreBoundIff`).
- The percentage drawdown is the maximum over all pairs while equity is not negative (`Drawdown.PeakDeclineIsLargest`).
  For any path the maximum is the larger of the loop's figure and the largest fall below zero from the lowest positive
  point before it, so the figure is the maximum if and only if no such fall exceeds it (`Drawdown.FigureIsLargestIff`).
  At the first point below zero that is so if and only if equity never had two different positive values before
  (`Drawdown.NegativeEquityIff`).
- The rate limiter keeps every window of every run over a set of keys if and only if it has a bucket for each key
  (`RateLimiter.WindowsKeptIff`).

## Model

| member | source | states |
|---|---|---|
| Ledger.CashFlow | autonomous_trading/council_loop.py:1108-1139 | midpoint plus or minus spread and slippage cost is exactly the executed cash flow |
| Ledger.OpenSound | autonomous_trading/council_loop.py:1165-1226 | opening keeps cash non-negative and cash + cost of open positions = capital + realised profit |
| Ledger.NetIsCashDifference | autonomous_trading/council_loop.py:1271-1291 | net profit of a close is its proceeds after fee minus everything paid for the position |
| Ledger.CloseSound | autonomous_trading/council_loop.py:1228-1291 | closing keeps the same conservation equation |
| Ledger.ReplayConserves | autonomous_trading/council_loop.py:1165-1291 | conservation after any admissible history from fresh capital |
| Ledger.ReplayFees | autonomous_trading/council_loop.py:1213-1290 | the fee counter is the sum of the fees of the history |
| Ledger.ReplayAlternates | autonomous_trading/council_loop.py:897-918 | each symbol's trades alternate BUY and SELL with equal quantities; a position exists exactly when the newest is a BUY |
| Ledger.OpenPositionIsNewest | autonomous_trading/council_loop.py:1212-1288 | an open position belongs to the newest trade of its symbol, whose decision it carries |
| Ledger.PostIff | autonomous_trading/council_loop.py:889-918 | a trade is accepted exactly for an authorized BUY that cash covers on a symbol without position, or a SELL of the whole position |
| Ledger.PostMoves | autonomous_trading/council_loop.py:1165-1291 | what a trade moves in cash, fees, realised profit and its own position, every figure of the fill recorded |
| ProtocolSafety.StepInv | autonomous_trading/council_loop.py:706-985 | every step of every process, with any write outcome, keeps the protocol invariant |
| ProtocolSafety.RunGrows | autonomous_trading/loop.py:468-500 | committed trades, consumptions and decision records are never altered later |
| ProtocolSafety.DropsOnlyTraded | autonomous_trading/council_loop.py:772-777 | a durable intent leaves the pending map only once its trade is committed |
| ProtocolSafety.PendingUntilTraded | autonomous_trading/council_loop.py:930-985 | the same over every run with crashes and failed or ambiguous writes anywhere |
| ProtocolSafety.RunConserves | autonomous_trading/council_loop.py:1165-1291 | conservation and non-negative cash of the durable book over every run |
| ProtocolSafety.RunAlternates | autonomous_trading/council_loop.py:823-918 | over every run committed trades alternate per symbol; never short, never doubled |
| ProtocolSafety.RunAudited | autonomous_trading/canonical_runtime.py:181-281 | every committed authorized trade has a durable consumption and an authorizing decision record of its side; every protective trade closes what a committed BUY opened |
| ProtocolSafety.ConsumedNeverReauthorized | autonomous_trading/canonical_runtime.py:110-179 | once consumed, a decision is never authorized again to a process that does not already hold it |
| ProtocolWindow.WindowIsExact | autonomous_trading/council_loop.py:747-753 | under the lag bound the bounded duplicate check agrees with the full history on every durable intent |
| ProtocolWindow.StepWindow | autonomous_trading/council_loop.py:877-888 | every step keeps the lag bound, a fault being paid from the funds of its own intent |
| ProtocolWindow.SingleExecution | autonomous_trading/council_loop.py:948-985 | no two committed trades carry the same intent, over every run in which no single intent meets more faults than the window allows for |
| ProtocolWindow.BoundIs | autonomous_trading/council_loop.py:277-549 | the bound in closed form, one trade per symbol visit for a lone process, two for several |
| ProtocolWindow.WindowSuffices | autonomous_trading/council_loop.py:1429-1430 | concrete sizes and fault counts that the 500-trade list covers |
| ProtocolWindow.DuplicateIffForgotten | autonomous_trading/council_loop.py:877-888 | one execution duplicates if and only if a trade of its intent has left the bounded list |
| ProtocolDuplicate.DuplicateRun | autonomous_trading/council_loop.py:664-704 | for every window a run that commits one intent twice, that intent meeting at most as many faults as the window has trades and no other any: completions lost in recovery, a failing exit that reloads, trades of a second symbol |
| ProtocolDuplicate.FiveHundredIsNotAlwaysEnough | autonomous_trading/council_loop.py:747-753 | such a run for the 500-trade list, one process and any two symbols, with at most 500 faults |
| CouncilLoop.Database.PutDocument | storage/project_database.py:280-324 | compare-and-set write: what is stored and when it raises, for each outcome |
| CouncilLoop.Database.PutDecision | autonomous_trading/canonical_runtime.py:436-455 | write-once decision record, identical replays included |
| CouncilLoop.Database.PutConsumption | autonomous_trading/canonical_runtime.py:252-281 | write-once consumption record |
| CouncilLoop.PaperLoop.ReloadCanonicalState | autonomous_trading/council_loop.py:937-946 | memory becomes the durable document and version |
| CouncilLoop.PaperLoop.OpenPosition | autonomous_trading/council_loop.py:1165-1226 | in-place open equals the ledger's open, refused exactly when cash does not cover it |
| CouncilLoop.PaperLoop.ClosePosition | autonomous_trading/council_loop.py:1228-1291 | in-place close equals the ledger's close, refused on a missing position or another quantity |
| CouncilLoop.PaperLoop.FindExecuted | autonomous_trading/council_loop.py:877-888 | the scan of the bounded list finds exactly a trade of this intent |
| CouncilLoop.PaperLoop.HasOther | autonomous_trading/council_loop.py:823-832 | another decision is staged for the symbol |
| CouncilLoop.PaperLoop.HasOtherExit | autonomous_trading/council_loop.py:730-731 | another protective intent is pending |
| CouncilLoop.PaperLoop.SaveDocument | autonomous_trading/loop.py:468-478 | the version advances in memory exactly when the write returned |
| CouncilLoop.PaperLoop.WriteCompletion | autonomous_trading/council_loop.py:930-935 | memory drops the intent whatever the write does; the store drops it when the write lands |
| CouncilLoop.PaperLoop.AssessEntry | autonomous_trading/canonical_runtime.py:110-179 | a grant means an unconsumed decision with a durable authorizing record |
| CouncilLoop.PaperLoop.ConsumeAuthorization | autonomous_trading/canonical_runtime.py:181-281 | a return means the consumption is durable; a raise leaves the intent to recovery |
| CouncilLoop.PaperLoop.LoadAfter | autonomous_trading/council_loop.py:696-702 | after a raise memory is the durable document again |
| CouncilLoop.PaperLoop.CompleteExecution | autonomous_trading/council_loop.py:930-935 | completion is a run of the protocol; where it goes on after a return and after a raise |
| CouncilLoop.PaperLoop.StageAuthorized | autonomous_trading/council_loop.py:791-843 | the durable intent, its refusal when the symbol is taken, and what a raise leaves behind |
| CouncilLoop.PaperLoop.StageProtective | autonomous_trading/council_loop.py:706-739 | the durable exit intent; a refusal or a raise loads the durable document |
| CouncilLoop.PaperLoop.CommitExecution | autonomous_trading/council_loop.py:890-928 | book, position and trade in one write; any refusal or raise reloads the durable document |
| CouncilLoop.PaperLoop.ApplyExecution | autonomous_trading/council_loop.py:862-928 | the intent is applied exactly once, not before its consumption is durable; when every write returns, committed and dropped as specified |
| CouncilLoop.PaperLoop.ExecuteAuthorized | autonomous_trading/council_loop.py:443-549 | stage, consume, apply and complete form a run; a raise ends the tick, a refused consumption only the visit |
| CouncilLoop.PaperLoop.ExecuteProtective | autonomous_trading/council_loop.py:664-704 | a protective exit is a run, and a raise leaves memory equal to the store |
| CouncilLoop.PaperLoop.RecoverPending | autonomous_trading/council_loop.py:258-261 | recovery is a run that visits every authorized and then every protective intent |
| CouncilLoop.PaperLoop.RecoverOne | autonomous_trading/council_loop.py:948-985 | one intent of recovery: consumed while authorized, then applied; exactly as specified when every write returns |
| CouncilLoop.PaperLoop.VisitExit | autonomous_trading/council_loop.py:295-302 | the exit of a visit: the visit goes on to the proposal if the position is still there and ends otherwise; when every write returns, exactly what the specification of an exit says |
| CouncilLoop.PaperLoop.VisitEntry | autonomous_trading/council_loop.py:304-544 | a proposal is a run of the protocol; when every write returns it is ruled on, staged, consumed and traded exactly as the specification of an entry says |
| CouncilLoop.PaperLoop.Tick | autonomous_trading/council_loop.py:258-549 | recovery, every symbol in order and the closing save are a run of the protocol; when every write returns, exactly the specified tick |
| TickLaws.EntryTradesIff | autonomous_trading/council_loop.py:509-528 | a visit trades its proposal iff the decision is fresh and authorized, the fill fits the position, nothing else is staged, the list does not show it and the book accepts; it is then consumed, in the history and not pending |
| TickLaws.ExitTradesIff | autonomous_trading/council_loop.py:664-704 | a visit closes its position iff the exit is due, no other exit is pending, the list does not show it and the quantity is the position's |
| TickLaws.RecoveryTradesIff | autonomous_trading/council_loop.py:948-985 | recovery trades a staged intent iff it is consumed or still authorized, not in the list, and accepted by the book |
| TickLaws.TickTradesEntry | autonomous_trading/council_loop.py:258-549 | a tick with nothing pending and nothing else due trades the one clear proposal and leaves nothing pending |
| TickLaws.TickTradesExit | autonomous_trading/council_loop.py:258-302 | a tick closes the one position whose exit is due |
| TickLaws.TickTradesStaged | autonomous_trading/council_loop.py:258-266 | a tick consumes and trades the one staged authorized intent, whether or not the market is verified |
| CouncilLoop.PaperLoop.Safe | autonomous_trading/council_loop.py:258-549 | the protocol invariant holds of the object after any calls |
| CouncilLoop.PaperLoop.Accounts | autonomous_trading/council_loop.py:1165-1291 | so its durable account conserves and its trades alternate per symbol |
| CouncilLoop.PaperLoop.CommitsOnce | autonomous_trading/council_loop.py:948-985 | from a fresh store the object commits no intent twice while no intent meets more faults than the list can take |
| CouncilLoop.Live | autonomous_trading/council_loop.py:87-302 | loading, recovery at the start and any number of ticks, whatever the writes do, are a run of the protocol and leave a sound account |
| MarkToMarket.Sums | autonomous_trading/loop.py:315-326 | the loop computes market value and gain of the open positions in any order |
| MarkToMarket.Mark | autonomous_trading/loop.py:308-329 | both figures to eight decimals: unrealised profit is the gain of the positively quoted positions alone, one quoted position is worth its quote, and a moving quote moves both figures by the move times the quantity |
| MarkToMarket.QuoteMoves | autonomous_trading/loop.py:320-329 | replacing a quote moves equity and unrealised profit by the difference times the quantity held |
| MarkToMarket.OnlyQuotedGain | autonomous_trading/loop.py:320-329 | unrealised profit is the sum over the positions with a positive quote of (quote - entry price) times quantity |
| MarkToMarket.EquityIdentity | autonomous_trading/loop.py:308-329 | equity = capital + realised + unrealised - open entry fees, the stored figures within one unit of the eighth decimal |
| Rounding.StepDownIsGreatest | autonomous_trading/council_loop.py:2025-2028 | stepping down gives the greatest multiple not above the value |
| Rounding.StepUpIsLeast | autonomous_trading/council_loop.py:2025-2028 | stepping up gives the least multiple not below the value |
| Rounding.HalfEvenIs | autonomous_trading/loop.py:308-329 | rounding gives a nearest multiple, the even one of two |
| Text.StripIs | meta_ai.py:33-34 | stripping takes off blank ends and nothing else |
| Text.LeqIff | meta_ai_persistence.py:192-214 | the order in which agents are stored |
| Execution.SizedIff | autonomous_trading/council_loop.py:1057-1069 | sizing accepts exactly when a whole number of lots lies between the minimum and both the request and the maximum |
| Execution.PreparedIsAdmissible | autonomous_trading/council_loop.py:1030-1163 | every prepared execution meets lot, tick, price, notional and no-improvement rules and can be posted to the ledger |
| ExecutionLaws.PrepareIff | autonomous_trading/council_loop.py:1040-1139 | preparation gives a fill iff it is the one determined by rules, quote and cost model: the largest lots within the request, the least tick at or above the model's price (greatest at or below for a SELL), the model's fee rate on the notional |
| ExecutionLaws.RefusalIsTrue | autonomous_trading/council_loop.py:1040-1104 | the reason of every refused preparation is true |
| ExecutionLaws.EntryIsLargest | autonomous_trading/council_loop.py:986-1034 | an entry is the largest lots within its share of cash, an equal share per symbol, the recovery floor and the market maximum, at half size on a flat book below capital |
| Execution.RecoveryIff | autonomous_trading/council_loop.py:987-1012 | with an affordable floor within the maximum recovery passes quantity and notional filters iff the floor or the budget gives whole lots, under every cost model |
| Execution.RecoveryPassesFilters | autonomous_trading/council_loop.py:987-1012 | a floor of whole lots, affordable and within the maximum, is never refused by them |
| Execution.FlatBookReenters | autonomous_trading/loop.py:205-219 | a flat book below its starting capital passes those filters at its half-size entry exactly under that condition |
| Execution.UnalignedMinimumIsRefused | autonomous_trading/council_loop.py:1003-1007 | a floor off the lot grid with no lot in the budget is refused under every cost model, although cash covers it |
| Execution.CloseMatchesPosition | autonomous_trading/council_loop.py:1014-1028 | a prepared close has the position's quantity exactly when that is still whole lots within the maximum |
| Execution.OpenedCanBeClosed | autonomous_trading/council_loop.py:1238-1244 | what was opened is accepted for closing under the same step and maximum |
| Controller.Synthesize | autonomous_trading/general_controller_v2.py:235-253 | the synthesis loop computes scores, count, contributing and ignored agents |
| Controller.CollectGates | autonomous_trading/general_controller_v2.py:341-349 | the gate loop builds the gate map |
| Controller.GateMapMeaning | autonomous_trading/general_controller_v2.py:341-349 | it succeeds exactly on distinct names and maps each name to its gate |
| Controller.OnlyVoicesMatter | autonomous_trading/general_controller_v2.py:227-339 | the decision is a function of the multiset of counted votes |
| Controller.OrderIsIrrelevant | autonomous_trading/general_controller_v2.py:155-225 | permuting the recommendations changes nothing |
| Controller.SymmetryIff | autonomous_trading/general_controller_v2.py:296-333 | swapping BUY and SELL swaps the decision for all inputs iff margin > 0 or score threshold > 1/2 |
| Controller.WorseGatesNeverTrade | autonomous_trading/general_controller_v2.py:165-225 | worsening gates never creates or turns a trade |
| Controller.FinalIff | autonomous_trading/general_controller_v2.py:165-225 | a trade is final exactly when there is a direction, all required gates are there and pass, and some notional is allowed |
| ControllerLaws.WeightIsProportional | autonomous_trading/general_controller_v2.py:335-339 | a vote weighs in proportion to confidence, evidence and residual risk, the full vote one |
| ControllerLaws.CountsIff | autonomous_trading/general_controller_v2.py:235-253 | exactly which recommendations are counted |
| ControllerLaws.TalliedIs | autonomous_trading/general_controller_v2.py:235-261 | scores, count and agent lists as sums and sets over the counted and the other recommendations |
| ControllerLaws.DirectionIff | autonomous_trading/general_controller_v2.py:262-333 | BUY iff the thresholds are passed and BUY strictly leads by score and margin, SELL iff they are and SELL leads or ties |
| ControllerLaws.WaitIs | autonomous_trading/general_controller_v2.py:262-320 | the reason and the confidence of every WAIT |
| ControllerLaws.FinishIs | autonomous_trading/general_controller_v2.py:165-225 | blocked iff one of the three required gates is missing or a gate blocks; when a direction becomes a final trade, and the reason otherwise |
| ControllerLaws.AsConfigured | autonomous_trading/general_controller_v2.py:100-153 | the thresholds that are admitted, the defaults, and the agents whose vote is news |
| ControllerLaws.RiskierSellKeepsBuy | autonomous_trading/general_controller_v2.py:335-339 | raising the risk of a counted SELL vote leaves a BUY a BUY |
| ControllerLaws.QualityRowIs | autonomous_trading/runtime_decision_v2.py:130-142 | confidence, evidence and residual risk count 45, 40 and 15 hundredths in a vote's quality |
| ControllerLaws.MeasuredIsMean | autonomous_trading/runtime_decision_v2.py:114-154 | the quality score is the mean of the voters' rows, agreement the larger side's share, zero without news |
| Evaluation.MeasureQuality | autonomous_trading/runtime_decision_v2.py:83-128 | the measuring loops compute the quality signal, its error and empty cases included |
| Evaluation.MeasureRows | autonomous_trading/runtime_decision_v2.py:130-154 | strengths, agreement and mean quality of the voters |
| Evaluation.StrengthsAreScores | autonomous_trading/runtime_decision_v2.py:130-147 | the quality strengths are the controller's scores |
| Evaluation.TradeIsBacked | autonomous_trading/runtime_decision_v2.py:157-176 | a final trade implies fresh evidence, a news voice, enough agents, all gates, a (1+margin)/2 share, and agreement = confidence = that share |
| Evaluation.AgreementRedundant | autonomous_trading/general_controller_v2.py:275-284 | an agreement threshold up to 50(1+margin) changes no final intent |
| Evaluation.DefaultAgreementRedundant | autonomous_trading/general_controller_v2.py:132-139 | the default 55 is implied by the default margin |
| Evaluation.NewsIff | autonomous_trading/runtime_decision_v2.py:114-128 | a trade requires a news voice iff the quality or agreement threshold is positive |
| Evaluation.OnlyVotersMatter | autonomous_trading/runtime_decision_v2.py:107-113 | end to end only the multiset of verified directional recommendations matters |
| Evaluation.VoicesDecideIff | autonomous_trading/runtime_decision_v2.py:83-176 | end to end only counted votes matter iff neither quality nor agreement has a threshold |
| Evaluation.MuteNewsUnlocksTrade | autonomous_trading/runtime_decision_v2.py:122-154 | one zero-weight news vote turns the WAIT of a long enough list into a BUY |
| Evaluation.DullVotesStopTrade | autonomous_trading/runtime_decision_v2.py:130-154 | enough votes of no weight and quality turn a BUY into a WAIT under any positive quality threshold |
| Evaluation.EndToEndSymmetryIff | autonomous_trading/runtime_decision_v2.py:157-176 | end-to-end symmetry iff margin > 0, score threshold > 1/2 or agreement threshold > 50 |
| CapitalAllocation.RequestKeepsCap | capital_allocation.py:139-260 | one allocation raises no exposure above its cap plus 0.00515 |
| AllocationLaws.GrantsIff | capital_allocation.py:119-260 | a request is granted iff accepted, without hard block, on positive equity, below the daily loss limit, with a free position, room under every cap and some risk; the notional is the smallest of the five exact limits up to rounding, and zero when refused |
| AllocationLaws.FirstReason | capital_allocation.py:229-258 | the reason given is the first in order that is true |
| AllocationLaws.ShareIs | capital_allocation.py:140-165 | what an entry of the trade list counts in the book, its symbol and its group |
| AllocationLaws.DefaultGroupIff | capital_allocation.py:208-212 | which symbols share a default group |
| AllocationLaws.DefaultLimits | capital_allocation.py:10-98 | the caps of the default policy as parts of equity |
| AllocationLaws.RunMoves | capital_allocation.py:139-260 | each request of a run is answered on the list as it is then, and a close frees what it counted |
| CapitalAllocation.RunKeepsCaps | capital_allocation.py:139-260 | over any run of requests and closes total, reserve, symbol and group caps hold up to that one fixed error |
| CapitalAllocation.LossWithinBudget | capital_allocation.py:173-195 | loss at the stop plus round-trip fees is within the risk budget up to rounding |
| CapitalAllocation.GroupCapIffNamed | capital_allocation.py:208-212 | the group cap is kept for every book and policy iff the request names its group or no symbol |
| CapitalAllocation.SymbolExposures | capital_allocation.py:346-355 | the snapshot loop's per-symbol running totals |
| CapitalAllocation.SnapshotDrift | capital_allocation.py:346-355 | they drift from the exact exposure by at most half a unit per trade |
| CapitalAllocation.SnapshotAgrees | capital_allocation.py:146-153 | on four-decimal notionals they equal the figure the allocator checks |
| CapitalAllocation.RunStaysFine | capital_allocation.py:218-227 | allocations keep a book on four decimals |
| MetaAI.RecordAllSound | meta_ai.py:92-100 | every recorded reputation has consistent counts and sums |
| MetaAI.UpperClampNeverFires | meta_ai.py:116-124 | the blend lies in 0..1, so the upper weight clamp never fires |
| ReputationLaws.WeightIs | meta_ai.py:116-124 | each of thirty samples moves the weight a thirtieth of the way from 0.75 to 1.5 times the raw quality, floor 0.15 |
| ReputationLaws.BetterNeverWeighsLess | meta_ai.py:116-124 | a record no worse in any figure never weighs less |
| ReputationLaws.DrawdownDivides | meta_ai.py:120-121 | a hundred of drawdown halves the raw quality |
| ReputationLaws.OneMoreRight | meta_ai.py:102-118 | a right answer counts 55 hundredths over the total, 22 of them by regime once seen |
| ReputationLaws.ErrorCounts | meta_ai.py:106-121 | the mean confidence error counts a quarter |
| ReputationLaws.ProfitCounts | meta_ai.py:120-121 | profit counts a fifth, saturating at a scale of 100 |
| ReputationLaws.RawAnchors | meta_ai.py:102-121 | nothing known is one half, a faultless record without profit nine tenths |
| ReputationLaws.RegimesAre | meta_ai.py:16 | the regimes that recording supports |
| ReputationLaws.LearnedAddsUp | meta_ai.py:92-100 | recorded figures are the sums of the agent's outcomes, in all and by regime |
| Consensus.Accumulate | meta_ai.py:205-226 | the loop computes the action scores, their total and the veto, and gives exactly the agents it weighs a fresh reputation if they have none |
| Consensus.DynamicConsensus | meta_ai.py:189-269 | the whole decision against its specification, by the weights of before, and the reputations it leaves |
| Consensus.OrderIndependent | meta_ai.py:228-269 | action, blocked, agreement and confidence do not depend on either order |
| Consensus.OrderFreeIff | meta_ai.py:251-269 | independence iff the agreement threshold exceeds one half or nobody can be eligible |
| Consensus.UnblockedIsMajority | meta_ai.py:251-269 | an unblocked action has a strict majority of eligible weight |
| ConsensusLaws.OpinionIsProportional | meta_ai.py:221-224 | an opinion weighs in proportion to confidence and evidence, full risk halves it |
| ConsensusLaws.ConsensusIs | meta_ai.py:251-269 | the top action is the answer iff its share reaches the threshold; agreement is the share, confidence 7/10 of it and 3/10 of the lead over the runner-up |
| ConsensusLaws.NoVoteIs | meta_ai.py:228-250 | a veto blocks with certainty; without eligible weight the answer is WAIT with no confidence |
| ConsensusLaws.VetoIff | meta_ai.py:17-41 | which names can veto, and when one is heard |
| ConsensusLaws.ScoreIsSumOfEligible | meta_ai.py:205-226 | which opinions add to the score of an action |
| ConsensusLaws.KeysAgreeIff | meta_ai.py:33-34 | two names have one key iff stripped they agree up to case and blanks, hyphens and underscores |
| Consensus.BlockIffVeto | meta_ai.py:205-238 | BLOCK exactly when a veto owner, by its normalised name, blocks or is unsafe |
| Consensus.VetoByKey | meta_ai.py:33-41 | normalising a name twice changes nothing, and a name has a veto exactly when its normal form has |
| Consensus.BoardWeightsPositive | meta_ai.py:116-124 | reputation weights lie between floor and ceiling |
| MetaPayload.BoardComesBack | meta_ai_persistence.py:233-264 | stored reputations are read back as they were iff every agent is stripped and not blank |
| MetaPayload.BoardIsRead | meta_ai_persistence.py:233-264 | stored reputations can be read iff no agent is blank, and each stripped name then has the reputation of the last agent in order that comes down to it |
| MetaPayload.ReadsReputationIff | meta_ai_persistence.py:233-264 | exactly which stored reputations are read |
| MetaPayload.ReadsOutcomeIff | meta_ai_persistence.py:286-309 | exactly which stored outcomes are read |
| MetaPayload.OtherSchemaIsRefused | meta_ai_persistence.py:215-232 | a payload of another schema is not read |
| MetaPayload.RestoreSerialized | meta_ai_persistence.py:192-271 | what reading back gives in general: strings stripped, nothing when an agent or a retained id is blank or a retained outcome is out of range |
| MetaPayload.RoundTripIff | meta_ai_persistence.py:192-309 | restore after serialise is the identity up to the limit iff names and strings are stripped, ids and agents not blank, outcomes in range |
| MetaPersistence.NextInv | meta_ai_persistence.py:69-126 | every step, consultations and refused, unreadable and failed batches included, keeps history and ids of each memory those of the durable log before it and of its own entries |
| MetaPersistence.RunFolds | meta_ai_persistence.py:69-126 | over every run, whatever the agents are called, memories and store agree with the entries made durable, and the store can be read iff no agent is blank and the newest outcomes are in range |
| MetaPersistence.DurableReadable | meta_ai_persistence.py:249-270 | what a store in agreement reads back as |
| MetaReputation.StepTracks | meta_ai.py:165-173 | every step that names nobody else coming down to an agent keeps its reputation, in store and memories, the fold of its own outcomes |
| MetaReputation.AgentFolds | meta_ai_persistence.py:69-126 | over every run, consultations included, the stored row of an agent is the fold of its own durable outcomes, and every memory holds the fold of a prefix of them and of its own |
| MetaReputation.UncleanForgets | meta_ai_persistence.py:233-264 | an agent whose name is blank or has blank ends has no reputation after a start or reload |
| MetaNames.ConsultationWipesIff | meta_ai.py:165-166 | asking about a name that comes down to another agent loses that agent its reputation iff the name comes later in order |
| MetaNames.ConsultationWipes | decision_quality/service.py:75-94 | a run of clean batches in which a consultation wipes a learned reputation |
| MetaIdempotence.StepOnce | meta_ai_persistence.py:180-190 | a step keeps decisions single in store and memories unless its process has forgotten the decision |
| MetaIdempotence.DuplicateIffForgotten | meta_ai_persistence.py:180-190 | a decision is recorded twice iff the write lands and neither event nor id is left |
| MetaIdempotence.EachDecisionOnce | meta_ai_persistence.py:180-190 | while nothing is forgotten each decision takes effect once, and stored reputations are the folds of entries with distinct decisions |
| MetaIdempotence.EventsSuffice | meta_ai_persistence.py:112-126 | with outcomes in range and nobody blank nothing is forgotten when no event append is lost |
| MetaIdempotence.ShortHistorySuffices | meta_ai_persistence.py:98-99 | with outcomes in range and nobody blank nothing is forgotten within the history limit |
| MetaIdempotence.KeptEventsOnce | meta_ai_persistence.py:69-126 | from the empty store, in range and nobody blank: when no event is lost each decision takes effect once over the whole run |
| MetaIdempotence.FewDecisionsOnce | meta_ai_persistence.py:69-126 | ... and also when events are lost, in runs of no more decisions than the history limit |
| MetaFailures.LimitPlusOneForgets | meta_ai_persistence.py:98-126 | for every limit, one lost event and enough decisions record one twice |
| MetaFailures.RefusedBatchLeaksIff | meta_ai.py:168-173 | a refused batch leaves memory alone iff its first outcome is the refused one |
| MetaFailures.LeakBecomesDurable | meta_ai_persistence.py:96-110 | the next write makes what it left durable, under the other decision, and counts it in the stored reputations |
| MetaFailures.FailedWriteRetriableIff | meta_ai_persistence.py:101-109 | a failed write leaves its decision open to a retry iff the memory before it could be read back |
| MetaFailures.AcceptedButUnreadable | meta_ai_persistence.py:286-309 | recording accepts and stores an outcome that then stops every start and reload |
| PersistentMetaAI.MetaDatabase.SetState | storage/project_database.py:529-560 | compare-and-set of the stored state |
| PersistentMetaAI.Recorder.RecordEach | meta_ai.py:168-173 | the recording loop, up to the first unsupported regime |
| PersistentMetaAI.Recorder.RestoreFrom | meta_ai_persistence.py:215-270 | the item-by-item read; memory changes only when every item can be read |
| PersistentMetaAI.LoadBoard | meta_ai_persistence.py:233-264 | the reputation loop of the read |
| PersistentMetaAI.Recorder.RecordOutcomes | meta_ai_persistence.py:69-126 | one call is exactly one step of the machine |
| PersistentMetaAI.Recorder.DynamicConsensus | meta_ai.py:189-269 | a consensus on this object decides by the reputations in memory and is exactly one consulting step of the machine |
| PersistentMetaAI.Recorder.Reload | meta_ai_persistence.py:53-67 | memory becomes the stored state, or stays when that cannot be read |
| LearningReputation.ProcessedIsEffects | autonomous_trading/learning_reputation_v2.py:110-176 | in every run the processed list is the evidence that took effect, once each, in order, rollbacks included |
| LearningReputation.RollbackRestores | autonomous_trading/learning_reputation_v2.py:158-176 | a rollback restores the target's roles and keeps the processed list |
| LearningReputation.ScoreBoundIff | autonomous_trading/learning_reputation_v2.py:139-145 | scores stay within the bound in all runs iff rounding the bound does not raise it |
| LearningReputation.AppliesIff | autonomous_trading/learning_reputation_v2.py:121-133 | exactly which evidence is taken |
| LearningReputation.UpdateMoves | autonomous_trading/learning_reputation_v2.py:135-155 | an update moves the score by its delta up to bound and twelfth decimal, and nothing else |
| LearningReputation.ScoreIsSum | autonomous_trading/learning_reputation_v2.py:135-155 | while nothing is clipped a score is the sum of the deltas that took effect |
| LearningReputation.UpdatesAreCounted | autonomous_trading/learning_reputation_v2.py:141-145 | the update count is the number of evidence that took effect |
| LearningReputation.RollbackIff | autonomous_trading/learning_reputation_v2.py:158-176 | a rollback is refused exactly for the current snapshot |
| LearningCalibration.RunSound | autonomous_trading/learning_calibration_v2.py:181-225 | the sum of confidence and the sum of outcomes differ by at most the summed error, itself at most the count |
| LearningCalibration.OrderAndRepetitionIrrelevant | autonomous_trading/learning_calibration_v2.py:181-225 | any order and repetition of the same observations gives the same role states |
| LearningCalibration.ConflictingIdsKeepTheFirst | autonomous_trading/learning_calibration_v2.py:190-191 | every list runs like the list of the first admissible observation of each id |
| LearningCalibration.ConflictsDependOnOrder | autonomous_trading/learning_calibration_v2.py:190-191 | the order of two conflicting observations matters iff they add different figures |
| Drawdown.RunningDrawdown | autonomous_trading/replay_acceptance_v2.py:117-142 | the running-peak loop returns the maximum over all pairs and the sum of nets |
| Drawdown.ReplayMetrics | autonomous_trading/replay_acceptance_v2.py:117-154 | all totals; net from totals is the sum of per-trade nets |
| Drawdown.EvidenceDrawdown | autonomous_trading/stage_controller.py:140-149 | the percentage loop computes the largest decline from the running peak |
| Drawdown.PeakDeclineIsLargest | autonomous_trading/stage_controller.py:140-149 | with non-negative equity that is the largest relative decline over all pairs |
| Drawdown.FigureIsLargestIff | autonomous_trading/stage_controller.py:140-149 | for every path: the largest decline over all pairs, and the loop finds it iff no fall below zero from the lowest positive point exceeds its figure |
| Drawdown.NegativeEquityIff | autonomous_trading/stage_controller.py:140-149 | when equity first goes negative it still is so iff equity never had two different positive values |
| RateLimiter.RequestLimiter.Call | agent_intelligence.py:51-68 | the in-place limiter against its specification |
| RateLimiter.AcceptedIff | agent_intelligence.py:51-68 | a call is accepted iff fewer than limit accepted calls lie in the last 60 seconds of the full log |
| RateLimiter.RunFaithful | agent_intelligence.py:51-68 | a bucket never evicted agrees with the log over every run |
| RateLimiter.BucketsBounded | agent_intelligence.py:55-62 | the bucket count never exceeds its maximum |
| RateLimiter.WindowNeverExceeded | agent_intelligence.py:63-68 | with a constant limit no 60-second window exceeds it |
| RateLimiter.EvictionForgets | agent_intelligence.py:55-62 | for every maximum, eviction lets a key exceed its limit |
| RateLimiter.WindowsKeptIff | agent_intelligence.py:51-68 | over a set of keys every window of every run is kept iff there is a bucket for each key |
| StateFile.StateStore.Save | paper_activity_engine.py:323-342 | the disk after stopping at any instruction |
| StateFile.StateStore.Load | paper_activity_engine.py:301-321 | primary, then backup, then legacy, then default |
| StateFile.SaveRefines | paper_activity_engine.py:323-342 | a save stopped anywhere, from any disk, moves the pair current and previous as specified |
| StateFile.SavedIsLoaded | paper_activity_engine.py:301-342 | loading after a completed save gives the saved state, one revision on |
| StateFile.RunRefines | paper_activity_engine.py:301-342 | the files refine the two cells over every run of saves, crashes and damage |
| StateFile.CrashesLoseNothing | paper_activity_engine.py:301-342 | with crashes only, loading returns the newest save past its second rename, never the default once a state was there |
| StateFile.DamageStepsBackOne | paper_activity_engine.py:301-342 | losing the primary after a save steps back exactly one save |

## Left out

- Book rebase (autonomous_trading/paper_campaign.py): it resets cash without realised profit and so moves the conservation baseline.
- ProtocolWindow.SingleExecution: the bound on faults is sufficient; which greater numbers of faults are still safe is not settled.
- MetaReputation.AgentFolds: asks that nobody else's name comes down to the agent's; MetaNames.ConsultationWipesIff says what a consultation does otherwise, and recordings of such names are merged as MetaPayload.BoardIsRead says.
- CouncilLoop.PaperLoop.VisitEntry: exactly what a visit does is promised when memory is as stored and every write returns; otherwise it is some run of the protocol. The same holds of the other methods up to CouncilLoop.PaperLoop.Tick.
- Liveness: a pending intent may stay pending; nothing is claimed about draining.
- A protective intent may close a later position of the same quantity; the code compares quantities only, and so does the model.
- Failures of store reads: they succeed, except that loading the document after a raise may fail in the machine; the loop object always loads.
- Settlement retry markers, immutable history copies, events, JSON backups and forecasts: they do not decide a trade.
- The two pending maps are one map keyed by kind of intent; their iteration orders are one arbitrary order.
- Legacy positions without execution semantics and the base loop's momentum entries.
- Candidate assembly from opinions: a ruling is a record with an authorization and a side, as the bridge returns it.
- Decimal and float precision, NaN and infinity, JSON and hashing: exact reals and injective ids.
- Whitespace and case normalisation of gate, symbol, evidence and trading decision ids, which are taken in their cleaned form; stripping and case in the reputation store and of veto names are modelled for ASCII characters (`Text`).
- Timestamps of outcomes and of the stored state, and payloads with fields missing or of another type: a payload is a record of the stored fields.
- The square root of the market-impact estimate: the cost model is an arbitrary function that estimates or refuses.
- Dissent lists, score maps and reason texts of consensus and controller results.
- Learning objectives and snapshot parent links, which are checked by constructors and never computed with.
- Drift reports, audits, optimizer recommendations and acceptance thresholds: chains of one-branch checks.
- The allocator's reporting percentages and the leverage field, which must equal one.
- The limiter's lock and clock: calls are one at a time and the time is a parameter.
- RateLimiter.RequestLimiter.Call: assumes at least one bucket, since with none the original raises on eviction.
- The role-sorted tuples of the learning snapshots are maps from role to state.
- Telegram, dashboards, language models, news collection and market data plumbing.
