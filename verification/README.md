# Verified model of the trading desk

A Dafny model of the parts of the desk where money and state meet: the curve arithmetic the crypto
executor quotes with, its book against an adversarial chain, the orchestrator whose four loops share one
risk manager, the launch scout, the outcome memory, and the path from model replies to an order. Raw
tokens and lamports are unbounded integers; dollars, prices and fractions are exact reals. `dafny verify
dfyconfig.toml` checks everything.

| File | What it covers |
|---|---|
| `Models.dfy` | positions, markets, and the contract of `round(x, 2)` (monotone, at most half a cent off, exact cents fixed) |
| `Curve.dfy`, `Positional.dfy`, `Base58.dfy`, `BondingCurve.dfy` | `src/crypto/onchain.py`: quotes, fees, base58, the bonding-curve account |
| `Ledger.dfy`, `CryptoExecutor.dfy` | the executor's lots, cost basis, settlement, confirmation, and the executor as an object |
| `EventLog.dfy`, `Session.dfy`, `CryptoTrading.dfy` | the log; executor, wallet, log and desk as one system of await-to-await steps; the object whose methods carry the landing steps out |
| `Allocation.dfy`, `Risk.dfy` | the allocation split and the risk manager |
| `Holdings.dfy` | the list of positions and the merge of broker and wallet snapshots, object identities explicit |
| `Agreement.dfy` | the desk's position in a mint against the executor's lot of it |
| `Desk.dfy`, `DeskSafety.dfy`, `Orchestrator.dfy` | the orchestrator: its steps, what every interleaving keeps, and the object whose methods carry the steps out |
| `Watchlist.dfy`, `Memory.dfy` | the two streaming folds |
| `Agent.dfy`, `Scoring.dfy`, `Evaluation.dfy` | retries and fallbacks, the matrix and the checker gate, `evaluate_token` |

How it is put together. Code that updates state in place is a class whose methods equate the new state
with a function of the old one; the laws are lemmas about those functions and about runs of them. The
network, the clock, the models and the broker are arguments, so every lemma holds for whatever they answer.
A concurrent part is a system of steps, one per stretch of code between two awaits; a run is any sequence of
steps the code allows, and the safety results are about all of them.

Eight things the code does that its documentation does not say. Each is kept as the code has it, with the
exact condition proved:

* "Clamped to the configured ceilings" (`src/shared/risk.py:65`): the split is renormalized after clamping, so
  an open market's ceiling holds exactly when the request already respected it (`Allocation.CeilingsHeldIff`).
* Live is not always stricter than paper: an approval that still carries evidence of a scam trades live
  and is blocked on paper (`Scoring.LiveButNotPaper`).
* The log can list a mint the book no longer holds once tokens arrive from outside
  (`Session.OpenCrashRecoveryIff`, with a run in `Session.DepositThenTrim`).
* Recorded deployment stops covering what is open at a midnight that finds something open at a cost, when
  the counters are reset and the positions are not (`DeskSafety.CoversIff`, with a run in
  `DeskSafety.OpenOverMidnight`).
* Recorded deployment grows on a close when the holding's cost is negative, as an imported short's is
  (`DeskSafety.CloseRaisesDeployed`, with a run in `DeskSafety.ShortImportedAndClosed`).
* A trim realizes nothing: the trimmed part of a gain or loss never reaches the day's profit
  (`DeskSafety.TrimGoesUnbooked`).
* Evidence of a scam can be found where no reason of the checker has it, since the reasons are searched as one
  text (`Scoring.EvidenceIff`, with a case in `Scoring.EvidenceAcrossReasons`).
* On an empty quote reserve a split buy can be paid where a single one is not (`Curve.PathIndependence`).

## Model

| member | source | states |
|---|---|---|
| Curve.TokensOutIsCeiling | src/crypto/onchain.py:107-115 | a buy quote is the exact share vt·in/(vq+in) rounded up, between 1 and the whole reserve |
| Curve.SellingIsBuyingMirrored | src/crypto/onchain.py:118-126 | the sell quote is the buy quote with the reserves swapped |
| Curve.PathIndependence | src/crypto/onchain.py:107-115 | splitting one buy into n never yields less than the single buy; it yields at most n-1 raw units more exactly when the quote reserve is not empty, or there are fewer than n tokens, or each later buy k is small enough for one token: (token-k)·q_k ≤ q_0+…+q_(k-1) |
| Curve.EmptyReserveRewardsSplitting | src/crypto/onchain.py:109-111 | a split beyond that bound: on an empty reserve of three tokens two buys of one get two, one buy of two gets none |
| Curve.RoundTrip | src/crypto/onchain.py:107-126 | buying and selling everything back returns at least the input and at most ceil((vq+in-1)/vt) more |
| Curve.RoundTripCanGain | src/crypto/onchain.py:107-126 | the bound is attained: on reserves (1, 3) one lamport comes back as 1 + ceil(1/3) = 2 |
| Curve.FeeOnEachLeg | src/crypto/crypto_executor.py:284-317 | each leg loses the fee and no more: what goes in and what comes out is the exact remainder, rounded up to a lamport |
| Curve.FeesTakenTwice | src/crypto/crypto_executor.py:284-317 | on any reserves, what a round trip returns lies between the net input less the fee and that net input, with the rounding of one token, less the fee |
| Curve.FeesBeatRounding | src/crypto/onchain.py:100-126 | with the curve fee on both legs, a fee of at least one lamport and vq+net at most vt+1, everybody gets back less than they put in: net of the fee, one lamport more by rounding, net of the fee again, each fee to within a lamport |
| CryptoExecutor.QuotedRoundTripLoses | src/crypto/crypto_executor.py:284-317 | the executor's own buy and sell quotes lose on a round trip, by the fee on each leg to within a lamport |
| CryptoExecutor.LeastAccepted | src/crypto/crypto_executor.py:290-316 | the least a sell accepts is its quote less the slippage allowance, rounded for the seller; a curve buy accepts nothing below its quote |
| Positional.RecodeRoundTrip | src/crypto/onchain.py:74-87 | recoding digits between any two bases, leading zeros kept, is undone by recoding back |
| Base58.DecodeEncode | src/crypto/onchain.py:74-87 | the decoder of draft-msporny-base58-03, section 4, inverts the encoder on every byte string |
| Base58.EncodeDecode | src/crypto/onchain.py:74-87 | every base58 string is the encoding of what it decodes to |
| Base58.EncodeInjective | src/crypto/onchain.py:74-87 | two byte strings with one encoding are equal |
| Base58.LeadingOnes | src/crypto/onchain.py:76-87 | the encoding starts with exactly as many '1's as the input has leading zero bytes |
| Base58.B58Encode | src/crypto/onchain.py:74-87 | the loop over zeros, number and chars computes that encoding |
| BondingCurve.U64LeBytes | src/crypto/onchain.py:94-97 | exactly the values below 2^64 encode, in eight bytes that read back to the value, byte i being its digit for 256^i |
| BondingCurve.LittleEndianByte | src/crypto/onchain.py:94-97 | byte i of the layout is the value divided by 256^i, modulo 256 |
| BondingCurve.ParsePack | src/crypto/onchain.py:178-227 | parsing a packed account returns the five fields, both flags and the creator; an all-zero creator reads as none |
| BondingCurve.PackParse | src/crypto/onchain.py:178-227 | packing what was parsed from a canonical 82-byte account reproduces it byte for byte |
| Ledger.FractionBounds | src/crypto/onchain.py:153-159 | a fraction of a balance is that fraction rounded down to a raw unit; it stays within the balance, and a proper fraction leaves something |
| Ledger.SettleBuyBooks | src/crypto/crypto_executor.py:420-435 | on every path of a confirmed buy, raising ones included, the lot grows by exactly what landed and nothing else moves |
| Ledger.SettleSellBooks | src/crypto/crypto_executor.py:488-501 | on every path of a confirmed sell the lot shrinks by exactly what left, floored at zero, and a lot that is gone takes its stop with it |
| Ledger.GrownAverages | src/crypto/crypto_executor.py:862-873 | a buy on a lot keeps amount = quantity times entry price, and the new entry lies between the old one and the price paid |
| Ledger.MovingAverage | src/crypto/crypto_executor.py:862-887 | after any live sequence of full, partial and empty fills each lot costs its quantity times its entry price, which lies between the lowest and highest price paid since it was opened |
| Ledger.SellKeepsEntryPrice | src/crypto/crypto_executor.py:875-887 | a sell never moves the entry price of what is left |
| Ledger.Settled | src/crypto/crypto_executor.py:862-887 | after any such sequence every raw amount is positive and the lots are exactly the opened mints |
| Ledger.BookAgrees | src/crypto/crypto_executor.py:802-887 | over every run of live fills, full, partial or empty, with mints bought and sold any number of times, the lot never exceeds the wallet, and equals it where the wallet began empty and nobody else feeds it |
| CryptoExecutor.Confirm | src/crypto/crypto_executor.py:739-766 | success exactly when a confirmed status arrives in time before any on-chain error; silence ends as unconfirmed |
| CryptoExecutor.CryptoExecutor.Credit | src/crypto/crypto_executor.py:862-873 | the in-place update of lots and opened mints is the ledger's credit |
| CryptoExecutor.CryptoExecutor.Debit | src/crypto/crypto_executor.py:875-887 | the in-place update of lots, opened mints and stops is the ledger's debit |
| CryptoExecutor.CryptoExecutor.ReconcileFill | src/crypto/crypto_executor.py:802-843 | a full fill is left to the caller; anything less is booked, logged as stranded and raised |
| CryptoExecutor.CryptoExecutor.SettleLiveBuy | src/crypto/crypto_executor.py:420-445 | a confirmed buy books the observed balance change and reports either a fill whose quantity times price is the amount spent, or the logged shortfall |
| CryptoExecutor.CryptoExecutor.SettleLiveSell | src/crypto/crypto_executor.py:488-512 | a confirmed sell books the observed balance change and reports a fill of that quantity, or the logged shortfall |
| CryptoExecutor.CryptoExecutor.Buy | src/crypto/crypto_executor.py:395-445 | a refused buy changes nothing, a paper buy books the quote, a live buy books the balance change |
| CryptoExecutor.BuyGoesThroughIff | src/crypto/crypto_executor.py:395-420 | a buy is not refused exactly when it names a mint, is worth a lamport at a known price, is quoted a raw unit, and, live, both balances and the confirmation are had |
| CryptoExecutor.CryptoExecutor.Sell | src/crypto/crypto_executor.py:447-512 | the same for a sell of a fraction of the balance, on every path; a filled paper sell leaves the rest of the lot to one raw unit, and the reply carries the quoted lamports in dollars |
| CryptoExecutor.SaleTakesTheFraction | src/crypto/crypto_executor.py:463-512 | whatever was booked, a filled sale took the fraction it was asked for to one raw unit: off the lot on paper, out of the wallet live |
| CryptoExecutor.SellGoesThroughIff | src/crypto/crypto_executor.py:447-485 | a sell is not refused exactly when it names a mint, its fraction is in (0, 1] and comes to at least one raw unit, quote and price are had, and, live, both balances and the confirmation are |
| CryptoExecutor.CryptoExecutor.ClosePosition | src/crypto/crypto_executor.py:514-516 | a full exit is a sell of the whole balance in every outcome; a filled one removes the whole paper lot, and live has seen the whole balance leave the wallet |
| CryptoExecutor.CryptoExecutor.TightenStop | src/crypto/crypto_executor.py:518-538 | a stop needs a mint and a positive price; a denied one changes nothing |
| CryptoExecutor.CryptoExecutor.DeskOpenedMints | src/crypto/crypto_executor.py:970-993 | the set rebuilt from the log is the executor's own mints and those the log leaves open |
| EventLog.OpenMintsIsStillOpen | src/crypto/crypto_executor.py:970-993 | the one-pass fold holds a mint exactly when some record opened it and no later record closed it |
| EventLog.MintOfExact | src/crypto/crypto_executor.py:1026-1036 | a record speaks of its own mint, else of its token's, else of its symbol exactly when that is the base58 text of 32 bytes, 32 to 44 characters long |
| Session.CrashRecovery | src/crypto/crypto_executor.py:970-993 | at every await of every run, the mints read back from the log are exactly the mints held, and each has a position on the desk; buys may fail at any point, before or after tokens moved, and fill late |
| Session.CrashRecoveryWithDeposits | src/crypto/crypto_executor.py:970-993 | with outside deposits and late fills no held mint is ever missing from the log or the desk |
| Session.LogOutlivesLot | src/crypto/crypto_executor.py:488-501 | a sell leaves the log listing a mint the book dropped exactly when it takes the whole lot as a trim, or as a close that falls short of its size |
| Session.StepAgreesIff | src/crypto/crypto_executor.py:488-501 | in an open world a step parts an agreeing book and log exactly when it is such a sell, or a shortfall on a mint without a lot |
| Session.OpenCrashRecoveryIff | src/crypto/crypto_executor.py:970-993 | with deposits and late fills, on every run from a fresh executor, book and log agree at every await exactly when no step of the run is one of those |
| Session.DepositThenTrim | src/crypto/crypto_executor.py:463-501 | a run that has one: buy ten, receive ten, trim half, and the log lists a mint the book no longer holds |
| CryptoTrading.CryptoTrader.LandBuy | src/desk.py:230-295 | the executor's settlement of a confirmed buy and the desk's record of it are one BuyLands step of the session |
| CryptoTrading.CryptoTrader.LandPaperBuy | src/desk.py:230-295 | a paper buy and its record are one PaperBuyLands step |
| CryptoTrading.CryptoTrader.LandSell | src/desk.py:521-545 | the settlement of a confirmed trim or close and the desk's record of it are one SellLands step; a filled close drops every entry of the closed object and no other |
| CryptoTrading.CryptoTrader.LandPaperSell | src/desk.py:521-545 | a paper trim or close and its record are one PaperSellLands step, which drops as many entries |
| Agreement.BuyShowsOnDesk | src/desk.py:230-295 | after a live buy, filled, short or empty, the desk has a position exactly when the executor has a lot, with the same quantity, entry price and cost, at no profit |
| Agreement.PaperBuyShowsOnDesk | src/desk.py:271-295 | the same after a paper buy |
| Agreement.TrimsDrift | src/desk.py:521-528 | after any number of paper trims, refused ones included, the lot is never below what the desk has of it and above it by at most one raw unit a trim |
| Session.LedgerAgreement | src/crypto/crypto_executor.py:802-887 | on every live run of the desk, where the scout offers each mint once, each mint with no swap in flight is booked at its wallet balance, or, when its open has ended and it has no position (a failed buy, a close), at nothing, whatever the wallet holds of it; with outside deposits, never above it |
| Session.FailedBuyStrands | src/crypto/crypto_executor.py:739-766 | a run on which that is less than the wallet: ten units arrive for a buy that then fails to confirm, and neither book, log nor desk lists them |
| Allocation.NormalizedIsUnitSplit | src/models.py:169-181 | any request normalizes to non-negative shares that sum to one |
| Allocation.FixedIffInRange | src/models.py:169-181 | a unit split is left alone exactly when it respects both ceilings or one market has it all |
| Allocation.OnePass | src/models.py:169-181 | one pass on an over-ceiling split: the reciprocal of the other share becomes cap times itself plus one |
| Allocation.RepeatedPasses | src/models.py:169-181 | n passes in closed form: the over-ceiling share falls strictly towards the ceiling and never crosses it |
| Allocation.Symmetric | src/models.py:169-181 | the two markets are treated alike |
| Allocation.CeilingsHeldIff | src/shared/risk.py:64-67 | for all ceilings, the stored split respects them exactly when the requested unit split did, or one market is closed by a zero ceiling, the other may take everything, and the request gave it something |
| Allocation.PassesHeldIff | src/shared/risk.py:64-67 | after any number of passes, under positive ceilings, they hold exactly when they held of the request |
| Allocation.CeilingCanBeExceeded | src/shared/risk.py:64-67 | two stored splits above a ceiling of 0.7: everything in one market stays at 1, and 0.9 becomes 0.875 |
| Risk.SizeBounds | src/shared/risk.py:124-138 | a size is a cent amount within half a cent of the graded part of the largest amount that fits a share of the market's own part of the budget, a share of the remaining loss allowance, and what is free; graded is half at score 0, all at 1, and linear between |
| Risk.SizeScales | src/shared/risk.py:124-138 | the size grows with the score, from half of the tightest bound to the whole of it, rounded to the cent |
| Risk.SizeWithinRoom | src/shared/risk.py:131-138 | for a loss fraction up to one half a size never exceeds the remaining loss room, dust included |
| Risk.SequentialLossBound | src/shared/risk.py:79-84 | one position at a time, no day ever loses more than its limit, over any sequence of scores, outcomes, allocations and dates; a position open over midnight counts against the day it closes on |
| Risk.SequentialRoom | src/shared/risk.py:79-138 | after n such trades within one day the room left is at least (1-f)^n of the limit, less 0.005/f |
| Risk.RiskManager.MaybeResetDay | src/shared/risk.py:45-54 | counters are zeroed exactly when the date changed |
| Risk.RiskManager.RecordFill | src/shared/risk.py:56-57 | deployment of that market grows by the amount |
| Risk.RiskManager.RecordClose | src/shared/risk.py:59-62 | profit is added and deployment falls by the amount, never below zero |
| Risk.RiskManager.SetAllocation | src/shared/risk.py:64-67 | the stored split is the normalized one |
| Holdings.FailedSnapshotKeepsSubBook | src/desk.py:443-476 | a snapshot that could not be read leaves that market's positions exactly as they were, objects, order and contents |
| Holdings.RefreshKeepsIdentity | src/desk.py:461-495 | known positions keep entry price, amount, score, sector and keys |
| Holdings.RefreshFollowsReports | src/desk.py:461-490 | nothing about a position changes unless an entry of its key reports it: quantity and price together from one entry, a stock's stop never, a crypto position's only to a reported stop that is not zero |
| Holdings.RefreshKeepsMints | src/desk.py:470-495 | no crypto mint ever disappears in a refresh |
| Holdings.RefreshTakesLiveSymbols | src/desk.py:457-468 | after a broker snapshot the stock symbols are the broker's, in its order |
| Holdings.RefreshShowsLive | src/desk.py:461-490 | each reported holding is the one position its key finds, with the reported quantity, price and stop |
| Holdings.RefreshUnique | src/desk.py:455-498 | after snapshots that repeat no key, every stock symbol and every mint is listed once |
| Holdings.RefreshIdempotent | src/desk.py:455-498 | merging the same snapshots twice is merging them once, whatever the book held before |
| Holdings.RefreshBenign | src/desk.py:455-498 | snapshots that import and repeat nothing never lengthen the list |
| Desk.StaysWellFormed | src/desk.py:211-557 | every enabled step keeps the list and the exit pass inside the positions that exist |
| DeskSafety.GateIsCaps | src/shared/risk.py:91-122 | the gate opens exactly when the loss limit is not reached, every capped class the position would join has room, and the market's own part of the budget has more left than the amount, or a billionth less |
| DeskSafety.SizedIff | src/desk.py:212-222 | an open is sized exactly when the gate is open for it and its size rounds to a cent or more |
| DeskSafety.SizedWithinBudget | src/desk.py:212-222 | a sized open is that amount for the checked score, and fits what its market's part of the budget has free, to half a cent |
| DeskSafety.LandedBounds | src/stocks/stock_executor.py:119-153 | what an order puts on the desk never costs more than it was sized at, whole shares and rounding included |
| DeskSafety.BudgetBound | src/desk.py:212-280 | on every interleaving a market's recorded deployment stays within half a cent of the largest budget it has had |
| DeskSafety.DeployedWithinShare | src/shared/risk.py:69-77 | the same in shares: if the allocation has kept a market to at most x of the total so far, its recorded deployment is at most x of the total, and half a cent |
| DeskSafety.CloseRaisesDeployed | src/shared/risk.py:59-62 | a close raises recorded deployment exactly when the holding's cost is negative |
| DeskSafety.ShortImportedAndClosed | src/desk.py:461-476 | a run that does it: a short of any size is imported and closed, and recorded deployment ends at that size, past a budget that never moved |
| DeskSafety.OpenCostWithinBudget | src/shared/risk.py:56-62 | within a day, trims included, what a market's open positions cost never exceeds its recorded deployment, nor its largest budget by more than half a cent |
| DeskSafety.MidnightForgets | src/shared/risk.py:45-54 | a day reset leaves the open cost and forgets the record, so the above survives it exactly when nothing is open at a cost |
| DeskSafety.CoversIff | src/shared/risk.py:45-54 | over any number of days, on every run without imports or shorts, what is open costs no more than is recorded at every await exactly when no reset of the run finds something open at a cost |
| DeskSafety.OpenOverMidnight | src/shared/risk.py:45-54 | a run that has one, under every configuration whose gate and sizing let a first crypto open through, as the defaults do (DefaultsOpen): open, fill, pass midnight, and nothing is recorded for what is open |
| DeskSafety.OpenPositionCaps | src/shared/risk.py:91-122 | on every interleaving that imports no holding, the book plus the order in flight respects the total, market and sector caps, stranded positions included |
| DeskSafety.ImportsIgnoreCaps | src/desk.py:461-468 | a refresh lists at least as many positions as the broker reports, caps or not |
| DeskSafety.ConcurrentLossBound | src/shared/risk.py:99-138 | with closes landing while an open is in flight and positions carried over midnight, realized loss stays within limit + max_open_total·(f·limit + 0.005), if no close loses more than the largest size |
| DeskSafety.CloseRealizesGain | src/desk.py:530-545 | a close moves the day's profit by what the holding is worth now less what it came to at its entry price, nothing if it has no price, and takes its cost off its market's record |
| DeskSafety.LongsAreCovered | src/models.py:151-155 | on every run whose crypto fills come to no more than their orders and whose reports show no negative price and no more of a holding than the desk has, trims included, each position stands at a loss of at most what was paid, and half a cent on shares; every close of the run is covered |
| DeskSafety.LongLossBound | src/shared/risk.py:99-138 | so on those runs the loss bound holds with nothing assumed of what closes lose |
| DeskSafety.TrimGoesUnbooked | src/desk.py:521-528 | a trim moves no profit, and a close after it books what the close alone would have, less the trimmed fraction of it |
| DeskSafety.StockCost | src/stocks/stock_executor.py:119-153 | as many whole shares as the size pays for, one more would not fit, entered at what they cost to half a cent with the stop of the bracket |
| DeskSafety.TrimIsProportional | src/desk.py:527-528 | a trim takes one fraction off quantity, cost and unrealized profit and leaves the unit cost |
| DeskSafety.TightensIff | src/desk.py:513-519 | a new stop lies the given fraction of the price below it, and is above the old one exactly when the old one was further below |
| Orchestrator.TradingDesk.BeginOpen | src/desk.py:212-222 | gate and sizing under the lock are one step of that system |
| Orchestrator.TradingDesk.LandOpen | src/desk.py:229-295 | recording a fill or stranded tokens is one step of it |
| Orchestrator.TradingDesk.RefreshPositions | src/desk.py:436-498 | the merge loops over dicts and lists compute the refresh |
| Orchestrator.TradingDesk.ManagePosition | src/desk.py:500-557 | hold, tighten, trim and close are one step each |
| Orchestrator.TradingDesk.Allocate | src/desk.py:599-611 | storing the allocator's split is one step |
| Watchlist.TapeCounts | src/crypto/scout.py:203-216 | the counters of a watch are those of its tape, each trade one buy or one sell |
| Watchlist.TapeTraders | src/crypto/scout.py:218-219 | it remembers each named trader once, so unique traders never exceed buys plus sells |
| Watchlist.TapeCreator | src/crypto/scout.py:210-214 | it is marked dev_sold exactly when its tape holds a sell by the creator |
| Watchlist.TapeVolume | src/crypto/scout.py:221-224 | its volume is what its tape bought and what it sold, signs dropped |
| Watchlist.TapeLast | src/crypto/scout.py:226-239 | its curve and market cap are those of the last trade that carries them, or the launch's own |
| Watchlist.WatchlistBounded | src/crypto/scout.py:305-343 | on every run the watchlist is within capacity and inside the seen mints, and the subscription covers exactly it when sends succeed |
| Watchlist.NeverEmittedTwice | src/crypto/scout.py:305-343 | no mint is emitted twice, reconnects included |
| Watchlist.OneChance | src/crypto/scout.py:305-343 | a mint seen and not being watched (turned away, judged, or lost with a connection) is never watched or emitted again |
| Watchlist.EmissionEarned | src/crypto/scout.py:327-343 | every token emitted from a watch had its window run out on one connection, no creator sell, enough trades and the filter's approval, with counts, traders, volume, curve and market cap read off the whole tape since its launch |
| Watchlist.EmissionComplete | src/crypto/scout.py:305-343 | conversely, every launch taken up on a connection that holds is emitted, as measured, at the first harvest that finds it over, if it survives |
| Watchlist.HarvestComplete | src/crypto/scout.py:331-343 | no watch is lost: one that is not over stays as it is, and of the finished ones exactly the survivors are emitted |
| Watchlist.Watch.Record | src/crypto/scout.py:203-239 | folding one event in place is one step of the tape's fold |
| Watchlist.Scout.HandleCreate | src/crypto/scout.py:305-318 | a mint is considered once, and turned away by the filter or a full list |
| Watchlist.Scout.Mature | src/crypto/scout.py:327-343 | the harvest loop pops exactly the due watches and returns the survivors in order |
| Watchlist.Scout.OnMessage | src/crypto/scout.py:393-414 | routing a frame and harvesting is one step of the run |
| Watchlist.Scout.Disconnect | src/crypto/scout.py:389-391 | a dropped connection clears the watchlist and keeps what was seen |
| Memory.LoadIsJoin | src/shared/memory.py:51-90 | one lesson per close inside the window, in log order, joined with the latest earlier buy of its market and symbol that no close comes between |
| Memory.LoadTells | src/shared/memory.py:65-88 | each lesson tells its close and that buy: the outcome to the cent, a win when nothing was lost, a return that times the amount paid gives the outcome back, and the buy's score, sector and theme |
| Memory.RecallTopK | src/shared/memory.py:117-137 | recall is a top-k in strict rank order, ties in log order, and everything of the market left out ranks below all of it |
| Memory.SymbolFirst | src/shared/memory.py:114-137 | a lesson on the same symbol is never left out while one on another symbol is kept |
| Memory.MoreAlikeFirst | src/shared/memory.py:117-137 | nor is one that shares all the kept one shares of symbol, sector and theme, and more |
| Memory.AtMostIff | src/shared/memory.py:136 | the tie break on the closing time is the order of strings: a prefix first, else the first character that differs |
| Memory.OutcomeMemory.Load | src/shared/memory.py:51-90 | the loop over records with its dict of open buys computes the fold |
| Memory.OutcomeMemory.Recall | src/shared/memory.py:105-137 | the scoring loop, the sort and the slice return that ranking |
| Agent.AnswerIsFirst | src/base_agent.py:621-666 | a run is answered exactly when some post within the limit replies and all earlier ones failed retryably, and by that reply |
| Agent.OnlyTransientFailuresRetry | src/base_agent.py:614-619 | a failure without a status or with one of eight transient ones leaves the answer to the posts that follow; any other ends the run unanswered |
| Agent.GrokAgent.Run | src/base_agent.py:621-669 | at most max_retries posts, none after a reply or a non-retryable error, a reply or the fallback, and counters that say which |
| Scoring.ScoreMonotone | src/crypto/crypto_scoring.py:236-237 | no component lowers the score by being better |
| Scoring.WeightsTheirOwn | src/crypto/crypto_scoring.py:236-237 | a better component moves the weighted sum by exactly its own weight |
| Scoring.ScoreBetween | src/crypto/crypto_scoring.py:236-237 | the score is an average: it lies between the lowest and highest component, rounded |
| Scoring.ScoreInUnit | src/crypto/crypto_scoring.py:173-237 | with a pulse in the unit interval the score is in it, whatever the bots report |
| Scoring.IsolatedFlag | src/crypto/crypto_scoring.py:119-170 | a coordinated-buys flag without a ring on the tape or measured concentration changes no veto and takes 0.2 off the audit component, down to zero |
| Scoring.RingInIntegers | src/crypto/crypto_scoring.py:64-109 | the ring test in whole numbers: eight buys or more from one to eight wallets, five times the wallets at most twice the buys; the rounding of the ratio decides no case |
| Scoring.CoordinatedVetoIff | src/crypto/crypto_scoring.py:82-170 | a readable, clean audit is vetoed for coordinated buys exactly on such a ring, or on a flag with 0.7 in ten wallets or 0.25 with the deployer |
| Scoring.LiveButNotPaper | src/crypto/crypto_scoring.py:266-335 | live allows what paper blocks exactly on an approval that carries hard evidence |
| Scoring.ModesAgreeIff | src/crypto/crypto_scoring.py:266-335 | the two modes answer alike exactly on an available approval without evidence and on a rejection with it; a pass is advice on paper alone, exactly for silence or an objection without evidence |
| Scoring.EvidenceIff | src/crypto/crypto_scoring.py:256-263 | a checker that answered is taken to have evidence exactly when it says so, when one of its reasons names a scam, or when the end of one reason and the start of the next name one between them |
| Scoring.EvidenceAcrossReasons | src/crypto/crypto_scoring.py:262-263 | the last case arises: the reasons "rug" and "pull" are evidence together, though neither names a scam |
| Scoring.AdviceNeverRaises | src/crypto/crypto_scoring.py:287-312 | an advisory pass never raises the score a position is sized by, costs 0.15 for silence and 0.1 for an objection that names no score, and never follows a hard reject |
| Evaluation.FailClosed | src/desk.py:156-209 | whatever else is said, nothing opens on an auditor or (with a positive minimum) pulse fallback, nor live on a checker fallback |
| Evaluation.DecideMonotone | src/desk.py:156-209 | if one set of reports opens a token, a set no worse on any count opens it too, with a score to size by that is no lower |
| Evaluation.PaperIgnoresSilence | src/crypto/crypto_scoring.py:287-303 | on paper a checker that fell back leaves the decision to the matrix, at 0.15 less |
| Evaluation.ApprovalSizes | src/crypto/crypto_scoring.py:313-335 | an approval that names a score sizes the open by it, in both modes, and opens nothing the matrix did not |
| Evaluation.CryptoPulse.Run | src/crypto/crypto_pulse.py:88-100 | a fresh cached answer, fallbacks included, is returned without a post |
| Evaluation.CryptoDesk.EvaluateToken | src/desk.py:156-209 | end to end from the posts of four bots: the decision above, and no open for any of the fail-closed reasons |

## Left out

- HTTP, RPC, WebSocket, Jito, Jupiter and Alpaca calls, signing, instruction building, program-derived addresses and the discriminator hash: their answers are arguments, their insides are foreign libraries.
- Prompts, JSON parsing, schemas, citations and model selection: an attempt either yields a processed reply or fails with a status.
- IEEE floating point: dollars, prices and fractions are exact reals. `round` is any function that meets the contract stated for it in each module.
- Dashboard, replay, command line, configuration loading, time zones and market hours.
- Screener and stock scoring, and the thresholds of the scout's two filters: the filters are arbitrary predicates.
- dry_run: the model is the desk that trades; a dry run logs buys it never makes.
- Unconfirmed sells that moved tokens or land later, and failed balance reads after a confirmed sell: excluded from the session's steps, since nothing in the book can see them. Failed buys are covered, late fills included.
- Session.CrashRecovery: assumes a fresh executor, an empty log, a mint emitted once (the scout's own promise, Watchlist.NeverEmittedTwice), and in live mode an empty wallet that nobody else feeds a mint still to be opened or on the desk; OpenCrashRecoveryIff says exactly what remains without the last.
- Session.LedgerAgreement: its runs buy each mint at most once, as the scout offers it once; Ledger.BookAgrees covers mints bought again and again, between settled swaps.
- CryptoTrading.CryptoTrader.LandBuy: the log's other record types, which open and close nothing, are the session's Logs steps and are not written here.
- Curve.PathIndependence: amounts are positive and reserves are not negative, as lamports and the account's unsigned words are.
- Evaluation.DecideMonotone: the checker's adjusted score is held fixed, since raising it from zero, which stands for none, can lower the size.
- DeskSafety.BudgetBound: assumes no snapshot reports a holding of negative cost; CloseRaisesDeployed says exactly what such a holding does.
- DeskSafety.OpenCostWithinBudget: the same, within one day and while refreshes import nothing; CoversIff says what happens across days.
- DeskSafety.OpenPositionCaps: assumes refreshes import and repeat nothing, since the code never checks caps there (ImportsIgnoreCaps).
- DeskSafety.ConcurrentLossBound: the same, and that no close loses more than the largest size; LongsAreCovered derives it for long positions that cost no more than their orders and are reported at no more than the desk has.
- DeskSafety.LongsAreCovered: half a cent on shares is real, since their recorded cost is rounded; a crypto fill at a mark price above what was paid is excluded, as on paper.
- Agreement.TrimsDrift: paper only; a live trim takes what the wallet balance says.
- BondingCurve.ParsePack: the creator is its 32 bytes; the source shows them as text through a foreign library.
- Ledger.MovingAverage: live mode only. A paper lot is entered at the mark price, so its amount is not quantity times entry price.
- Watchlist.EmissionEarned: the two clock readings of a finished watch are free arguments; the price change and the rounding of what is measured are left to the filter, which sees the launch and the last curve; a number that does not parse is taken as absent.
- Memory.LoadIsJoin: a buy record carries its sector and theme already picked out of the nested scores.
- Memory.OutcomeMemory.Recall: Python's built-in sort is a stable insertion sort here.
- Position objects live in a store under an identity, not on Dafny's heap, so that two list entries can be one object and a run of the desk is a value.
- Stock TRIM share accounting, a stop that only rises, and hard ceilings on the allocation: the code does not keep these.
- Allocator, narrative, exit-manager and stock-checker fallbacks beyond what the desk does with them.
