# Models and proofs for the backtest core and its engineering scripts

The simulation core of this repository keeps an event-sourced ledger that a second, separately
written accounting check has to agree with before anything is published, sizes fills and runs
batches of orders, and reduces corporate actions. Around it stand scripts that decide whether a
change may go in: a dynamic-import analyser, a two-runner test partition, a writer lease and a
task-usage summary. These files model that code and prove what it is for.

Decimals are coefficient and exponent pairs (`Decimals.Dec`) with `V` as the rational they stand
for; every operation of the source either gives its exact result in range or rejects. Hashes are
injective constructors of what they cover. Rejections are `None`. Objects whose methods update
their fields are classes (`EventLedger`, `Books`, `Reduction`, `BatchRun`, `Analyzer`), loops are
loops, and each is proved equal to a function on values, about which the properties are proved.

- **Ledger** (`Accounts`, `Ledger`, `LedgerSteps`, `LedgerInvariants`, `Replay`, `RunSafety`,
  `RunEvents`, `LedgerFigures`, `LedgerProgress`, `LedgerObject`): fills, obligations and
  corporate-action batches, one hash chain, append and replay; what holds in every reachable ledger
  and over every run, and which events a reachable ledger accepts.
- **Audit** (`Accounting`, `AuditCompleteness`): the second transition function. It decides the
  after-balance, and it never rejects what the ledger proposes.
- **Corporate actions** (`CorporateActions`, `ActionSelection`, `SelectionAdmission`, `BatchAudit`,
  `ReducerAgreement`, `BatchInvariants`, `BatchEffects`, `BatchShares`, `BatchMarks`,
  `OpeningAcceptance`, `ReducerObject`): what a batch selects, the reducer in decimals, the recount
  in rationals, their agreement, and what a batch does to shares, claims, orders and cash.
- **Fills and simulator** (`Contracts`, `Fills`, `SaleReserve`, `Simulator`, `SimulatorProofs`, `SimulatorRows`,
  `SimulatorAttempts`, `SimulatorProgress`, `SimulatorRefinement`, `SimulatorObject`): sizing, one
  batch run, what it attempts, conservation, when it succeeds, and the posting of a run's fills to a
  ledger.
- **Import analyser** (`ImportLanguage`, `DynamicImports`, `ImportSoundness`, `ImportPrecision`,
  `ImportExactness`, `ImportBoundary`, `ImportAnalyzer`): a small language with Python's own meaning
  of the two loader modules, the analysis as flows, soundness, least fixed points, what is recorded,
  and where the claims end.
- **Partition** (`LargestFirst`, `Partition`, `Receipts`): the greedy split with its 7/6 bound,
  and the verification of what the two runners report.
- **Writer lease** (`LeaseEvidence`, `LeaseProtocol`, `LeaseSafety`, `LeaseProgress`): the files of
  a lease, and the protocol as single file-system steps of any number of processes, each of which
  may fail or stop anywhere; what can never happen, and what an undisturbed process gets done.
- **Task usage** (`TaskUsage`, `TaskUsageRows`, `TaskUsageLoops`): one agent tree and its totals.

Two properties that one might expect are false of the code and are stated as such.

The import analyser does not follow every way to a loader. `ImportBoundary` proves what it does
follow: whatever names a file starts with, if the head of each of its loops absorbs the states at
its `continue`s, every load by an import statement, and by a loader reached through names,
imports, loader attributes and conditional expressions, is recorded
(`PassingLoadsNothingForbidden`). If the text also shows no other way to a loader, and nothing it
leaves open is one, these are all the loads there are (`PlainRunsLoadNothingForbidden`). The
conditions suffice; they are not necessary, since what fails them may be dead code. What falls
outside them can pass and still load what is forbidden: importlib's own `__import__`, a star
import, a display, an attribute that was stored to, a boolean operator, and a binding that only a
`continue` carries out of a loop, each with its file (`ImportlibImportMissed`, `FromImportMissed`,
`StarImportMissed`, `DisplayMissed`, `AttributeStoreMissed`, `BooleanOperatorMissed`,
`ContinueMissed`). The analyser's description asks for
manual review of unrestricted control flow (`scripts/check_dependency_direction.py:144-154`), but
reports nothing about these files.

A ledger's last prefix hash covers obligation amounts in normal form, so it does not tell two
spellings of one amount apart: `Replay.SpellingIsNotSealed` gives the case, and
`Replay.LastPrefixSeals` with `Replay.CanonicalLoses` says exactly what equal prefix hashes mean.

## Model

| member | source | states |
|---|---|---|
| LedgerObject.EventLedger.Create | mytradingalpha/backtest/ledger.py:2063-2097 | a ledger is opened exactly for headers whose opening cash and times are in range, in its opening state |
| LedgerObject.EventLedger.Append | mytradingalpha/backtest/ledger.py:2154-2188 | a known event changes nothing, a new one is added once its proposal passed the audit, anything else is rejected and changes nothing |
| LedgerObject.EventLedger.Replay | mytradingalpha/backtest/ledger.py:2135-2152 | too many events change nothing; otherwise replay stops at the first rejected event and keeps what was accepted before it |
| LedgerObject.Books.ApplyFill | mytradingalpha/backtest/ledger.py:1815-1914 | the copied position, ownership and slot dictionaries, updated in place, end as the posted fill demands, with its cash and fee total |
| LedgerObject.Books.ApplyObligation | mytradingalpha/backtest/ledger.py:1917-1964 | the copied obligations end as the posting demands, with its cash, income and expense |
| Replay.AuditNeverRejects | mytradingalpha/backtest/ledger.py:2154-2188 | in every reachable ledger a new event is accepted exactly when the ledger can propose its effect: the audit never turns a proposal down |
| Replay.AppendIsValid | mytradingalpha/backtest/ledger.py:2154-2188 | appending leads from reachable ledgers to reachable ledgers: the invariants hold and the ledger is the replay of its own events from its header |
| Replay.RunIsValid | mytradingalpha/backtest/ledger.py:2135-2152 | the same over whole runs |
| Replay.ReappendIsNothing | mytradingalpha/backtest/ledger.py:2154-2168 | appending an accepted event again changes nothing |
| Replay.EventsDetermineLedger | mytradingalpha/backtest/ledger.py:1978-2051 | two reachable ledgers with one header and one event list are the same |
| Replay.ReplayConverges | mytradingalpha/backtest/ledger.py:2135-2152 | replaying a ledger's events on a fresh ledger, or on one that holds any first part of them, ends in that ledger |
| Replay.ReplayKeepsAcceptedPrefix | mytradingalpha/backtest/ledger.py:2135-2152 | a replay accepts everything, or leaves exactly what came before an event that cannot be appended |
| Replay.ReplayRebuilds | mytradingalpha/backtest/ledger.py:2135-2152 | a complete replay on a fresh ledger ends in a ledger that its own events rebuild, whatever repetitions the input had |
| Replay.LastPrefixSeals | mytradingalpha/backtest/ledger.py:551-553 | two reachable ledgers end in the same prefix hash exactly when their headers and whole event lists serialize alike |
| Replay.CanonicalLoses | mytradingalpha/backtest/ledger.py:847-1003 | two events serialize alike exactly when they are equal but for the spelling of an obligation's amount |
| Replay.SpellingIsNotSealed | mytradingalpha/backtest/ledger.py:2154-2168 | an obligation amount written with one more trailing zero has the same prefix hash, yet appending it is a conflict |
| LedgerProgress.FillAccepted | mytradingalpha/backtest/ledger.py:1815-1914 | a reachable ledger accepts a new fill exactly when its record is sound and of this run, it is next in the chain and within the window, no closure, cancellation or later split stands against it, its order is new or a good-till-cancelled one going on in a later session, its slot has room, and cash and shares pay for it within every range: told in values |
| LedgerProgress.PostingAccepted | mytradingalpha/backtest/ledger.py:1917-1964 | the same for postings: a positive amount, next in the chain and within the window and the limits, that creates an obligation there is room for, or settles part of one that is due and of this kind out of the cash there is |
| LedgerProgress.PaymentAccepted | mytradingalpha/backtest/corporate_actions.py:1454-1469 | the same for payment batches: on this balance, for a session of the bound calendar, and cash has room for all that has fallen due |
| LedgerProgress.OpeningAccepted | mytradingalpha/backtest/ledger.py:1978-2051 | the same for openings: exactly those that the reducer accepts and that leave no more than 256 positions and instruments and receivables within the range of money; what is owed stays |
| LedgerFigures.FiguresStayInRange | mytradingalpha/backtest/ledger.py:1978-2051 | in every reachable ledger cash, income, expense, fees, totals, obligations and claims are amounts of money, positions are holdings, cumulative and slot quantities are quantities |
| RunSafety.EveryRunBalances | mytradingalpha/backtest/ledger.py:1978-2051 | in every reachable ledger, cash + receivables - liabilities + net bought notional + fees = opening cash + income - expense + all principal claimed |
| RunSafety.EveryRunTelescopes | mytradingalpha/backtest/ledger.py:1843-1913 | in every reachable ledger, total fees are the sum over intents of the fee due at the cumulative quantity, which is the sum of the intent's fills and within its order; each session slot is the sum of the fills in it and within the share cap |
| RunSafety.ClosureIsForever | mytradingalpha/backtest/ledger.py:1774-1787 | over every run: closed instruments stay closed, hold nothing and are not filled again, cancelled intents never fill, and later fills on a split instrument were decided no earlier than the split's opening |
| RunSafety.ClaimsSettleOnce | mytradingalpha/backtest/corporate_actions.py:1355-1367 | over every run: no claim is lost, changed or unpaid again; each stands against one receivable of its amount, outstanding in full until paid and then at zero; no manual posting touches it |
| RunSafety.BatchTakesEffect | mytradingalpha/backtest/corporate_actions.py:1369-1439 | every selected split sets its boundary, every delisting and merger closes its instrument, and all three cancel every order from before the opening |
| RunSafety.AppliedIsNeverSelected | mytradingalpha/backtest/corporate_actions.py:1239-1243 | an action or merger already applied is not selected again however often it is submitted |
| RunEvents.EveryEventIsSensible | mytradingalpha/backtest/ledger.py:1978-2051 | in every reachable ledger, every fill is priced at its reference with spread and slippage added to a purchase and taken from a sale, within its limit, and was decided and created before its session opened; every batch used only evidence available at its opening; events stand in the order of their times and within the window, and the balance carries the last economic time and the greatest time of observation |
| RunEvents.PaymentSettles | mytradingalpha/backtest/corporate_actions.py:1454-1463 | appending a payment to a reachable ledger pays exactly the unpaid claims whose opening has come, and cash grows by what they add up to |
| RunEvents.OpeningFallsDue | mytradingalpha/backtest/corporate_actions.py:1355-1367 | appending an opening keeps every claim and adds only claims of its selected actions, each due, like the receivable behind it, at the opening of the first scheduled session on or after the payable date |
| LedgerInvariants.StepHolds | mytradingalpha/backtest/ledger.py:1978-2051 | every accepted event keeps the balance identity, the fee and slot sums, the claims, and the emptiness of closed instruments |
| LedgerInvariants.OpenHolds | mytradingalpha/backtest/ledger.py:2063-2097 | a fresh ledger satisfies them all |
| LedgerSteps.ObligationKeeps | mytradingalpha/backtest/ledger.py:1917-1964 | postings leave action history, positions, ownership, caps and all claims as they were |
| Accounting.AuditDecides | mytradingalpha/backtest/accounting.py:146-324 | any two after-balances the audit accepts for one before-balance and event agree in every accounting field |
| Accounting.FillAuditDecides | mytradingalpha/backtest/accounting.py:60-114 | the same for fills, where the audit recomputes owner record, fee increment, cash and position itself |
| Accounting.ObligationAuditDecides | mytradingalpha/backtest/accounting.py:146-324 | the same for obligations |
| Accounting.BatchAuditDecides | mytradingalpha/backtest/accounting.py:343-505 | the same for batches, where the after-balance is compared with a count in rationals |
| AuditCompleteness.AuditAccepts | mytradingalpha/backtest/accounting.py:146-324 | the audit accepts every state the ledger proposes from a state in which the invariants hold |
| ReducerAgreement.ReducersAgree | mytradingalpha/backtest/accounting.py:343-505 | on every batch the decimal reducer accepts, the rational recount succeeds and gives the same cash, positions, obligations, income, claims, symbols, closures, cancellations and split references |
| BatchInvariants.BatchKeeps | mytradingalpha/backtest/corporate_actions.py:1333-1469 | a batch keeps every claim backed by its receivable, loses no history, moves income and principal exactly as receivables and cash move, and stores no zero position |
| BatchInvariants.ChosenAreOffered | mytradingalpha/backtest/corporate_actions.py:1191-1286 | what is selected was submitted, is the newest of its revisions and was not applied before |
| BatchEffects.DueIs | mytradingalpha/backtest/corporate_actions.py:1173-1181 | where each witnessed successor is the next scheduled date, something payable on a date falls due at the opening of the first scheduled session on or after it; it has no due date exactly where neither the date nor its successor is witnessed |
| BatchEffects.PaymentPaysDue | mytradingalpha/backtest/corporate_actions.py:1454-1463 | an accepted payment batch pays exactly the unpaid claims whose due opening has come, adds what they add up to to cash, and leaves other claims, postings, shares and income as they were |
| BatchEffects.OpeningClaims | mytradingalpha/backtest/corporate_actions.py:1355-1367 | an accepted opening keeps every claim and adds only claims of its selected actions, unpaid, of their kind, due at the opening of the first scheduled session on or after the payable date |
| BatchShares.SplitConverts | mytradingalpha/backtest/corporate_actions.py:1391-1407 | after a split the shares of its instrument are the old ones times the ratio, whole or in the most whole lots as its terms say |
| BatchShares.MergerMoves | mytradingalpha/backtest/corporate_actions.py:1426-1439 | a merger moves the source's shares, at its ratio, to those of the target and leaves none |
| BatchShares.UntouchedStays | mytradingalpha/backtest/corporate_actions.py:1333-1469 | shares of an instrument that no selected action or merger touches stay as they were |
| BatchShares.DividendPays | mytradingalpha/backtest/corporate_actions.py:1440-1451 | a dividend claims its amount on each share held after the batch's split, or before the split for one declared so, and nothing if that is nothing |
| BatchShares.PrincipalPays | mytradingalpha/backtest/corporate_actions.py:1391-1425 | a split with cash in lieu claims its price for what the whole lots leave over, a delisting with a settlement its amount for each share |
| BatchMarks.OpeningMarks | mytradingalpha/backtest/corporate_actions.py:1369-1439 | an opening closes exactly what it delists or merges away, sets a boundary at its opening exactly for what it splits, and cancels exactly the orders on these, outstanding from before the opening or open in the ledger, earlier cancellations keeping their reasons |
| OpeningAcceptance.SplitAccepted | mytradingalpha/backtest/corporate_actions.py:1391-1409 | in a balance with room, an opening whose one new action is a split is accepted exactly when the instrument is open, its orders can be cancelled, the converted shares can be kept as the terms say, shares held have a reference of this run from the session before, and what is paid in lieu has its session and a fresh claim |
| OpeningAcceptance.TickerChangeAccepted | mytradingalpha/backtest/corporate_actions.py:1410-1419 | one whose one new action is a ticker change: exactly when the instrument is open and the old symbol is its current one |
| OpeningAcceptance.DelistingAccepted | mytradingalpha/backtest/corporate_actions.py:1420-1425 | one whose one new action is a delisting: exactly when the instrument is open, its orders can be cancelled, and a settlement has its session and, for shares held, a fresh claim |
| OpeningAcceptance.DividendAccepted | mytradingalpha/backtest/corporate_actions.py:1440-1453 | one whose one new action is a dividend: exactly when it is declared on shares as they now are, its date has its session, and it pays nothing or an amount on the grid of money, within the range of income, under a fresh claim |
| OpeningAcceptance.MergerAccepted | mytradingalpha/backtest/corporate_actions.py:1426-1439 | one whose one piece of news is a merger: exactly when both instruments are open, the orders on the source can be cancelled, and the target then holds at most a million million shares in millionths |
| ActionSelection.SelectActions | mytradingalpha/backtest/corporate_actions.py:1191-1286 | the grouping, revision and merger loops with their sorts reach the verdict and the selection that the batch function is defined by |
| ActionSelection.CheckGroup | mytradingalpha/backtest/corporate_actions.py:1218-1235 | the loop over one identifier's records accepts exactly groups of eligible records, each pair of one kind with the higher revision later by every timestamp, and returns the newest |
| ActionSelection.SelectionIsComplete | mytradingalpha/backtest/corporate_actions.py:1191-1286 | a selection is sorted by priority, instrument and identifier, holds exactly the newest revision of every submitted action not applied before, one for each identifier, and exactly the mergers not applied before |
| ActionSelection.OneSelection | mytradingalpha/backtest/corporate_actions.py:1191-1286 | there is one such selection |
| SelectionAdmission.SelectAdmits | mytradingalpha/backtest/corporate_actions.py:1191-1286 | a batch passes the selection exactly when it is for a session of the ledger's calendar on this very balance and, at an opening, the records of each action form a series of available revisions, what was applied comes unchanged, what is new takes effect at this opening with its terms, after everything so far, goes together and cancels at most 64 orders more |
| SelectionAdmission.SelectionOrder | mytradingalpha/backtest/corporate_actions.py:1191-1286 | splits take effect first, then ticker changes, delistings and dividends, those of a kind by instrument and then by identifier; mergers by identifier |
| SelectionAdmission.ConversionIs | mytradingalpha/backtest/corporate_actions.py:1445-1449 | a dividend declared on shares before a split passes exactly when that split, on its instrument and at its ratio, is among the selected actions |
| ReducerObject.Reduction.Claim | mytradingalpha/backtest/corporate_actions.py:1355-1367 | the nested update records claim and receivable, and income only for dividends |
| ReducerObject.CancelStale | mytradingalpha/backtest/corporate_actions.py:1369-1379 | the loops over outstanding intents and open owners cancel exactly the stale orders on the instrument, each under its first reason, and reject an intent of another run |
| ReducerObject.Reduction.CancelOrders | mytradingalpha/backtest/corporate_actions.py:1369-1379 | the nested update leaves earlier cancellations with their reasons, gives every other stale order this reason, and touches nothing else, or rejects when the limit is passed |
| ReducerObject.Reduce | mytradingalpha/backtest/corporate_actions.py:1333-1469 | the loops over mergers, actions, dividends and payments compute what the batch function says; what that is: `BatchShares`, `BatchEffects`, `BatchMarks` and `OpeningAcceptance` |
| ReducerObject.CheckActions | mytradingalpha/backtest/accounting.py:343-505 | the audit's loops accept exactly the after-balances that match the rational recount |
| Decimals.WireIsCanonical | mytradingalpha/contracts/orders.py:256-272 | two decimals serialize alike exactly when they have the same value |
| Decimals.FromRationalFinds | mytradingalpha/backtest/accounting.py:395-397 | a rational that some money decimal states exactly is found as an exact decimal |
| Contracts.FeeDueMonotone | mytradingalpha/contracts/orders.py:602-607 | the fee due, rounded half to even in cents, never falls as the cumulative quantity grows, and is nothing at zero |
| Contracts.PriceInRange | mytradingalpha/backtest/costs/__init__.py:150-232 | no valid policy moves a valid reference price out of the execution range |
| Contracts.SidesPay | mytradingalpha/backtest/costs/__init__.py:150-232 | a purchase is priced at the reference plus spread and slippage in ten-thousandths of it, a sale at the reference less both: no purchase below the reference and no sale above it |
| Contracts.FeeIsNearestCent | mytradingalpha/contracts/orders.py:602-607 | what an order owes is the commission on all of it, at least the minimum, to the nearest cent and the even one of two |
| Fills.SearchBuy | mytradingalpha/backtest/fills.py:1075-1098 | the low/high loop returns the largest affordable lot count up to its bound |
| Fills.BestLotsIsBest | mytradingalpha/backtest/fills.py:727-733 | that count is affordable and none above it, within the bound, is |
| Fills.BuyIsOptimal | mytradingalpha/backtest/fills.py:992-1123 | a buy that is not all-or-nothing fills the greatest whole-lot count that remaining quantity and cap hold and cash pays for, fee included, and otherwise the cap or order has no room for one lot, the limit is not met, or no lot is affordable |
| Fills.BuyFills | mytradingalpha/backtest/fills.py:992-1123 | such a buy is filled exactly when the limit is met and some number of lots can be had |
| Fills.FokIsWhole | mytradingalpha/backtest/fills.py:1056-1074 | an all-or-nothing order is filled whole exactly when what remains of it is whole lots, fits cap and shares, meets the limit and is affordable; otherwise the first of these that fails is named |
| Fills.SaleSellsAll | mytradingalpha/backtest/fills.py:1134-1158 | a sale that is not all-or-nothing sells every lot that order, cap and shares hold if the limit is met and the cash left is not negative; unless a share's commission is above its price, it sells nothing otherwise |
| SaleReserve.CutSells | mytradingalpha/backtest/fills.py:1159-1182 | where that commission is above the price and the cash does not bear all the lots, the sale takes the most that cash and fees charged bear, failing that the most they bear with half a cent in reserve, and nothing exactly when neither are borne |
| SaleReserve.CutIsNearlyMost | mytradingalpha/backtest/fills.py:1159-1182 | lots that the cash would have borne beyond what such a sale sells and one lot more cost at most a cent |
| SaleReserve.ReserveBears | mytradingalpha/backtest/fills.py:1159-1182 | lots within the reserved budget are always borne once the commission has passed the order minimum: half a cent covers the rounding of the fee |
| Fills.FilledPays | mytradingalpha/backtest/fills.py:807-918 | every fill is priced at the reference with spread and slippage added to a purchase and taken from a sale, within its limit, and pays what the fee due grows by |
| Fills.FilledFits | mytradingalpha/backtest/fills.py:807-918 | every fill is whole lots or the whole remainder, within order, cap and shares, affordable, marketable and in its order's window; an all-or-nothing order fills whole |
| Fills.BuiltFillsPass | mytradingalpha/backtest/fills.py:749-799 | a decided fill is lost to the fill's own validation exactly when a slot cap above the policy's share cap let it grow past that cap |
| Fills.SimulateSession | mytradingalpha/backtest/fills.py:992-1123 | the fill model with its search loop takes the decision of the sizing rule, which `BuyIsOptimal`, `BuyFills`, `FokIsWhole`, `SaleSellsAll`, `SaleReserve.CutSells` and `FilledPays` describe |
| Simulator.BuildAttemptSessions | mytradingalpha/backtest/fills.py:1242-1280 | stepping from session to session finds the sessions an order attempts, or finds one unwitnessed: those of `SimulatorAttempts.AttemptsAre` |
| SimulatorAttempts.AttemptsAre | mytradingalpha/backtest/fills.py:1242-1280 | an order attempts exactly a first session, the scheduled one of its binding, and for a good-till-cancelled order with something left each witnessed successor in turn, stopping only where the last session reaches horizon or expiry or its successor lies beyond one of them; every other order attempts at most its first |
| SimulatorAttempts.GtcAttemptsAll | mytradingalpha/backtest/fills.py:1242-1280 | where the calendar has no gaps, a good-till-cancelled order attempts every scheduled session from its first up to horizon and expiry, and no other |
| SimulatorAttempts.ScheduleIs | mytradingalpha/backtest/fills.py:1432-1446 | the schedule holds exactly one row for each attempt of each order, in order of day, instrument and intent |
| SimulatorAttempts.ScheduleExists | mytradingalpha/backtest/fills.py:1432-1446 | with a schedule every order's sessions are witnessed; there is none only if some order's are not or if the attempts would be more than 65536 rows |
| SimulatorAttempts.RunIsItsAttempts | mytradingalpha/backtest/fills.py:1447-1545 | the fills of a run are those of the rows of all attempts in order of day, instrument and intent, each row facing exactly what the fills before it left of cash, shares, cap and order; an order still open at one of its sessions is tried there |
| SimulatorAttempts.RunBuysMost | mytradingalpha/backtest/fills.py:1447-1545 | at each row, a purchase that is not all-or-nothing takes the greatest number of lots that order, cap and cash then allow, and none exactly when there is no such number or the limit is not met |
| SimulatorAttempts.RunIsPriced | mytradingalpha/backtest/fills.py:1447-1545 | every purchase of a run pays spread and slippage on top of the reference price, every sale pays them out of it |
| SimulatorAttempts.RunEndsOrders | mytradingalpha/backtest/fills.py:1540-1563 | every order of a run ends filled when nothing is left; one that may go on stays open or, if its life ends by the close of the horizon, lapses; a day order or one attempted too early lapses; any other is cancelled |
| SimulatorAttempts.RunKeepsOrders | mytradingalpha/backtest/fills.py:1587-1599 | a run ends with every order it was given, each once and with its own intent |
| SimulatorProgress.RunSucceeds | mytradingalpha/backtest/fills.py:1288-1599 | a run on valid inputs succeeds if every attempted session is witnessed, every attempt not too early has its outcome, and cash and holdings start below 0.8 and 0.7 of their ranges |
| SimulatorProofs.RunConserves | mytradingalpha/backtest/fills.py:1447-1545 | final cash is opening cash less what the fills cost; final holdings are opening holdings plus shares bought less sold; nothing is negative; each slot's cap and its fills make up the policy's cap |
| SimulatorProofs.RunFillsOrders | mytradingalpha/backtest/fills.py:1587-1599 | remaining + cumulative = ordered for every intent, its cumulative is the sum of its fills, its fee the fee due, and all-or-nothing orders are filled whole or not at all |
| SimulatorRows.ScheduleIsChronological | mytradingalpha/backtest/fills.py:1432-1446 | attempts run in time order, each order on strictly later sessions |
| SimulatorRefinement.RunPostsToLedger | mytradingalpha/backtest/fills.py:1447-1545 | the fills of a run from empty holdings, posted in order to a fresh ledger with the same cash and a wide enough window, are all accepted and leave the same cash, positions, and each intent's cumulative quantity and fee |
| SimulatorObject.BatchRun.Try | mytradingalpha/backtest/fills.py:1447-1545 | one attempt, updating orders, cash, holdings and caps in place, does what the row function says, or rejects the run |
| SimulatorObject.GatherRows | mytradingalpha/backtest/fills.py:1432-1446 | the gathered and sorted attempts are the schedule |
| SimulatorObject.RunBatch | mytradingalpha/backtest/fills.py:1288-1599 | the whole loop computes the run |
| ImportAnalyzer.AnalyzeFile | scripts/check_dependency_direction.py:144-257 | the visitor over a whole file ends with exactly the bindings and recorded calls of the flow analysis |
| ImportAnalyzer.Analyzer.VisitCall | scripts/check_dependency_direction.py:701-726 | a call is recorded once for each loader its function may be bound to, with the name that `ImportExactness.RecordIsExact` describes |
| ImportAnalyzer.Analyzer.MergeBreakState | scripts/check_dependency_direction.py:240-251 | a break's state joins the innermost collector and no other |
| ImportAnalyzer.Analyzer.AssignTargets | scripts/check_dependency_direction.py:277-288 | targets are stored to from left to right |
| ImportAnalyzer.Analyzer.VisitIf | scripts/check_dependency_direction.py:317-322 | both branches start from the bindings after the test, and their ends are joined |
| ImportAnalyzer.Analyzer.LoopBodyFixedPoint | scripts/check_dependency_direction.py:460-479 | the rounds of a `for` end, at the head, breaks and calls of the flow analysis |
| ImportAnalyzer.Analyzer.VisitFor | scripts/check_dependency_direction.py:484-503 | a `for` with its else block and breaks computes its flow |
| ImportAnalyzer.Analyzer.TestedFixedPoint | scripts/check_dependency_direction.py:507-525 | the rounds of a `while` end, and the join of the states in which its test was evaluated is the last head |
| ImportAnalyzer.Analyzer.VisitWhile | scripts/check_dependency_direction.py:507-538 | a `while` with its else block and breaks computes its flow |
| DynamicImports.HeadGrows | scripts/check_dependency_direction.py:460-479 | a round that does not settle strictly enlarges the head in the finite lattice of program names and five binding values |
| ImportSoundness.LoopHeadAbsorbs | scripts/check_dependency_direction.py:460-479 | the head a loop stops at absorbs the entry state and the body's exit, and no break or call seen on the way is lost |
| ImportSoundness.EvalSound | scripts/check_dependency_direction.py:170-181 | a value that names, imports, loader attributes and conditional expressions led to is among the computed bindings, and every load an evaluation makes through such a value is recorded |
| ImportSoundness.LoadSound | scripts/check_dependency_direction.py:701-726 | the module such a loader call imports is the recorded one, or the call is recorded for review |
| ImportSoundness.ExecSound | scripts/check_dependency_direction.py:317-538 | every execution of a statement, however it ends, stays inside the computed states and makes no such load unrecorded, provided that loop heads absorb the states at their `continue`s |
| ImportPrecision.LoopHeadIsLeast | scripts/check_dependency_direction.py:460-479 | the head a loop stops at is the least state that absorbs the entry and its own round |
| ImportExactness.RecordIsExact | scripts/check_dependency_direction.py:701-726 | for either followed loader, a call is recorded for review exactly when what it loads depends on what its text leaves open, and otherwise with the one name it loads |
| ImportExactness.AnalysisIsExact | scripts/check_dependency_direction.py:144-257 | everything the analysis of a whole file records is a call of its text, with the one name that its executions through a followed loader load, or without a name where the text leaves that open |
| ImportExactness.FoundIsExact | scripts/check_dependency_direction.py:701-726 | a statement's analysis records exactly its calls whose function may be bound to a followed loader, each with the name it loads |
| ImportExactness.LabelComesTrue | scripts/check_dependency_direction.py:170-181 | every loader the analysis binds an expression to is what the expression evaluates to in some environment that the bindings cover |
| ImportExactness.RecordComesTrue | scripts/check_dependency_direction.py:701-726 | every record of a call is a load that some such execution makes |
| ImportExactness.RelativeNamesGoUp | scripts/check_dependency_direction.py:701-726 | a name with leading dots is relative to the package one fewer levels up, and there must be one |
| ImportExactness.ForbiddenIs | scripts/check_dependency_direction.py:729-799 | the upstream package may not import ours nor ours the upstream one, by top-level name; the adapter may import both |
| ImportBoundary.ProgramSound | scripts/check_dependency_direction.py:144-726 | the same for every run of a whole file, from any initial names in which `__import__` is the only loader |
| ImportBoundary.PassingLoadsNothingForbidden | scripts/check_dependency_direction.py:729-799 | a file without violations whose loop heads absorb its `continue`s imports nothing forbidden to it by a statement or a directly reached loader, in any run |
| ImportBoundary.PlainRunsLoadNothingForbidden | scripts/check_dependency_direction.py:729-799 | if such a file takes no `__import__` from importlib, imports no star from it and calls or assigns no boolean operator, then runs in which no opaque value is a loader or a loader module load nothing forbidden at all |
| ImportBoundary.ImportlibImportMissed | scripts/check_dependency_direction.py:173-176 | a file that calls `importlib.__import__` passes although a run loads a forbidden module |
| ImportBoundary.FromImportMissed | scripts/check_dependency_direction.py:270-275 | the same for `__import__` imported from importlib |
| ImportBoundary.StarImportMissed | scripts/check_dependency_direction.py:270-275 | the same for a loader that a star import binds |
| ImportBoundary.DisplayMissed | scripts/check_dependency_direction.py:170-181 | the same for a loader module taken out of a list |
| ImportBoundary.AttributeStoreMissed | scripts/check_dependency_direction.py:277-294 | the same for a loader stored under another attribute of its module |
| ImportBoundary.BooleanOperatorMissed | scripts/check_dependency_direction.py:170-181 | the same for a loader reached through a boolean operator |
| ImportBoundary.ContinueMissed | scripts/check_dependency_direction.py:460-503 | the same for a loader module bound before a `continue`, in a `for` that ends |
| Partition.PartitionTests | scripts/ci_partition.py:489-509 | the lists are the heaviest-first assignment in collection order; the larger load is at most 7/6 of that of any split; the loads differ by at most one test's weight; only collections of fewer than two tests are rejected |
| Partition.GreedyBound | scripts/ci_partition.py:500-505 | neither greedy load exceeds 7/6 of the larger side of any split of the same tests |
| Partition.ShardSums | scripts/ci_partition.py:498-508 | the running loads are what the two lists weigh, and both are positive from two tests on |
| Partition.EachGoesToTheLighter | scripts/ci_partition.py:500-505 | each test goes to the first shard exactly when, of the tests heavier than it and those as heavy with a smaller id, the first shard's share weighs no more than the second's |
| Partition.SevenSixthsIsReached | scripts/ci_partition.py:500-505 | weights 3, 3, 2, 2, 2 reach the bound |
| Receipts.VerifyValues | scripts/ci_partition.py:361-427 | receipts are accepted exactly when each shard ran cleanly just the tests dealt to it and a serial run saw the same outcomes; the coverage then holds each collected test once, by node id, with its reported outcome |
| Receipts.ValidateReceipt | scripts/ci_partition.py:321-358 | a valid receipt is a completed run of some tests of the collection, in its order, one clean outcome for each |
| Receipts.VerifiesIsOneRun | scripts/ci_partition.py:914-955 | receipts are accepted exactly when one set of clean results, dealt out by the partition, is what every run wrote |
| Receipts.CoverageIsTheResults | scripts/ci_partition.py:399-427 | the coverage depends on the results alone, not on weights or on how the tests were shared out |
| Receipts.NoFailureIsAccepted | scripts/ci_partition.py:321-358 | no accepted receipt or coverage holds an outcome with a failed setup, call, teardown or subtest, or one that was called though skipped or not called though set up |
| LeaseSafety.MoveKeepsSafe | scripts/writer_lease.py:527-544 | every file-system step of every process keeps the invariant, and an acquisition ends only when no lease is held |
| LeaseSafety.LeasesNeverOverlap | scripts/writer_lease.py:886-1057 | however steps of any number of processes interleave, fail and stop, between the ends of two acquisitions the first lease was released |
| LeaseSafety.IncompleteBlocks | scripts/writer_lease.py:527-544 | once a process stopped inside the lock, or the lock is free and the active record belongs to no complete unreleased chain, no acquisition, verification or release ends ever after and no file changes |
| LeaseSafety.SuccessIsRecorded | scripts/writer_lease.py:965-1057 | an operation that ends well leaves its event as the last of a complete chain, with the record present unless it was a release; when an operation ends well is `LeaseProgress` |
| LeaseProgress.Acquires | scripts/writer_lease.py:886-963 | with the lock free, an undisturbed acquisition succeeds exactly when no record exists, every archived lane is a released chain of its lease, and the events directory is empty or holds a released chain that the archive has room for and does not hold yet; the lane is then archived and the lease active; otherwise no file has changed |
| LeaseProgress.Proceeds | scripts/writer_lease.py:965-1057 | an undisturbed verification or release of a held lease succeeds exactly when the lifecycle allows it: a checkpoint just passed changes nothing, any other adds its event, a release adds its event and removes the record |
| LeaseProgress.Refuses | scripts/writer_lease.py:965-1057 | a lease that is not held is neither verified nor released, and no file changes |
| LeaseProgress.NextWriterCanAcquire | scripts/writer_lease.py:766-774 | whatever any number of processes did from a fresh machine, once the lock is free and no record exists, only room in the archive for the last lane can stand in the way of the next acquisition |
| LeaseProgress.FailureLeaves | scripts/writer_lease.py:527-544 | a process whose step fails, before or after its effect, is on its way out or stays with the lock, with at most this one step's effect on the files, and ends as if done exactly if that was the last one of its operation |
| LeaseSafety.ArchiveStaysIntact | scripts/writer_lease.py:804-829 | with the lock free and nothing broken, every archived lane is the released chain of its lease |
| LeaseSafety.ArchivedLanesStay | scripts/writer_lease.py:804-829 | no step touches an archived lane other than the one being filled |
| LeaseEvidence.ScanEvents | scripts/writer_lease.py:679-718 | the scan returns the one chain whose files are exactly the lane's, or rejects |
| LeaseEvidence.ScanFinds | scripts/writer_lease.py:679-718 | a lane that holds a chain scans as that chain, so it holds no other |
| LeaseEvidence.ChainMeans | scripts/writer_lease.py:721-740 | in a valid chain events are numbered and hash-linked, of one identity, acquired first and only first, released at most at the end after a writer's start, with checkpoints that never go back |
| LeaseProgress.ChainsAre | scripts/writer_lease.py:721-740 | the chains accepted are exactly those: told by positions and predecessors, without the checkpoint ranks |
| LeaseEvidence.ValidateLifecycle | scripts/writer_lease.py:721-740 | the loop accepts exactly the lifecycles that the chain predicate allows |
| LeaseEvidence.AppendEvent | scripts/writer_lease.py:777-801 | an append succeeds exactly on lanes that may go on, and the lane then scans as the old chain and the new event |
| LeaseEvidence.AppendExtends | scripts/writer_lease.py:777-801 | appending extends a valid chain to a valid chain, released exactly by a release |
| LeaseEvidence.ArchiveLane | scripts/writer_lease.py:804-829 | a released lane moves whole under its lease and leaves every other archived lane; an empty one moves nothing |
| LeaseEvidence.ArchivedIsRetrievable | scripts/writer_lease.py:1060-1067 | after archiving, the lane is found under its lease and every earlier lane is found unchanged |
| LeaseEvidence.ExportEvidence | scripts/writer_lease.py:1070-1114 | evidence is exported exactly for released, inactive leases that scan, and what is exported validates |
| LeaseEvidence.ValidateEvidence | scripts/writer_lease.py:1117-1154 | the loop accepts exactly encodings of released valid chains of the stated identity |
| LeaseEvidence.EvidenceRoundTrip | scripts/writer_lease.py:1070-1154 | evidence of any released lane that scans validates and decodes to events whose files are that lane |
| LeaseEvidence.ValidEvidenceScans | scripts/writer_lease.py:1117-1154 | evidence that validates is what a released lane would export |
| LeaseEvidence.DigestSeals | scripts/writer_lease.py:93-131 | the last event's digest fixes every event before it |
| TaskUsageLoops.Summarize | scripts/harness_task_usage.py:161-293 | rows are accepted exactly when, as a multiset, they agree among themselves, fit the limits and every agent reaches the root; the summary is then the one they determine |
| TaskUsageLoops.Gather | scripts/harness_task_usage.py:176-236 | gathering succeeds exactly on well-formed, unconflicted rows within limits, with every repetition counted |
| TaskUsageLoops.WalkTree | scripts/harness_task_usage.py:238-259 | the walk from the root visits everything exactly when every agent reaches the root through parent links |
| TaskUsageLoops.SummarizeGroup | scripts/harness_task_usage.py:118-158 | observed totals sum what is known, complete totals exist exactly when every agent responded and every value is known, and only totals past the signed bound are rejected |
| TaskUsageLoops.SummarizeBoth | scripts/harness_task_usage.py:161-293 | summarizing the rows in any other order gives the same summary, or rejects likewise |
| TaskUsage.CombinedIsSum | scripts/harness_task_usage.py:261-293 | combined totals, observed and complete, are root plus children; the complete one is known exactly when both are |
| TaskUsage.SummaryAddsUp | scripts/harness_task_usage.py:100-158 | in each group of an accepted summary total tokens are input plus output, input is cached plus uncached, and output is reasoning plus the rest, wherever the parts are complete |
| TaskUsage.CompleteMeans | scripts/harness_task_usage.py:118-158 | a total is complete exactly when every agent responded and every response states the value |
| TaskUsageRows.AcceptsExactly | scripts/harness_task_usage.py:161-293 | rows are accepted exactly when there are at most 10000 of them, well-formed and without conflict, of at most 256 agents from each of which a path of parents leads to the one root, which has none, and the responses are of listed agents, with cached within input, reasoning within output, and all values and totals within 63 bits |
| TaskUsageRows.RetriesAreTheRest | scripts/harness_task_usage.py:227-234 | the combined group's responses and retries make up the response rows supplied |

## Left out

- Capture and seal machinery, storage witnesses, node, byte and count budgets, and schema validation of single fields: one well-formedness condition stands for what they establish; limits appear where an operation's result depends on them.
- SHA-256, JSON text and canonical bytes: hashes and encodings are injective constructors. Intents, policies and outcomes are compared with the spelling of their decimals.
- Threads inside the ledger: an append is one step.
- Dates and manifests behind an event's evidence, and the identity fields of fill records: compared as opaque values.
- The cost breakdown of a quote (spread and slippage amounts): only price and fee enter the ledger.
- The 256-bit bound on split-reference fractions.
- OpeningAcceptance.SplitAccepted: like its siblings, for one new action or merger and a balance with room for one more entry of each kind; how several go together is `SelectionAdmission.SelectAdmits`, and what they do `BatchShares`, `BatchEffects` and `BatchMarks`.
- SimulatorProgress.RunSucceeds: the bounds on opening cash and holdings suffice; they are not necessary.
- LeaseProgress.Acquires: of a process that nothing disturbs; nothing is claimed about fairness between processes.
- SimulatorRefinement.RunPostsToLedger: starts from empty holdings, as a fresh ledger does, within the ledger's event limit.
- Import analyser: functions, classes and closures, comprehensions, assignment expressions, unpacking, `try` and `with`, and star arguments.
- ImportBoundary.PassingLoadsNothingForbidden: says nothing about loads through opaque values (iterated values, results of calls, displays, boolean operators, star imports, attributes that were stored to) or importlib's own `__import__`, which the analyser does not follow. Its condition on `continue` suffices but is not necessary.
- ImportBoundary.PlainRunsLoadNothingForbidden: that no opaque value is a loader is asked of the run, since a text without one of the listed forms can still reach a loader through a container or a module of its own.
- Running the tests, runner metadata, weight files and the digests of a verification's summary; elapsed times are only checked not to be negative.
- The lease's tokens, identity formats, Git queries, permissions, durability and the 256 KiB bound on evidence; an export or an inspection reads the files of one moment.
- TaskUsageLoops.WalkTree: children are pushed in identifier order rather than in order of appearance, which the verdict does not depend on.
- The usage observations summary and the model-routing frontier: order-free totals of the kind proved for task usage, and a comparison of fixed criteria.
- Benchmarks, runner, telemetry, command line, announcements, network and model providers.
