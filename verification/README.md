# Verified model of the shadow-bankroll, scheduling, billing, login, scoring and dispatch protocols

This project models the stateful protocols and the numeric pipelines at the core of the repository in Dafny and
proves what they promise over whole runs. Each group of modules follows one component.

- **Shadow bankroll** (`Money`, `Portfolio`, `PortfolioLaws`, `PortfolioOutcomes`, `PortfolioRisk`, `EquityCurve`): BUY decisions move
  cents from cash to locked, map settlements release them as won, lost or void, and every movement is written to an
  append-only journal. Balances, journal, equity curve, running peak and drawdown are tied together over any
  interleaving of placements and settlements on any number of accounts.
- **Lane scheduler** (`Lanes`) and **stake policy** (`StakePolicy`), composed with the bankroll in `LaneBankroll`:
  tasks of one event, provider and model pass PREPARE to PERSIST one at a time, so that a stake the policy accepted
  can be paid.
- **Login** (`RateLimit`, `Auth`, `AuthLaws`, `AuthCodes`, `AuthRedemption`): sliding-window limiter, code challenges,
  sessions, who gets in by which code and token, and the retention job, whose deletions nobody can observe.
- **Billing** (`Billing`, `BillingLaws`, `Paddle`, `PaddleLaws`, `PaddleAccess`): idempotent, reorder-tolerant billing
  events, who is entitled to what, what each webhook does to access, and the block that a refund or chargeback puts on
  a subscription.
- **Result evidence** (`Evidence`, `EvidenceLaws`): a confluent merge with an absorbing conflict.
- **Draft scoring** (`Rosh`, `RoshEdges`, `RoshGraph`, `RoshEntries`, `RoshSynergy`, `DraftFeatures`): every row of the
  minute table is what the picks' figures call for, the table is antisymmetric in the two sides, cumulative counts
  telescope, synergy rows merge to their weighted mean.
- **Role assignment** (`RoleSearch`, `RoleOrder`, `Roles`, `DraftRoles`): search over bijections with share and
  margin guards, independent of the order of picks.
- **Ratings** (`Elo`, `EloLaws`, `EloGains`, `EloSplit`): winners gain what losers lose, conservation, idempotence, and
  incremental runs equal to one full run.
- **Calibration error** (`Calibration`) and **event dispatch** (`Events`, `EventsLaws`, `Outbox`).
- `Common` and `Sorting` hold folds, small value types and the stable sort that several components use.

## How it is built

Database tables are fields of a class (sequences or maps with their unique keys), and each method that changes them is
proved equal to a function of the old state; the theorems are lemmas about runs of those functions. What such a
function answers is stated a second time without it, on the operations of a run or on the stored rows, with kinds,
statuses and constants written out: who wins a bet, which code logs in, which webhook gives access, whose rating rises,
which side an edge favours. A transaction is
one atomic step that commits or leaves no trace. Money is whole cents, stakes and odds are exact reals, times are
integers (microseconds) or reals (seconds). Hashes, digests and identifiers are modelled by the values they identify.

Where the code meets a promise only under a condition, the condition is proved exactly:

- A decision that passes the stake policy can still be turned down for lack of cash: the policy tolerates half a cent
  above the bankroll, and a stake at exactly that bound rounds up (`StakePolicy.CashRejectionExactly`,
  `StakePolicy.PolicyAdmitsUnpayableStake`).
- The retry advice of the limiter is truncated after adding 0.999 seconds. For a denial by either limit it suffices iff
  the time left of the oldest request is at most a second, whole seconds, or at least a millisecond beyond whole
  seconds: always on a millisecond clock, not always on a finer one (`RateLimit.GlobalDenialClears`,
  `RateLimit.SourceDenialClears`, `RateLimit.RetryTooShortOnFinerClock`).
- A point of the equity curve is the previous one plus its realised profit iff its moment is not that of the funding
  entry, or nothing was funded (`EquityCurve.CurveStep`). In any run an account's whole curve moves that way iff nothing
  was settled before the funding (`EquityCurve.RunMovesByProfit`); decisions recorded out of order can make it
  otherwise (`EquityCurve.SwappedRunJumps`).
- Two billing events of one subscription commute iff they occurred at different times or call for the same access
  (`BillingLaws.TiesFollowDelivery`); a refund blocks a subscription iff it is not older than the last applied event
  or the block was there already (`PaddleLaws.RefundBlocksUnlessStale`). Failing inputs: an activation and a
  cancellation at one moment (`BillingLaws.TiedEventsConflict`), a refund overtaken by an update
  (`PaddleLaws.LateRefundDoesNotBlock`).
- Two unflagged pieces of evidence under one raw event commute iff they name the same winner
  (`EvidenceLaws.FirstWinnerStays`, with the failing pair in `EvidenceLaws.CorrectionsDependOnOrder`).
- The order of a pair's synergy rows is irrelevant iff each of its negative counts takes away at least all of its
  positive counts together (`RoshSynergy.OrderIsIrrelevantExactly`, `RoshSynergy.NegativeCountsDependOnOrder`).
- A hero's reconstructed total equals its first cumulative count iff the counts never rise
  (`RoshGraph.HeroTotalTelescopes`).
- Delivery from the outbox is at least once. A row is delivered once per crash that forgot it and once more if it gets
  published, so exactly once iff no crash forgot it (`Outbox.DeliveriesAre`, `Outbox.DeliveredOnceExactly`,
  `Outbox.CrashRepeatsDelivery`).

Verify with `dafny verify dfyconfig.toml`.

## Model

| member | source | states |
|---|---|---|
| Money.RoundHalfUp | app/evaluation/portfolio.py:666-667 | the nearest whole cent, with exact halves away from zero |
| Money.RoundOdd | app/draft/engine.py:563-565 | half-up rounding commutes with negation |
| Money.RoundExceeds | app/evaluation/portfolio.py:256-259 | a rounded stake exceeds a whole balance iff it lies at least half a cent above it |
| Portfolio.TournamentPortfolioService.RecordDecisionPosition | app/evaluation/portfolio.py:160-302 | placement on the account, with its rejections in order, its journal entry and an immediate settlement if a result is stored, as a function of the old books |
| Portfolio.TournamentPortfolioService.SettleMap | app/evaluation/portfolio.py:304-404 | settles every account with open positions on the map and leaves all others as they were |
| Portfolio.TournamentPortfolioService.UpdateRisk | app/evaluation/portfolio.py:595-605 | running peak, drawdown and relative drawdown after the loop of an account |
| Portfolio.TournamentPortfolioService.EnsureAccountRow | app/evaluation/portfolio.py:479-564 | an account is funded once, with its funding entry |
| PortfolioLaws.EveryRunBalances | app/evaluation/portfolio.py:160-404 | in every run, on every account: double entry, journal, unique journal keys and unique decisions |
| PortfolioLaws.EveryAccountBalances | app/evaluation/portfolio.py:281-292 | cash plus locked is initial plus realised profit, locked is the sum of open stakes, cash is not negative, wins cover their stakes, and every "after" column of the journal is the prefix sum of its deltas |
| PortfolioLaws.WinCoversStake | app/evaluation/portfolio.py:355-369 | odds above one survive rounding to the cent, so a win never pays below its stake |
| PortfolioLaws.SettlementOrderIsIrrelevant | app/evaluation/portfolio.py:331-404 | in whatever order the positions of an account are settled, its balances and risk columns end up the same |
| PortfolioLaws.ClosedForever | app/evaluation/portfolio.py:331-404 | along any continuation closed positions are frozen, journal rows stay, and a bankrupt account stays bankrupt with nothing in cash or locked |
| PortfolioLaws.SettlingTwice | app/evaluation/portfolio.py:321-330 | a second settlement of a map, even with another winner, changes nothing |
| PortfolioLaws.RecordingTwice | app/evaluation/portfolio.py:176-182 | a second recording of a decision, even with other content, changes nothing |
| PortfolioOutcomes.SettlementFollowsWinner | app/evaluation/portfolio.py:331-404 | a settlement closes exactly the open rows of its map: void with the stake back on a conflict or without a winner among the teams, won at the decision's odds for whoever backed the named team, lost with nothing for the other side |
| PortfolioOutcomes.ClosedRowsFollowWinners | app/evaluation/portfolio.py:160-404 | in every run each won, lost or void row follows the winner that some settlement of the run named for its map |
| PortfolioOutcomes.PlacementIs | app/evaluation/portfolio.py:207-292 | a new decision adds one row for its own side at the first price quoted for that side's team, opened iff result, snapshot, market, price and cash allow it |
| PortfolioOutcomes.JournalTellsAll | app/evaluation/portfolio.py:281-398 | in every run the journal has for each accepted position the entry of its placement and, once closed, the entry of its kind, payout, profit and time |
| PortfolioOutcomes.FundingIs | app/evaluation/portfolio.py:479-564 | an account starts with the whole bankroll in cash, funded at the earlier of event start and decision |
| PortfolioOutcomes.BankruptExactly | app/evaluation/portfolio.py:391-404 | an account whose rows were settled is bankrupt iff nothing is left in cash or locked |
| PortfolioRisk.RiskMatchesDefinition | app/evaluation/portfolio.py:595-605 | the stored peak, drawdown and percentage are the maxima they are named after, over the equities sampled at settlements; the percentage lies in [0, 1] |
| EquityCurve.Replay | app/evaluation/quality.py:379-422 | one point per moment with a visible entry, in time order, with the totals up to that moment, whatever the order of the rows |
| EquityCurve.HiddenMomentsAreFlat | app/evaluation/quality.py:398-410 | the moments the curve hides never change equity |
| EquityCurve.CurveStep | app/evaluation/quality.py:400-420 | equity moves from point to point by realised profit, iff the later point is not the funding moment or nothing was funded |
| EquityCurve.RunMovesByProfit | app/evaluation/quality.py:398-421 | in every run, for every account, the whole curve moves by realised profit iff no visible entry is dated before the funding, or nothing was funded |
| EquityCurve.LateSettlementsMoveByProfit | app/evaluation/quality.py:398-421 | it does so whenever the calls of the run settle nothing earlier than the account's funding |
| EquityCurve.SwappedRunJumps | app/evaluation/portfolio.py:479-564 | a concrete run of two decisions recorded out of order, settled at 80 and funded at 100, whose curve does not |
| EquityCurve.CurveEndsAtAccount | app/evaluation/quality.py:400-422 | the last point shows the account's own equity |
| Lanes.AiExperimentLaneRegistry.Enter | app/ai/lanes.py:38-45 | the first atomic region of `hold` as a function of the registry |
| Lanes.AiExperimentLaneRegistry.TryAcquire | app/ai/lanes.py:51-55 | one evaluation of the wait predicate: admitted iff the lane is free and the token is the least |
| Lanes.AiExperimentLaneRegistry.Leave | app/ai/lanes.py:57-62 | release, notification, and removal of an idle lane record |
| Lanes.AtMostOneHolder | app/ai/lanes.py:38-62 | at most one task per key is inside, across all lane records ever made for the key |
| Lanes.EarliestFirst | app/ai/lanes.py:46-55 | the task admitted precedes every other task registered for the key |
| Lanes.DiscardedOnlyWhenIdle | app/ai/lanes.py:61-62 | a key keeps its lane record exactly as long as somebody waits or holds |
| Lanes.NeverStuck | app/ai/lanes.py:51-60 | no lost wakeup: somebody registered means a holder, or a woken task whose next check admits it |
| StakePolicy.CashRejectionExactly | app/ai/base.py:277-290 | a stake the policy accepted is rejected for cash iff nothing rejected it earlier, it is half a cent above the bankroll, and no cash came in |
| StakePolicy.PolicyAdmitsUnpayableStake | app/ai/base.py:277-290 | a concrete accepted stake that the account cannot pay |
| LaneBankroll.LaneProtectsBankroll | app/ai/lanes.py:19-33 | inside a lane, whatever settlements interleave, an accepted stake below that half cent is never rejected for cash; the exact condition otherwise |
| LaneBankroll.SettleOnlyAddsCash | app/evaluation/portfolio.py:371-380 | a settlement never lowers the cash of any account |
| LaneBankroll.RecordSparesOthers | app/evaluation/portfolio.py:278-292 | a placement lowers the cash of its own account only |
| RateLimit.LoginRequestLimiter.Check | app/auth/rate_limit.py:44-75 | admits iff the admitted requests of both windows, counted in the history, leave room; the advice lies between one second and the window |
| RateLimit.LoginRequestLimiter.PruneSources | app/auth/rate_limit.py:81-90 | every deque is cut to its window and none is left empty |
| RateLimit.NoWindowOverflows | app/auth/rate_limit.py:44-75 | admissions that each found room leave no window, wherever it ends, above the maximum |
| RateLimit.LimitsHoldInEveryWindow | app/auth/rate_limit.py:13-75 | at every moment no window, global or per source, holds more than its maximum, and no empty deque survives |
| RateLimit.RetryBounds | app/auth/rate_limit.py:92-102 | the advice is at least one second and at most the window |
| RateLimit.DequesWithinMax | app/auth/rate_limit.py:44-90 | no deque of a limiter, global or of a source, ever grows beyond its maximum |
| RateLimit.RetryClearsExactly | app/auth/rate_limit.py:92-102 | waiting as advised clears a full limit iff the time left of the oldest request is at most a second, whole seconds, or at least a millisecond beyond whole seconds |
| RateLimit.MillisecondsSuffice | app/auth/rate_limit.py:92-102 | on a millisecond clock the time left always meets that condition |
| RateLimit.GlobalDenialClears | app/auth/rate_limit.py:44-102 | when the global limit of a limiter denies, the admitted requests leave room after the advised wait iff that condition holds, so always on a millisecond clock |
| RateLimit.SourceDenialClears | app/auth/rate_limit.py:44-102 | the same when a source's own limit denies |
| RateLimit.RetryTooShortOnFinerClock | app/auth/rate_limit.py:92-102 | a concrete time at which it does not |
| Auth.EmailAuthService.RequestLoginCode | app/auth/service.py:130-196 | cooldown, closing of the previous challenge, the new one and its delivery, as a function of the old rows |
| Auth.EmailAuthService.VerifyLoginCode | app/auth/service.py:198-263 | one try at a code, the user and the session it may lead to, as a function of the old rows |
| Auth.EmailAuthService.AuthenticateToken | app/auth/service.py:359-383 | who a token stands for, and the throttled mark of its last use |
| Auth.EmailAuthService.PruneAuthRecords | app/auth/maintenance.py:16-62 | the two bulk deletes |
| AuthLaws.PruningIsUnobservable | app/auth/maintenance.py:36-58 | with cooldown below retention, distinct request times and fresh tokens, a run answers the same with all prunes struck out |
| AuthLaws.EveryRunKeepsRows | app/auth/service.py:147-170 | in every run an email has at most one unconsumed challenge, and no challenge more tries than allowed |
| AuthLaws.NewestIsLast | app/auth/service.py:205-216 | the newest row and the newest open row are the last row, or there is none |
| AuthCodes.CodesLogIn | app/auth/service.py:198-263 | in every proper run a code logs in iff it is the one of the last request let through, which was delivered, is younger than its lifetime, has tries left and was not used, and the account is not disabled; said of the operations alone |
| AuthCodes.RequestsCoolDown | app/auth/service.py:144-196 | in every proper run a request is turned away iff the last one let through was not refused and is within the cooldown, to the millisecond; otherwise it answers as its delivery went |
| AuthCodes.TokensAuthenticate | app/auth/service.py:359-383 | in every proper run a token stands for somebody iff a login drew it, its time is not over, nobody logged it out and the account is not disabled, and then for who logged in |
| AuthCodes.SeenIsMarked | app/auth/service.py:359-383 | authenticating changes nothing but the mark of last use, at most once in 300 seconds |
| AuthCodes.PruneKeepsExactly | app/auth/maintenance.py:36-62 | a prune deletes exactly the old challenges that expired or were used and the sessions that expired or were revoked by the cutoff |
| AuthRedemption.RedeemedOnce | app/auth/service.py:217-262 | over every run, prunes included, each challenge is redeemed at most once |
| Billing.BillingEntitlementService.ApplySubscriptionEvent | app/billing/service.py:43-222 | validation, replay, ownership, staleness and application in the order of the code; errors leave no trace |
| Billing.BillingEntitlementService.UpdateGrants | app/billing/service.py:173-206 | the loop over the entitlements gives the same rows in any order |
| BillingLaws.LatestDecides | app/billing/service.py:120-206 | however events are reordered and repeated, the latest-occurring one decides plan, state, status, period end and which rows are granted with its window; other rows never change |
| BillingLaws.OrderIsIrrelevant | app/billing/service.py:95-222 | two deliveries of the same events end with the same access |
| BillingLaws.SameAccessSameEntitlements | app/billing/service.py:257-279 | equal access means equal active entitlements for every user at every moment |
| BillingLaws.EntitledExactly | app/billing/service.py:95-279 | however events arrive, a user has a premium entitlement at a moment iff the latest event of some subscription gives access then or a row from elsewhere does |
| BillingLaws.LatestIsStored | app/billing/service.py:134-172 | owner, plan, state, status, period end and time of the latest event are what is stored of the subscription |
| BillingLaws.ForeignEventsConflict | app/billing/service.py:104-131 | an event under a known reference with other content, or for a subscription of another user, conflicts and changes nothing |
| BillingLaws.VerdictIs | app/billing/service.py:104-147 | a delivery is a duplicate iff seen before, else stale iff a later event was seen, and never a conflict |
| BillingLaws.TiesFollowDelivery | app/billing/service.py:127-131 | two events of one subscription commute iff their times differ or they call for the same access |
| BillingLaws.TiedEventsConflict | app/billing/service.py:127-131 | a concrete pair of events at one moment whose order decides the access |
| Paddle.PaddleBillingService.ProcessWebhook | app/billing/paddle.py:404-437 | a webhook's whole effect on billing and checkouts as a function of the old state |
| PaddleAccess.WebhookDecidesAccess | app/billing/paddle.py:484-563 | a webhook that takes effect on a known subscription withdraws or provides its access by its kind, or by its status for creations and updates, with the rows granted from its time to the period end or for 32 days; a payment block leaves none |
| PaddleAccess.WebhookTakesEffectExactly | app/billing/paddle.py:484-563 | it takes effect iff it prices one recurring offer, has no broken period, says what the access is, and is neither repeated nor stale |
| PaddleAccess.UnknownStatusIsRefused | app/billing/paddle.py:522-543 | a creation or update with an unknown status is refused and changes nothing |
| PaddleAccess.CreationOpensSubscription | app/billing/paddle.py:484-563 | a subscription becomes known only by its creation from a checkout of the server with the same price and metadata, for that checkout's user |
| PaddleAccess.PurchaseProvides | app/billing/paddle.py:440-482 | a completed transaction that takes effect gives the checkout's user access for the offer's days, the billing period or 32 days, and completes the checkout |
| PaddleAccess.RefundWithdraws | app/billing/paddle.py:565-604 | an adjustment that takes effect is an approved full refund or chargeback of a known subscription and ends its access |
| PaddleLaws.OnlyPurchasesUnblock | app/billing/paddle.py:484-604 | one webhook lifts a block iff it is a completed transaction applied to that subscription |
| PaddleLaws.BlockHolds | app/billing/paddle.py:565-604 | through any run without such a purchase a blocked subscription keeps no access and nothing granted |
| PaddleLaws.RefundBlocksUnlessStale | app/billing/paddle.py:573-604 | a full refund blocks iff it is not older than the last applied event, or the block was there |
| PaddleLaws.LateRefundDoesNotBlock | app/billing/paddle.py:573-604 | a concrete approved full refund, overtaken by a later update, that blocks nothing |
| PaddleLaws.OnlyCheckoutsProvision | app/billing/paddle.py:447-455 | whatever webhooks arrive, every subscription belongs to a user for whom the server created a checkout |
| Evidence.SettlementService.SettleMap | app/evaluation/settlement.py:12-92 | evidence row, conflict over all rows, flags and record as a function of the map's old table; other maps untouched |
| EvidenceLaws.RecordIsSettled | app/evaluation/settlement.py:60-92 | conflict iff one call was flagged or two winners were named, else the winner named, with the earliest times |
| EvidenceLaws.OrderIsIrrelevant | app/evaluation/settlement.py:30-92 | any order and repetition of the calls gives the same record |
| EvidenceLaws.ConflictAbsorbs | app/evaluation/settlement.py:61-70 | a conflict is final and a winner is never replaced by another team, without any hypothesis |
| EvidenceLaws.FirstWinnerStays | app/evaluation/settlement.py:30-50 | two unflagged calls on one raw event commute iff they name the same winner |
| EvidenceLaws.CorrectionsDependOnOrder | app/evaluation/settlement.py:30-50 | of two winners reported under one raw event the first delivered stays |
| Rosh.BuildMinuteTable | app/draft/engine.py:196-274 | the nested loops compute the table of rows minute by minute |
| Rosh.SumMatchupAdvantages | app/draft/engine.py:509-525 | the double loop computes the matrix sum of advantages |
| Rosh.ScoreRoshPicks | app/draft/engine.py:70-118 | pure and adjusted tables, or none when highlights do not align with the picks |
| Rosh.MatchupTransposed | app/draft/engine.py:509-525 | the double sum changes sign when the teams change places |
| Rosh.SwapMirrorsScore | app/draft/engine.py:70-274 | swapping the sides negates every edge of both tables and keeps support and match percentage |
| RoshEdges.ScoreSays | app/draft/engine.py:70-274 | every minute of the graph has a row in both tables, and each row is what the picks call for: the edge within half a tenth of twice the lead of Radiant's means, the capped synergies and the players; the side its sign; support and percentage the picks' matches |
| RoshEdges.BetterHeroesRaiseEdges | app/draft/engine.py:196-248 | better base effects for Radiant's heroes or worse ones for Dire's lower no edge |
| RoshEdges.PairSumIs | app/draft/engine.py:496-506 | the double loop over a side adds for every pair the mean of what is known in either direction |
| RoshEdges.MatchupIs | app/draft/engine.py:509-525 | the double loop over both sides adds what is known of each pair of opponents, seen from Radiant |
| RoshEdges.PlayersAdjust | app/draft/engine.py:168-175 | the players move the edge by a fifth of the difference of their impacts, at most 2.5 either way |
| RoshGraph.Decumulate | app/draft/engine.py:347-373 | counts per minute and totals per hero of the sorted rows |
| RoshGraph.BuildGraph | app/draft/engine.py:327-412 | the graph of all positions, row by row |
| RoshGraph.RowsSort | app/draft/engine.py:344-344 | the sort orders the rows by hero and time and loses none |
| RoshGraph.TotalTelescopes | app/draft/engine.py:352-366 | what is reconstructed from a row on is at least its cumulative count, and equal to it iff the counts never rise afterwards |
| RoshGraph.HeroTotalTelescopes | app/draft/engine.py:352-373 | a hero's whole total, summed over all rows, is at least its first cumulative count, and equal to it iff the counts never rise |
| RoshGraph.MatchPercentageInRange | app/draft/engine.py:221-254 | every minute's match percentage lies between 0 and 100 |
| RoshEntries.EntriesAreAccounted | app/draft/engine.py:374-411 | every entry is the one that a row of its position, hero and minute calls for: the minute's matches, the hero's total, and the tempo as the shrunk lead of the win rate around it |
| RoshEntries.RowsHaveEntries | app/draft/engine.py:374-411 | conversely every row between minutes 20 and 60 with a base and matches around it leaves an entry |
| RoshSynergy.MergeEntries | app/draft/engine.py:447-462 | the lookup holds for each pair its rows merged one at a time |
| RoshSynergy.MergedIsMean | app/draft/engine.py:447-462 | merging one at a time gives exactly the count-weighted mean of all rows |
| RoshSynergy.MergeIgnoresOrder | app/draft/engine.py:415-462 | rows with counts that are not negative merge alike in any order |
| RoshSynergy.OrderIsIrrelevantExactly | app/draft/engine.py:447-462 | all reorderings of the rows merge alike iff every negative count of the pair takes away at least the sum of its positive ones |
| RoshSynergy.MergedBounded | app/draft/engine.py:447-462 | the merged figure never exceeds the largest magnitude merged |
| RoshSynergy.ReliableBounded | app/draft/engine.py:465-476 | nor does the figure after damping by reliability, up to rounding |
| RoshSynergy.ReliableIs | app/draft/engine.py:465-476 | from 100 matches on a pair keeps its merged figure, fewer scale it in proportion, rounded |
| RoshSynergy.NegativeCountsDependOnOrder | app/draft/engine.py:456-458 | a concrete negative count makes the result depend on order |
| DraftFeatures.CrossOver | app/draft/features.py:115-122 | the loop finds the first change of sign |
| DraftFeatures.CrossOverIsFirst | app/draft/features.py:115-122 | the cross-over is a change of sign between neighbours and no earlier pair has one |
| DraftFeatures.PeakIsFirstLargest | app/draft/features.py:48-49 | the peak is the earliest point of largest magnitude |
| DraftFeatures.NearestIsFirst | app/draft/features.py:88-92 | the nearest point is the earliest of those at least distance |
| DraftFeatures.AveragesSay | app/draft/features.py:38-64 | the four averages are the means of the edges of their ranges of minutes, and a current minute below 20 is none |
| DraftFeatures.OutlookSays | app/draft/features.py:95-99 | the next five and ten minutes are averaged from the current one on |
| DraftFeatures.SlopesSay | app/draft/features.py:107-112 | a slope leads from the current edge to the one five or ten minutes later, but no later than minute 60 |
| DraftFeatures.SwapOpposesFeatures | app/draft/features.py:38-64 | swapping the sides negates every edge, average and slope and keeps peak and cross-over minutes |
| DraftFeatures.TableAscends | app/draft/engine.py:219-220 | the minutes of a table strictly increase from 20 |
| RoleSearch.FindAssignment | app/draft/role_assignment.py:283-305 | the enumeration with its early break, ranking and margin guard |
| RoleSearch.PermutationsAreAll | app/draft/role_assignment.py:284-284 | the enumeration holds every ordering exactly once |
| RoleSearch.SearchFindsDominant | app/draft/role_assignment.py:283-305 | an assignment is answered iff every share is at least 0.35 and it beats every other such bijection by at least 0.20; its margin is the lead over the best rival |
| RoleOrder.SearchIgnoresOrder | app/draft/role_assignment.py:283-305 | another order of the accounts gives each the same position and the same margin |
| Roles.CollectEvidence | app/draft/role_assignment.py:195-208 | the loop equals filter, then one row per match, then the first forty |
| Roles.EvidenceIsOk | app/draft/role_assignment.py:181-208 | evidence was usable when observed and no match counts twice |
| Roles.WeighPositions | app/draft/role_assignment.py:270-280 | shares of a player's weighted maps per position |
| Roles.SharesAreTiered | app/draft/role_assignment.py:269-280 | a share is the position's maps over all maps, the five latest in full, the next ten at seven tenths, older ones at four tenths |
| Roles.SideAnswersExactly | app/draft/role_assignment.py:253-305 | a side is answered iff it has five known players with at least four maps each and some assignment dominates |
| Roles.ScoreIsSum | app/draft/role_assignment.py:285-296 | the score that assignments are compared by is the sum of their five shares |
| Roles.ResolveSideFromHistory | app/draft/role_assignment.py:253-329 | a side's slots and cutoff, or none |
| Roles.SideIsDominant | app/draft/role_assignment.py:283-329 | when a side is answered: a bijection onto 1 to 5 that dominates, confidences within [0.55, 0.95] without the cap |
| Roles.CutoffIsLeast | app/draft/role_assignment.py:270-329 | the cutoff is the least moment by which all evidence was usable |
| DraftRoles.ResolveFromHistory | app/draft/role_assignment.py:156-235 | the whole historical resolution |
| DraftRoles.CompleteIsLaidOut | app/draft/role_assignment.py:238-250 | a complete draft, sorted, has exactly one slot per side and position |
| DraftRoles.HistoricalIsSound | app/draft/role_assignment.py:210-235 | two resolved sides always validate, and the cutoff never exceeds the observation |
| DraftRoles.HistoricalCutoffIs | app/draft/role_assignment.py:223-235 | the cutoff of a draft is the later one of its two sides |
| DraftRoles.HistoricalIgnoresOrder | app/draft/role_assignment.py:156-235 | the resolution is the same for every ordering of the picks |
| Elo.HistoricalFeatureBuilder.BuildTeamRatings | app/history/builder.py:46-132 | one run appends the snapshots of the matches not yet processed |
| EloLaws.ReplayConserves | app/history/scoring.py:13-31 | a run leaves the total rating of all teams where it was |
| EloGains.RunsRewardWinners | app/history/builder.py:87-131 | the snapshots of a run come in pairs, one pair for a fact that counts: the winner's rating rises by its missing expected score times the step, the loser's falls by as much, and each team enters with its latest rating |
| EloGains.EverySnapshotIsGraded | app/history/scoring.py:13-31 | each snapshot has result 1 and a higher rating if its team won the fact it names, else result 0 and a lower one |
| EloGains.StratzIsPreferred | app/history/builder.py:522-528 | of the facts of one match a run takes one from Stratz if there is one |
| EloLaws.SidesDoNotMatter | app/history/scoring.py:13-31 | with a symmetric logistic the listed side makes no difference |
| EloLaws.PreferredListsChosen | app/history/builder.py:522-528 | one fact per match: the first from Stratz, else the first |
| EloLaws.AgendaIs | app/history/builder.py:87-90 | the facts of a run are the chosen ones in strictly ascending order |
| EloLaws.RerunCreatesNothing | app/history/builder.py:62-92 | running again at the same or an earlier moment creates nothing |
| EloSplit.TwoRunsEqualOne | app/history/builder.py:46-132 | two runs split by usability time create the snapshots of one full run |
| EloSplit.ManyRunsEqualOne | app/history/builder.py:46-132 | so do any number of runs at increasing moments |
| EloSplit.StoredRatingsConserved | app/history/builder.py:74-85 | after any such runs the stored ratings add up to the initial ones |
| Calibration.BenchmarkCalibrationError | app/evaluation/benchmark.py:431-446 | the binned error of the benchmark |
| Calibration.BacktestCalibration | app/evaluation/backtest.py:372-409 | the binned error of the backtest |
| Calibration.BinsPartition | app/evaluation/benchmark.py:434-437 | every sample lands in exactly one bin |
| Calibration.BinsAreIntervals | app/evaluation/benchmark.py:434-437 | a bin holds exactly the samples whose probability lies in its interval, the last one open above |
| Calibration.ErrorBetween | app/evaluation/benchmark.py:431-446 | the error lies between the gap of the overall means and the mean absolute error |
| Calibration.BacktestAgrees | app/evaluation/backtest.py:372-409 | with ten bins the backtest's figure is the benchmark's, rounded |
| Events.EventStore.RecordEvent | app/events/outbox.py:10-73 | an event is stored once, with one outbox row per topic |
| Events.EventStore.DispatchBatch | app/events/dispatcher.py:112-143 | the jobs and marks of a locked batch |
| EventsLaws.RecordedOnce | app/events/outbox.py:20-46 | in every run: one event per kind and key, exactly one outbox row per topic |
| EventsLaws.RecordingStores | app/events/outbox.py:20-46 | recording stores the event, pending, unless one of its kind and key is there |
| EventsLaws.CommitProcesses | app/events/dispatcher.py:112-143 | committing a dispatch processes exactly the events of its batch |
| EventsLaws.ExactlyTheDueJobs | app/events/dispatcher.py:112-136 | with any dispatchers and crashes, the jobs keyed by an event are the due ones iff it is processed, each once |
| EventsLaws.HandledOnce | app/events/dispatcher.py:56-68 | no event is dispatched twice |
| EventsLaws.OneClosingCapture | app/events/dispatcher.py:165-183 | at most one closing capture per snapshot |
| EventsLaws.EndedMapsAreCaptured | app/events/dispatcher.py:134-141 | committing a map's end captures every snapshot of the map that was seen |
| EventsLaws.CapturesAreOfEndedMaps | app/events/dispatcher.py:134-141 | a closing capture that a commit adds is of a snapshot of a map that an event of its batch ended |
| EventsLaws.AiRequestsFanOut | app/events/dispatcher.py:112-163 | the provider runs that a commit adds are, for every request on a snapshot it saw, one per active experiment, keyed by the snapshot's hash |
| Outbox.OutboxDispatcher.DispatchOnce | app/events/dispatcher.py:205-229 | attempts and marks of a locked batch, and what was sent |
| Outbox.MarkedRows | app/events/dispatcher.py:205-229 | a pass counts one attempt per row of its batch, marks those the transport took, and changes nothing else |
| Outbox.PublishedWasDelivered | app/events/dispatcher.py:219-228 | with any publishers and crashes, a row marked published was delivered |
| Outbox.PublishedStaysQuiet | app/events/dispatcher.py:206-228 | and is never delivered again |
| Outbox.DeliveriesAre | app/events/dispatcher.py:205-229 | in every run a row was delivered as often as crashes forgot its acceptance, plus one if it is published or about to be |
| Outbox.DeliveredOnceExactly | app/events/dispatcher.py:205-229 | a published row was delivered exactly once iff no crash forgot its acceptance |
| Outbox.CrashRepeatsDelivery | app/events/dispatcher.py:219-228 | a run in which a crash makes a row delivered twice |

## Left out

- SQLAlchemy, HTTP, provider adapters, mail and the runtime wiring: a table is a sequence or map with its unique keys, and a transaction an atomic step.
- Floating point: draft scores, shares, ratings and calibration use exact reals; the decimal text that `_php_round` goes through and the storage of odds with five decimals are not modelled.
- Portfolio.TournamentPortfolioService.SettleMap: the rows of an account are settled in insertion order, not by opening time and identifier; the account row does not depend on the order (`PortfolioLaws.SettlementOrderIsIrrelevant`), the order and running columns of journal rows of one settlement do.
- Task cancellation in lanes: a task cancelled while it waits leaves its token behind, so the lane results are for tasks that are not cancelled; starvation is possible and not excluded.
- RateLimit.LimitsHoldInEveryWindow: the clock is non-decreasing and starts at zero or later, as the monotonic clock the limiter reads; stripping of the source is not modelled.
- Concurrent limiter calls: `check` runs under its lock and is one step.
- External logins and profile text in the login service; normalisation of email addresses; the limiter in front of a code request, which has its own module.
- Auth.EmailAuthService.RequestLoginCode: a login request or try takes no time in the model, so the moment at which a failed delivery consumes its challenge is that of the request, and no prune falls between a challenge and its delivery.
- Billing.Normalise: strips and folds ASCII only.
- Paddle signature checks and JSON decoding; the item list of a webhook is handed over as the configured offer it points at, and two webhooks never interleave inside one another.
- RoshGraph.BuildGraph: malformed rows are taken to be dropped before, and counts are integers; the base statistics per position are an input.
- Player impacts of highlights are an input of the scoring, with zero for a missing highlight.
- DraftFeatures.NegatedFeatures: the curve is a list in ascending minutes, as it is assembled from the tables; support and confidence of points are not carried.
- Current-match role resolution and the pick blockers, which are plain look-ups and checks.
- Calibration.BacktestCalibration: rounding to six places is an arbitrary function, and the rows reported per bin are not modelled.
- Calibration.BenchmarkCalibrationError: negative probabilities are excluded; they would count bins from the end.
- Elo.Latest: of snapshots of one team with equal cutoffs the first stored is taken, where the database may return any; one model version is modelled.
- A match listed with the same team on both sides violates a unique key of the snapshots in the database; the rating results are for matches between two teams.
- Team form, player form and hero scores built from the ratings tables: averages of bounded terms.
- Deduplication keys of jobs are modelled by what they are built from, so keys of different shapes never collide; job execution and reopening are not modelled.
- Reports, leaderboards, AI views, access policy and configuration: reshaping of fields with easy claims.
