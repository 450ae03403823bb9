# StormLead: money, capture and audit

StormLead captures storm-damage leads from web forms, auctions each lead to contractors who hold
prepaid wallets, and keeps an audit log of what happened to every lead. This project models that
core in Dafny and proves what it keeps.

The model has three parts.

**Auctions, wallets and returns.** `Market` holds the rows and the effect of each committed
transaction. `Saga` makes a run of an auction a saga of separately committed steps (gate, sale check,
buyer selection, bids, key check, debit, send, answer, result, credit) that interleave with other runs,
deposits, buyer edits and return reviews, and can crash between any two of them. Every sequence of steps is
a history, since a step that is not enabled changes nothing, so a lemma about `Exec(START, steps)` for all
`steps` covers every interleaving. `Effects` lists what one step can do; `Links`, `Ledger`, `Laws`,
`Deals`, `BidSigns`, `Serial`, `Resale`, `Caps`, `Gate`, `Returns`, `Reports` and `Revenue` build on it. `PingPost` has
the service as a class whose methods update the tables in place; each is proved to be a step, or a whole trace of steps, of the
machine. `Scripts`, `Witnesses` and `CapReach` hold explicit histories. `Bidding`, `Delivery` and `FanOut` are the
winner rule, the retry loop and the ping fan-out; `Attribution` is the by-zip query; `Guardrails` the pause job;
`Territory` the rule of exclusive zips.

**Capture.** `Capture` is the step machine of webhook deliveries, opt-outs and crashes, `CaptureLaws` what
every history of it keeps, `FormReceiver` the receiver as a class, `CaptureWitnesses` explicit histories,
`Quality` the initial score. `Platform` runs capture and marketplace together over one leads table.

**Audit log.** `Pipeline` is the graph of lead states, `TransitionLog` the idempotent log, `Redaction` the
payload summary, `Masking` the masking of the texts in it, and `Timeline` the list of recent runs. `Sums`, `Lists` and
`Sorting` are the aggregates, the distinct keys and the stable sort they all use.

`dafny verify dfyconfig.toml` checks everything. Some proofs say `hide F;` so that the solver does not unfold `F`.

## Where the code does not do what one might expect

Each of these is proved, with the exact condition where there is one.

- A bid is any integer a buyer replies, and a negative one passes the winner rule
  (services/ping-post/src/ping_post/auction.py:446-467). The wallet guard only covers the debit, so wallets
  stay non-negative if and only if the bids in play do not mix signs (`BidSigns.SolventIffOneSign`).
- Campaign and zip revenue subtract the absolute value of the returned sum, which is right if and only if that sum is
  not negative (`Revenue.CampaignNetIsKept`, `Revenue.ZipNetIsKept`). A returned sale at a negative bid makes it negative,
  and is then counted as a loss twice (`Witnesses.NegativeReturnCountsTwice`).
- Two overlapping runs of one lead can both sell it (`Witnesses.OverlapSellsTwice`). One sale per lead is guaranteed if
  and only if at most one run of it is live at a time (`Witnesses.OneSaleIffNoOverlap`), and a sold lead can be sold
  again if and only if a live run past its sale check still holds a chance (`Resale.ResaleIffChance`).
- A retry after a crash between debit and result debits again (`Witnesses.RetryChargesTwice`). A lead has been charged
  exactly its price if and only if its unsettled reservations cancel out, which for bids of one sign means that it has
  none (`Serial.ChargedPriceIffSettled`).
- A run reports the debited buyer as winner even when the delivery then failed and was credited
  (services/ping-post/src/ping_post/auction.py:778-780): exactly when there is a deal and the last answer is not a
  success (`PingPost.FailureReportedAsWinner`, and for a run where it happens `PingPost.FailedBuyerStillReported`).
- The bid window covers the whole fan-out, so with more than a hundred buyers slow pings can make it discard every
  response; with up to a hundred it cannot (`FanOut.WindowFiresBeyondAHundred`).
- The comment at services/form-receiver/src/form_receiver/api.py:234-235 expects a retry after a failed push to
  emit the event. It never does: the retry finds the lead and is answered as a duplicate
  (`CaptureWitnesses.LostPushIsNeverMadeUp`, `CaptureLaws.FailedPushIsFinal`, `CaptureLaws.EmissionStillPossible`).
- A webhook sent again after the first delivery died between lead and audit writes the audit row then; apart from that
  a retry adds nothing (`CaptureWitnesses.RetryWritesLostAudit`, `FormReceiver.LateRetryAddsAtMostAnAudit`).
- An opt-out naming a covered and an uncovered contact leaves the second uncovered
  (`CaptureWitnesses.SecondContactStaysUncovered`, `CaptureLaws.OptOutCovers`).
- A refused lead stays refused unless it is requalified before the refusal is stored; then it can be rejected and still
  get in (`Gate.RefusalLastsIff`, `Gate.RejectedLeadGetsIn`).
- Active buyers can come to share an exclusive zip: only named zips are checked, against active buyers, before the write.
  That none do is guaranteed if and only if every activation names its zips and nothing comes between a check and its write
  (`Territory.ExclusiveIffNamedAndAtomic`).
- No lead is held for review at capture unless it is also blocked: the other deductions never reach the hold
  threshold (`Quality.InitialQualityScore`).
- Transition keys join their parts with a colon, so keys of different steps coincide as soon as an event or task
  name contains one (`TransitionLog.KeyIdentifiesStep`), and a missing task and an empty one are the same.

## Model

| member | source | states |
|---|---|---|
| `Laws.AlwaysConserved` | services/ping-post/src/ping_post/auction.py:474-537 | Over every interleaving of runs, deposits, edits, returns and crashes: each wallet is the sum of its billing rows other than `lead.posted`, and wallet plus lifetime spend is the sum of its deposits. |
| `Laws.AlwaysBalanced` | services/ping-post/src/ping_post/auction.py:777-856 | For any measure of a deal (buyer, lead, bid): reservations less credits and returns equal delivered, unreturned posts plus open reservations. Counting, summing bids, or picking one buyer or one lead are all instances. |
| `Laws.SpendIsKeptPlusOutstanding` | services/ping-post/src/ping_post/auction.py:777-856 | A buyer's lifetime spend is the bids of its delivered, unreturned posts plus its open reservations; with nothing open, exactly the former. |
| `Laws.AlwaysPostedMatches` | services/ping-post/src/ping_post/auction.py:787-850 | `lead.posted` events and delivered posts are the same deals at the same instants, for any measure. |
| `Laws.AlwaysSentWasReserved` | services/ping-post/src/ping_post/auction.py:777-785 | Every lead sent to a buyer used up its own committed reservation of the same bid. |
| `Laws.AlwaysUniqueDeliveryKeys` | libs/stormlead_db/src/stormlead_db/tables.py:290-297 | The unique delivery key constraint, which the result transaction enforces, holds in every history: no two posts share lead, buyer and bid. |
| `Market.GateAdmits` | services/ping-post/src/ping_post/auction.py:91-105 | The gate lets a lead in exactly when it is neither blocked nor held, its class needs no review and its score reaches the lower threshold. |
| `Market.BarredStaysBarred` | services/ping-post/src/ping_post/auction.py:333-365 | As soon as a refusal is stored the gate refuses the lead whatever the thresholds, before any review or requalification. |
| `Gate.RefusedUntilReopened` | services/ping-post/src/ping_post/auction.py:333-365 | A run that the gate refuses, at whatever thresholds, leaves a lasting refusal: whatever happens before the refusal is stored and after, every later run of the lead is refused at all thresholds, until a review approves the lead or it is requalified. |
| `Gate.RefusalLastsIff` | services/ping-post/src/ping_post/auction.py:333-365 | Storing a refusal is lasting in that sense if and only if it puts the lead on hold or finds it still blocked, held or in a class for review. |
| `Gate.RejectedLeadGetsIn` | services/ping-post/src/ping_post/auction.py:333-365 | An input where it is not: a lead of class D requalified between check and store ends up rejected and passes the gate. |
| `Gate.MarkedIffRefused` | services/ping-post/src/ping_post/auction.py:91-105 | The gate refuses a lead at all thresholds if and only if it is blocked, held or in a class for review. |
| `Links.AlwaysLinked` | libs/stormlead_db/src/stormlead_db/tables.py:240-340 | Every reference between rows and runs is sound, every return event matches its post, and nothing is dated after the clock, in every history. |
| `Effects.StepEffect` | services/ping-post/src/ping_post/auction.py:652-893 | Each step of each process does one of thirteen listed things to the money tables; all laws rest on this case list. |
| `BidSigns.SolventIffOneSign` | services/ping-post/src/ping_post/auction.py:474-510 | No history over a given set of bids takes any wallet below zero if and only if the bids do not mix signs; for mixed signs an explicit history is built that does. |
| `BidSigns.SolventWithoutNegativeBids` | services/ping-post/src/ping_post/auction.py:474-510 | With non-negative bids the guard of the debit alone keeps every wallet non-negative. |
| `Deals.AlwaysDeals` | services/ping-post/src/ping_post/auction.py:446-463 | Every bid on a post or in a run came out of an accepted reply of that buyer. |
| `Serial.SerialLeadPaysOnce` | services/ping-post/src/ping_post/auction.py:671-856 | If the runs of a lead never overlap (crashed runs may be retried), the lead has at most one delivered post and one posted event, its price is the bid of that post unless returned, and its buyers together have paid exactly that price plus the reservations still unsettled. |
| `Serial.ChargedPriceIffSettled` | services/ping-post/src/ping_post/auction.py:777-856 | In any history, overlapping runs included, a lead has been charged exactly its price if and only if its unsettled reservations cancel out; when the bids in play do not mix signs, if and only if no run of it, live or crashed, holds one. |
| `Witnesses.OneSaleIffNoOverlap` | services/ping-post/src/ping_post/auction.py:671-687 | All histories with at most k live runs of a lead at a time sell each lead at most once if and only if k is at most one. |
| `Resale.ResaleIffChance` | services/ping-post/src/ping_post/auction.py:671-856 | A sold lead can be sold again by some continuation (any buyers, bids, edits and time) if and only if a live run that was past its sale check still has somebody to choose from or an untried deal that has not failed. |
| `Resale.NoSaleEver` | services/ping-post/src/ping_post/auction.py:671-856 | Without such a run no continuation ever sells the lead again: runs started after the sale cannot. |
| `Resale.MakeRoom` | services/ping-post/src/ping_post/auction.py:309-330 | Whatever a buyer has used, some continuation lets it pass both cap checks, even with a budget of nothing, since a sale at a negative bid lowers the month. |
| `Serial.EverySendWasReserved` | services/ping-post/src/ping_post/auction.py:777-785 | A lead goes to a buyer under a bid at most as often as that very bid was reserved in that buyer's wallet. |
| `Serial.RunAfterSaleChangesNoMoney` | services/ping-post/src/ping_post/auction.py:671-687 | A run started after its lead was sold never changes a wallet, post, return or billing row, whatever happens around it. |
| `Witnesses.OverlapSellsTwice` | services/ping-post/src/ping_post/auction.py:671-687 | For any two different positive bids, two overlapping runs sell one lead twice and take a buyer capped at one sale a day to two. |
| `Witnesses.RetryChargesTwice` | services/ping-post/src/ping_post/auction.py:777-787 | A crash between debit and result, followed by a retry, leaves one sale charged twice. |
| `Witnesses.SplitDepositsLoseOne` | services/ping-post/src/ping_post/api.py:1505-1530 | If two deposits both read before either writes, the log keeps both and the wallet one, so conservation fails: why deposits are modelled as atomic. |
| `Caps.DailyCapOverrun` | services/ping-post/src/ping_post/auction.py:309-330 | With at most K runs in flight for a buyer, its sales on any UTC day are at most cap + K - 1, runs across midnight included. |
| `Caps.MonthlyBudgetOverrun` | services/ping-post/src/ping_post/auction.py:309-330 | With at most K runs in flight and bids up to B, its posted money in any month is at most budget - 1 + K * B. |
| `CapReach.BoundsAreReached` | services/ping-post/src/ping_post/auction.py:309-330 | Both bounds are attained: for every limit n, number of runs k and bid B from one up, one explicit history with at most k in flight reaches n + k - 1 sales in a day and n - 1 + k * B in a month. |
| `Caps.NothingFromTheFuture` | services/ping-post/src/ping_post/auction.py:309-330 | The cap query, which has no upper time bound, counts exactly the current period. |
| `Bidding.HighestBidWins` | services/ping-post/src/ping_post/auction.py:446-467 | The winner is a qualifying reply (accepted, with a non-zero bid that the balance covers) such that every other one bids less, or as much but slower, or as much and as fast but later in the list; there is none exactly when nobody qualifies. |
| `Bidding.PickWinnerIsLexicographicMinimum` | services/ping-post/src/ping_post/auction.py:446-467 | The winner is exactly the minimum of (-bid, response time, list position) among accepted, non-zero, affordable replies; there is none exactly when nobody qualifies. |
| `Bidding.LoserDoesNotMatter` | services/ping-post/src/ping_post/auction.py:446-463 | Removing any reply that did not win leaves the winner unchanged. |
| `Bidding.ArrivalOrderDoesNotMatter` | services/ping-post/src/ping_post/auction.py:446-463 | When no two qualifying replies tie on bid and time, any reordering gives the same winner. |
| `Delivery.PostToWinner` | services/ping-post/src/ping_post/auction.py:585-649 | For any replies and any maximum: every attempt before the last one made met a timeout, a network failure, or a status of 429 or 500 to 599; if attempts were left, the last one met none of these; the outcome is delivered exactly for a status of 200 to 299; and the pauses add up to the exponential back-off. |
| `Delivery.PausesDouble` | services/ping-post/src/ping_post/auction.py:626-648 | The first pause is the base delay, and each one is twice the one before. |
| `Delivery.StopsAt` | services/ping-post/src/ping_post/auction.py:168-173 | The attempt at which the loop stops, as `PostToWinner` pins it: every attempt before it was a retryable failure, and it is final or the last. |
| `FanOut.StartsInItsRound` | services/ping-post/src/ping_post/auction.py:731-747 | If no ping holds a slot longer than T, ping i starts by floor(i/m) * T and is finished one T later (`Rounds(k, T)` is k * T by `RoundsAreProduct`). |
| `FanOut.WindowNeverFires` | services/ping-post/src/ping_post/auction.py:731-747 | The bid window never discards the responses of n pings of up to T if and only if ceil(n/m) * T fits into it. |
| `FanOut.WindowFiresBeyondAHundred` | services/ping-post/src/ping_post/auction.py:65-68 | With the service's constants that is exactly n <= 100 buyers. |
| `PingPost.Service.RunAuction` | services/ping-post/src/ping_post/auction.py:652-893 | A whole run is a history of the step machine. Barred, it stores the refusal; sold before, it reports that sale and changes nothing; else all tables end up exactly as the deal of the accepted buyers' replies and the winner's last answer say: no deal and no money moved, or one post, delivered exactly if the answer where the retry loop stops is a success, with debit and sale or debit and credit logged and the bid charged exactly for a delivery. |
| `PingPost.Service.AuctionLead` | services/ping-post/src/ping_post/auction.py:689-882 | The run from buyer selection to its end: the same exact outcome, as a trace of machine steps. |
| `PingPost.Service.OpenRun` | services/ping-post/src/ping_post/auction.py:656-687 | The run goes on exactly when the gate lets the lead in and no sale exists; an existing sale is reported. |
| `PingPost.Service.SelectEligibleBuyers` | services/ping-post/src/ping_post/auction.py:238-294 | Exactly the active, funded, matching buyers within both caps are selected, with the rows as loaded. |
| `PingPost.Service.BuyerWithinCaps` | services/ping-post/src/ping_post/auction.py:309-330 | The two aggregated limits hold for the buyer now. |
| `PingPost.Service.ChooseWinner` | services/ping-post/src/ping_post/auction.py:749-776 | There is a deal exactly when the replies have a picked winner whose delivery key is new, and it is that buyer and bid; the lead becomes unsold exactly when nobody is picked. |
| `PingPost.DealIsHighestBid` | services/ping-post/src/ping_post/auction.py:446-467 | In a run with nothing interleaved exactly the eligible buyers are asked, and the deal is a bid one of them accepts and can pay, and the highest such bid; there is no deal only if nobody is eligible, nobody qualifies, or the winner's very deal was tried before. |
| `PingPost.EligibleIsExact` | services/ping-post/src/ping_post/auction.py:238-330 | A buyer is eligible exactly if it is active and funded, its filters match, it was posted fewer leads that day than its cap, and what it was posted that month is below its budget. |
| `PingPost.GateIsExact` | services/ping-post/src/ping_post/auction.py:91-105 | The gate lets in a lead that is neither blocked nor held nor of class C or D and scores enough; of the others it rejects the blocked ones and those of class D and puts the rest on hold. |
| `PingPost.DealIsAffordable` | services/ping-post/src/ping_post/auction.py:446-510 | In a run with nothing interleaved the debit of the deal always goes through. |
| `PingPost.FailureReportedAsWinner` | services/ping-post/src/ping_post/auction.py:777-892 | An auction of an unsold lead reports a winner and leaves the lead unsold if and only if there is a deal and the answer where the retry loop stops is not a success; `RunAuction` ensures the same of every whole run. |
| `PingPost.FailedBuyerStillReported` | services/ping-post/src/ping_post/auction.py:777-892 | Such a run, from an open market reached by a history and with the default thresholds: the one buyer wins at any bid its wallet covers, refuses the lead, is charged nothing and is reported. |
| `PingPost.LoneBidderWins` | services/ping-post/src/ping_post/auction.py:446-467 | In that market the lead passes the default thresholds and the bid becomes the deal. |
| `PingPost.Service.DeliveryResultByKey` | services/ping-post/src/ping_post/auction.py:383-395 | Finds a post with the same lead, buyer and bid exactly when there is one. |
| `PingPost.Service.ReserveBuyerWallet` | services/ping-post/src/ping_post/auction.py:474-510 | Debits exactly when the buyer is active and its wallet covers the bid, and changes nothing otherwise. |
| `Saga.OutcomeIsExact` | services/ping-post/src/ping_post/auction.py:787-856 | Storing an outcome: a post of the same lead, buyer and bid rolls it back and ends the run; otherwise the post is added, the lead is sold or unsold, a sale is logged, and a debited run that failed has a credit to come. |
| `PingPost.Service.StoreResult` | services/ping-post/src/ping_post/auction.py:787-850 | The post, the lead status and, on success, the posted event are stored together. |
| `PingPost.Service.CreditFailedDelivery` | services/ping-post/src/ping_post/auction.py:513-537 | Undoes the debit in wallet and spend and logs it. |
| `PingPost.Service.SellLead` | services/ping-post/src/ping_post/auction.py:777-856 | Debit, send, store and credit: the wallet is charged exactly when the lead was delivered, and one post is stored either way. |
| `PingPost.Service.PersistUnauctionableLead` | services/ping-post/src/ping_post/auction.py:333-365 | A barred lead is rejected or held as the reason says. |
| `PingPost.Service.MarkLeadUnsold` | services/ping-post/src/ping_post/auction.py:857-882 | Without a winner the lead becomes unsold. |
| `PingPost.Service.CreateBuyer` | services/ping-post/src/ping_post/api.py:1070-1116 | Once the zip check has passed, a buyer is inserted with its opening deposit logged when positive. |
| `Territory.ExclusiveIffNamedAndAtomic` | services/ping-post/src/ping_post/buyer_crm.py:11-36 | Over all histories of requests with or without overlap: no two active buyers ever share an exclusive zip if and only if patches that activate a buyer name its zips and nothing comes between a check and its write. |
| `Territory.BothActivatedShare` | services/ping-post/src/ping_post/api.py:1454-1466 | Two pending buyers may ask for one zip, and activating both afterwards is never checked. |
| `Territory.BothCheckedShare` | services/ping-post/src/ping_post/api.py:1454-1466 | Two activations that both name the zip and are both checked before either is written share it. |
| `Territory.Registry.CheckExclusiveZipConflict` | services/ping-post/src/ping_post/buyer_crm.py:11-36 | Lists exactly the active buyers, except the one being changed, that have one of the zips, each with the shared ones; none if and only if there is no conflict. |
| `Territory.Registry.CreateBuyer` | services/ping-post/src/ping_post/api.py:1068-1116 | Refuses a conflict, else adds a pending buyer with its zips. |
| `Territory.Registry.UpdateBuyer` | services/ping-post/src/ping_post/api.py:1454-1478 | Refuses a conflict of the zips it names, then an unknown buyer, else writes what it names. |
| `PingPost.Service.AddDeposit` | services/ping-post/src/ping_post/api.py:1505-1530 | Returns the new balance, or not found, and logs the deposit. |
| `PingPost.Service.ReviewLead` | services/ping-post/src/ping_post/api.py:1377-1434 | The hold flag is cleared exactly by an approval. |
| `PingPost.Service.LatestSale` | services/ping-post/src/ping_post/api.py:1534-1560 | Finds a delivered post of the lead with the latest time, exactly when the lead was sold. |
| `PingPost.Service.ReturnLead` | services/ping-post/src/ping_post/api.py:1534-1624 | Opens a return of the latest sale, or fails with not found or conflict exactly as the workflow says. |
| `PingPost.Service.ReviewReturnRequest` | services/ping-post/src/ping_post/api.py:1628-1717 | Applies one decision; the credited amount is the price paid on approval and nothing otherwise. |
| `Returns.OpeningIsExact` | services/ping-post/src/ping_post/api.py:1534-1590 | A return is opened, pending, for the latest sale of a lead, unless that was returned or a request for it is undecided; otherwise nothing changes. |
| `Returns.ReviewIsExact` | services/ping-post/src/ping_post/api.py:1630-1717 | What a review of an undecided request does to every table: hold, decline, or approve with the bid given back, the post marked and the credit logged; otherwise nothing changes. |
| `Returns.ReturnWorkflow` | services/ping-post/src/ping_post/api.py:1534-1717 | Per sale, in every history: at most one active request; returned exactly when there is one approved request and one return event, of the price paid, to the buyer who paid; and then nothing is active. |
| `Returns.ApprovalAlwaysCredits` | services/ping-post/src/ping_post/api.py:1655-1681 | Approving an open request always goes through: the already-credited guard is unreachable, and the wallet gets the price paid. |
| `Returns.AdjustmentRateAtMostOne` | services/ping-post/src/ping_post/guardrails.py:22-37 | A buyer's approved returns never outnumber its deliveries. |
| `Reports.KpisAreExact` | services/ping-post/src/ping_post/api.py:1137-1180 | Each figure of the overview counts or adds up exactly the rows it names. |
| `Reports.MarginIsLeadRevenue` | services/ping-post/src/ping_post/api.py:1137-1180 | Gross revenue from posts less adjustments from the log equals the revenue of kept posts. |
| `Reports.PrepaidPlusRevenueIsDeposits` | services/ping-post/src/ping_post/api.py:1137-1180 | Prepaid cash, lead revenue and open reservations add up to all deposits; at quiescence the first two do. |
| `Reports.ReportIsExact` | services/ping-post/src/ping_post/api.py:1721-1844 | Each column of the daily report counts or adds up exactly the rows of the buyer since the start of the day, and the capacity shown is the cap less the deliveries, or zero. |
| `Reports.ReportMatchesCapQuery` | services/ping-post/src/ping_post/api.py:1721-1844 | The daily report, read from posts, and the cap check, read from the log, count the same sales. |
| `Reports.ReportSpendMatchesLog` | services/ping-post/src/ping_post/api.py:1721-1844 | The gross spend of the daily report, read from posts, is what the billing log posted. |
| `Reports.CapRemainingMeansEligible` | services/ping-post/src/ping_post/api.py:1721-1844 | The report shows capacity exactly when the auction's daily cap check would pass. |
| `Reports.ReportCreditsSplit` | services/ping-post/src/ping_post/api.py:1721-1844 | The daily report's credits, read from the log, are the bids of the day's returned sales, read from posts, plus the credits of earlier sales returned that day; it never shows more returns than deliveries. |
| `Revenue.CampaignNetIsKept` | services/ping-post/src/ping_post/attribution.py:25-71 | A campaign's net revenue never exceeds the bids of its kept posts, and equals them if and only if its returned bids do not sum below zero. |
| `Revenue.CampaignsAddUp` | services/ping-post/src/ping_post/attribution.py:25-71 | Over different campaigns the reports add up to at most the kept revenue of their leads, and to exactly that if and only if no campaign's returned bids sum below zero. |
| `Revenue.AllCampaignsAddUp` | services/ping-post/src/ping_post/attribution.py:25-71 | With every campaign listed once the same holds against all kept revenue of leads that carry a campaign. |
| `Revenue.RoiIsExact` | services/ping-post/src/ping_post/attribution.py:25-71 | Each column of a campaign's report counts or adds up exactly the rows of its leads, the average is the mean of their known scores, and there is no report exactly for a campaign without leads. |
| `Revenue.ScoreIsCounted` | services/ping-post/src/ping_post/attribution.py:25-43 | Each score is averaged as often as a lead of the campaign has it. |
| `Revenue.ScoresAreLeads` | services/ping-post/src/ping_post/attribution.py:25-43 | The average score is taken over exactly the leads the report counts. |
| `Revenue.ZipNetIsKept` | services/ping-post/src/ping_post/attribution.py:104-133 | The net revenue of a zip never exceeds the bids of its kept posts, and equals them if and only if its returned bids do not sum below zero. |
| `Revenue.ZipsAddUp` | services/ping-post/src/ping_post/attribution.py:74-133 | The zips of a state, before the cut at fifty, add up to at most its kept revenue, and to exactly that if and only if no zip's returned bids sum below zero. |
| `Witnesses.NegativeReturnCountsTwice` | services/ping-post/src/ping_post/attribution.py:25-133 | An input where they do: for any negative bid, a history whose one sale is returned keeps nothing, and the reports of its campaign and of its zip both show twice the bid as net revenue. |
| `Attribution.QueryIsPlain` | services/ping-post/src/ping_post/attribution.py:74-133 | The two-stage query equals the direct per-zip sums over leads and posts, for any tables: each lead and each post is counted once, averages, ranking and cut included. |
| `Attribution.PlainGroupIsExact` | services/ping-post/src/ping_post/attribution.py:74-103 | Each column of a zip counts or adds up exactly the rows of its leads, and the average is the mean of their known scores. |
| `Attribution.RichestZipsAreKept` | services/ping-post/src/ping_post/attribution.py:104-110 | Fifty zips are kept, or all if there are no more, in order of revenue and then leads, and none that is left out earns more than one that is kept. |
| `Attribution.OneRowPerLead` | services/ping-post/src/ping_post/attribution.py:77-103 | A lead of the state contributes exactly one joined row, whose columns are the sums over that lead's posts. |
| `Attribution.ZipsHaveLeads` | services/ping-post/src/ping_post/attribution.py:77-103 | Zips are grouped exactly when a lead of the state lies in them. |
| `Attribution.GetRoiByZip` | services/ping-post/src/ping_post/attribution.py:104-133 | The loop returns at most fifty zips, richest first, each with its net revenue. |
| `Guardrails.MustPauseIsExact` | services/ping-post/src/ping_post/guardrails.py:22-74 | In whole numbers: an active buyer must be paused exactly if more than a quarter of its deliveries were returned or its answered pings took more than ten minutes on average. |
| `Guardrails.EvaluateBuyerGuardrails` | services/ping-post/src/ping_post/guardrails.py:50-88 | Pauses exactly the active buyers over a threshold, changes nothing else, and reports each once, in table order, with exactly the thresholds it exceeds; does nothing while disabled. Its writes are buyer updates of the step machine, so every law survives it. |
| `Guardrails.SecondEvaluationIsIdle` | services/ping-post/src/ping_post/guardrails.py:50-88 | After the job no active buyer is over a threshold, and running it again reports and changes nothing. |
| `Guardrails.OverAQuarter` | services/ping-post/src/ping_post/guardrails.py:22-37 | In every history the adjustment rate lies between 0 and 1, and exceeds its threshold exactly when more than a quarter of the deliveries were returned. |
| `Guardrails.AlwaysCapsPositive` | services/ping-post/src/ping_post/api.py:1456-1483 | Every buyer's daily cap stays at least one. |
| `CaptureLaws.CaptureOnce` | services/form-receiver/src/form_receiver/api.py:203-249 | Under any retries, crashes and interleavings: one lead per phone and hash, one audit per webhook, one start-to-captured row per lead; each lead is emitted and accepted at most once, only after its lead and audit rows exist. |
| `CaptureLaws.UnblockedIffFirstInWindow` | services/form-receiver/src/form_receiver/storage.py:68-118 | A lead is unblocked exactly when every earlier lead of its phone was captured more than the window before. |
| `CaptureWitnesses.SecondLeadIsBlockedInWindow` | services/form-receiver/src/form_receiver/storage.py:68-118 | Two forms of one phone with any time between them: the second lead is blocked and held exactly if it comes within the window. |
| `CaptureLaws.EmissionStillPossible` | services/form-receiver/src/form_receiver/api.py:226-241 | A captured lead can still be emitted, by any continuation, if and only if a live delivery that created it has still to emit it. |
| `CaptureLaws.FailedPushIsFinal` | services/form-receiver/src/form_receiver/api.py:226-241 | After a failed push the lead is never pushed again nor accepted, whatever is retried. |
| `CaptureWitnesses.LostPushIsNeverMadeUp` | services/form-receiver/src/form_receiver/api.py:226-241 | For any webhook, a first delivery whose push fails: no continuation ever sends the event or accepts the lead. |
| `CaptureLaws.OptOutCovers` | services/form-receiver/src/form_receiver/storage.py:178-213 | After an opt-out all contacts it names are covered, unless it names two of which exactly one was covered before; then not. |
| `CaptureWitnesses.SecondContactStaysUncovered` | services/form-receiver/src/form_receiver/storage.py:178-213 | A phone opts out, then the same phone with an email: the email stays uncovered and a later webhook with it is captured. |
| `CaptureLaws.CoveredContactNeverCaptured` | services/form-receiver/src/form_receiver/storage.py:50-66 | A covered contact stays covered and no lead with it is ever inserted again. |
| `FormReceiver.Receiver.FormbricksWebhook` | services/form-receiver/src/form_receiver/api.py:203-249 | A whole delivery is a history of the machine, and its reply says exactly which case occurred. |
| `FormReceiver.RetryAddsNothing` | services/form-receiver/src/form_receiver/api.py:203-249 | A webhook delivered to its reply and delivered again at once adds no row and sends no event. |
| `FormReceiver.LateRetryAddsAtMostAnAudit` | services/form-receiver/src/form_receiver/api.py:203-249 | A webhook delivered at any time after its phone and hash were captured, whatever happened since, adds no lead and sends no event; it adds an audit row exactly when its webhook id has none and the contact has not opted out. |
| `CaptureWitnesses.RetryWritesLostAudit` | services/form-receiver/src/form_receiver/api.py:203-249 | For any webhook whose first delivery died between lead and audit, the retry writes the audit row and nothing else. |
| `CaptureLaws.RetryAddsAtMostAnAudit` | services/form-receiver/src/form_receiver/api.py:203-249 | The same step by step, for a delivery interleaved with anything: once its phone and hash are taken, none of its steps adds a lead, a captured row or a push, and one adds an audit row exactly when it writes the first of its webhook. |
| `CaptureLaws.UpsertIsExact` | services/form-receiver/src/form_receiver/storage.py:33-149 | An upsert refuses a contact that opted out, finds a lead with the same phone and page hash, and otherwise adds a lead that is blocked and held exactly if its phone was captured within the window. |
| `CaptureLaws.RecordsAreExact` | services/form-receiver/src/form_receiver/storage.py:152-213 | An audit row is added exactly if the webhook has none, and a suppression entry exactly if none has one of the contacts. |
| `FormReceiver.Receiver.UpsertLead` | services/form-receiver/src/form_receiver/storage.py:33-149 | Refuses a suppressed contact, recognises a taken phone and hash, else inserts with the flags the score gives. |
| `FormReceiver.Receiver.RecordAudit` | services/form-receiver/src/form_receiver/storage.py:152-175 | Writes the audit row exactly when the webhook has none, and says so. |
| `FormReceiver.Receiver.RecordSuppression` | services/form-receiver/src/form_receiver/storage.py:178-213 | Adds an entry exactly when none matches; afterwards one does. |
| `Quality.InitialQualityScore` | libs/stormlead_core/src/stormlead_core/dedup.py:61-81 | The score lies in the unit interval; hold and blocked both come down to being a duplicate, since no other deductions reach the hold threshold; the reasons are exactly the deductions made. |
| `Platform.SoldLeadsAreApart` | services/ping-post/src/ping_post/auction.py:91-94 | With both services running in any interleaving, two sold leads with one phone were captured more than the window apart. |
| `Platform.BlockedNeverPosted` | services/ping-post/src/ping_post/auction.py:91-94 | No blocked lead ever gets a run past the gate or a post, since nothing clears the block. |
| `Pipeline.RankIsLongestWalk` | libs/stormlead_core/src/stormlead_core/pipeline.py:32-62 | Rank is exactly the longest walk from a state, at most five steps and ending sold or nurtured; exactly those two have no way out. |
| `Pipeline.NormalizeName` | libs/stormlead_core/src/stormlead_core/pipeline.py:44-46 | Names and states correspond one to one. |
| `TransitionLog.Store.RecordTransition` | libs/stormlead_db/src/stormlead_db/transitions.py:168-217 | One recording: the illegal and unknown transitions fail, a taken key returns the stored row, else the row is appended. |
| `TransitionLog.RecordIsExact` | libs/stormlead_db/src/stormlead_db/transitions.py:168-217 | All a recording can do: unless the step is one of the eight legal ones between named states, it fails; a taken key returns the row that has it; a fresh key adds exactly the row of the call, for a lead that exists. |
| `TransitionLog.JourneyIsRecorded` | libs/stormlead_db/src/stormlead_db/transitions.py:168-217 | A lead that exists can be recorded through any states that follow one another legally, such as captured, enriched, qualified, auctioned, sold: every recording inserts its row. |
| `TransitionLog.LogIsSound` | libs/stormlead_db/src/stormlead_db/transitions.py:168-217 | Keys stay unique, rows are only appended, and every row not from "start" is an edge of the pipeline. |
| `TransitionLog.ReplayChangesNothing` | libs/stormlead_db/src/stormlead_db/transitions.py:168-217 | Calls already made change nothing when made again, in any number, order and time. |
| `TransitionLog.ReplayReturnsStoredRows` | libs/stormlead_db/src/stormlead_db/transitions.py:168-217 | Repeating a sequence of calls returns the stored rows as found, not inserted. |
| `TransitionLog.ChainsAreShort` | libs/stormlead_db/src/stormlead_db/transitions.py:168-217 | Rows of a lead that chain, none from "start", are at most five, and none leaves sold or nurtured. |
| `TransitionLog.KeyIdentifiesStep` | libs/stormlead_db/src/stormlead_db/transitions.py:138-157 | A default key belongs to one step only if and only if neither event name nor task name contains the separator of the joined key text. |
| `Redaction.PlaceShows` | libs/stormlead_db/src/stormlead_db/transitions.py:246-250 | At every place of a payload that shows, however deep, the summary has exactly this: a dict keeps its keys and hides the field of every key that is one of the listed names or contains one of the listed parts, in any letter case; a dict at depth two is left out; a list keeps eight items and says how many more there were; a string is masked, cleaned under a URL key, and cut at 240; the rest is as it was. |
| `Redaction.NoContactShows` | libs/stormlead_db/src/stormlead_db/transitions.py:410-417 | No visible string under a key that is not a URL key contains an email address or a phone number. |
| `Masking.NothingLeft` | libs/stormlead_db/src/stormlead_db/transitions.py:68-69 | A masked text contains no email address and no phone number. |
| `Masking.MaskKeepsOthers` | libs/stormlead_db/src/stormlead_db/transitions.py:410-413 | Masking leaves a text as it is if and only if it contains neither. |
| `Masking.WholeIsMasked` | libs/stormlead_db/src/stormlead_db/transitions.py:68-69 | What is replaced is a whole number of up to fifteen digits, or a whole address up to the last dot with two letters behind it and all of these letters. |
| `Redaction.SummariesEqualIffAgree` | libs/stormlead_db/src/stormlead_db/transitions.py:246-250 | Two payloads have equal summaries if and only if they differ only under sensitive keys, past the eighth item of lists of one length, inside dicts at depth two or more, or in strings shown alike. |
| `Redaction.ValueNonInterference` | libs/stormlead_db/src/stormlead_db/transitions.py:385-403 | The same, for one value at any depth and key. |
| `Redaction.ShownAlike` | libs/stormlead_db/src/stormlead_db/transitions.py:410-417 | After rewriting, two texts are shown alike exactly when they are equal, or both look cut and agree on their first 237 characters. |
| `Redaction.SummaryIsSmall` | libs/stormlead_db/src/stormlead_db/transitions.py:373-417 | In a summary of any payload lists have at most nine entries, strings at most 240 characters and dicts nest at most four deep. |
| `Redaction.FourLevelsReached` | libs/stormlead_db/src/stormlead_db/transitions.py:385-392 | Four levels are reached. |
| `Redaction.SummarizeFields` | libs/stormlead_db/src/stormlead_db/transitions.py:373-382 | The loop over a dict computes the mapping the theorems are about. |
| `Redaction.SummarizeTransitionPayload` | libs/stormlead_db/src/stormlead_db/transitions.py:246-250 | The payload summary, empty for what is not a dict. |
| `Timeline.RowIsSummarised` | libs/stormlead_db/src/stormlead_db/transitions.py:284-288 | Every scanned row is covered by the summary of its own lead and run, and by no other. |
| `Timeline.GroupIsExact` | libs/stormlead_db/src/stormlead_db/transitions.py:284-286 | A row is in the group of its key as often as it was scanned, and in no other group. |
| `Timeline.EventsAddUp` | libs/stormlead_db/src/stormlead_db/transitions.py:288-291 | Before the cut the event counts add up to the rows scanned. |
| `Timeline.RunSummaryIsFair` | libs/stormlead_db/src/stormlead_db/transitions.py:310-334 | Counts are those of the rows; start and update times bound every row and are reached; state and latest event belong to a newest row; the status is attention exactly when a row failed, running exactly when none failed and one is under way. |
| `Timeline.RunCountsAreExact` | libs/stormlead_db/src/stormlead_db/transitions.py:310-320 | Its errors are the rows that neither succeeded nor were reviewed nor are under way, and its reviews the events of a review by the admin. |
| `Timeline.RunPathsAreInTime` | libs/stormlead_db/src/stormlead_db/transitions.py:310-334 | Its artifact paths are those of its rows in the order of time. |
| `Timeline.RecentRunsAreNewest` | libs/stormlead_db/src/stormlead_db/transitions.py:271-291 | The list is newest first, at most limit long, what was cut goes behind it, and it starts with a run as new as any scanned row. |
| `Timeline.PathsAreFirstDistinct` | libs/stormlead_db/src/stormlead_db/transitions.py:337-347 | At most eight artifact paths, none twice, none over 240 characters, the earliest distinct ones. |
| `Timeline.ListRecentLeadRuns` | libs/stormlead_db/src/stormlead_db/transitions.py:271-291 | The scan, grouping and summary loops compute that list; it is newest first, at most limit long, and of a table with rows it starts with a run as new as any row of the table. |
| `Timeline.ScanIsNewest` | libs/stormlead_db/src/stormlead_db/transitions.py:274-283 | The scan takes as many rows as its two limits say, and no row it leaves out is newer than one it takes. |
| `Timeline.NewestRunFirst` | libs/stormlead_db/src/stormlead_db/transitions.py:271-291 | The first run is as new as any row of the whole table, scanned or not. |
| `Timeline.GroupRows` | libs/stormlead_db/src/stormlead_db/transitions.py:284-286 | The grouping loop: keys in order of first occurrence, and under each exactly its rows in order. |
| `Timeline.CollectArtifactPaths` | libs/stormlead_db/src/stormlead_db/transitions.py:337-347 | The two loops compute the kept paths. |
| `Timeline.CollectArtifactValues` | libs/stormlead_db/src/stormlead_db/transitions.py:350-359 | The recursive walk appends the strings of `Artifacts`, in order. |
| `Timeline.ArtifactsAreUnderKeys` | libs/stormlead_db/src/stormlead_db/transitions.py:350-370 | A string is among them exactly when it stands at or below a field with an artifact key, at any depth. |
| `Timeline.EarlierPathsStay` | libs/stormlead_db/src/stormlead_db/transitions.py:337-347 | The paths kept for the first rows of a run come first among those kept for all of them: later rows never displace a path. |
| `Lists.DistinctInOrder` | libs/stormlead_db/src/stormlead_db/transitions.py:341-346 | Values kept once stand in the order of their first occurrences. |

## Left out

- Deposits and return reviews read a row and write it back in one transaction without a lock; they are modelled as atomic, and `Witnesses.SplitDepositsLoseOne` shows what happens otherwise.
- Upserts and opt-outs check and insert in one transaction; concurrent ones are modelled as atomic, and a clash on the unique delivery key ends the run.
- The clock is one monotone clock for application and database; days and months only move forward.
- Row ids are positions in their tables instead of UUIDs, and hashes are taken to be injective: the delivery key is the triple it hashes, and `TransitionLog.KeyIdentifiesStep` assumes an injective hash.
- Amounts have two decimal places, so cents are exact; wider amounts, which the service truncates, are not modelled.
- Ratios, means and delays are exact reals, not binary floating point.
- The filter expressions and the pilot rules of a buyer (zip, territory, class) are one arbitrary set of accepting buyers, except for status, balance and caps.
- HTTP, signatures, authentication, the workflow engine's events, notifications and TrustedForm verification; buyer replies, answers and crashes are inputs.
- Ping attempts are not rows of the marketplace tables; the guardrail job takes them as input.
- The transition rows an auction writes are not part of the marketplace tables; `TransitionLog` models the log by itself, and capture keeps only its own rows.
- A ping holds its slot for at most the ping timeout; the HTTP library applies that timeout to each operation of a request, so a slow sequence of operations can take longer.
- FanOut.WindowNeverFires: finishing exactly at the end of the window counts as in time.
- PingPost.Service.RunAuction: states the run without interleaving; interleaved runs are covered by the lemmas over histories.
- PingPost.Service.CreateBuyer: only the money columns; the zip check and the zips are in `Territory`, the other profile fields are not modelled.
- PingPost.Service.BuyerWithinCaps: its two queries read one snapshot here; in the service another run can commit between them.
- Territory.Registry.CheckExclusiveZipConflict: zips are compared as the validators return them, trimmed and in lower case.
- The daily report's pending returns, refill advice and detail rows.
- Guardrails.EvaluateBuyerGuardrails: buyers are visited in table order, which the query leaves open.
- Timeline.ListRecentLeadRuns: rows of one instant are scanned in table order, which the query leaves open.
- Attribution.QueryIsPlain: zips that tie on revenue and leads come in order of first occurrence, which the query leaves open.
- Redaction.SummariesEqualIffAgree: key order counts, letters outside ASCII have no case, and values that JSON cannot hold are not modelled; masking and URL cleaning are any two string functions there.
- Redaction.NoContactShows: letters and digits are those of ASCII, and the cleaning of URLs is any string function, so nothing is said of strings under URL keys.
- Keys, labels and states of a summary are not bounded in length, only values are; lists inside lists nest without bound.
- Phone, email and address normalisation: contacts are compared as the validators return them.
- Settings are fixed: the lookback window and the routing thresholds do not change during a history, except that each run reads its own thresholds.
- Suppression entries are never deactivated, since no code does so.
- The admin page, portal, mailer, cost and readiness reports, replay lookups, seeding, pollers and agents: no protocol of their own, or outside the marketplace.
