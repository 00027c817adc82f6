# Verified model of the negotiation backend and its agents

This project models a two-party negotiation protocol that runs on a chain which can reorganise, and
proves what the protocol relies on. `dafny verify dfyconfig.toml` checks all of it.

| part | modules |
|---|---|
| the indexer against a reorganising chain | `Chain`, `IndexerSpec`, `Indexer`, `PollOutcome`, `IndexerAgreement`, `IndexerCursor`, `OutboxSafety` |
| the negotiation, from observation to contract | `Protocol`, `Builder`, `BuildOutcome`, `Consistency`, `IndependentCheck`, `MandateValidation`, `Concession`, `DeterministicPolicy`, `Signing`, `Exchange`, `Negotiation`, `Bargain`, `Figures` |
| one agent instance | `Turns`, `AgentService` |
| the model budget | `Budget`, `ModelClient` |
| a run's lifecycle | `RunStates`, `Setup`, `SetupOutcome`, `SetupSafety`, `SetupHistories`, `Termination` |
| cross-checks | `Settlement`, `Reconstruction`, `Abi`, `JsonForms`, `Codec`, `Calldata`, `Nesting` |

Code that changes state step by step is a class or a loop, proved equal to a function on values; the
theorems over whole runs are about those functions. An interleaving, a crash or a reorganisation is a
step any history may take. What each such step does is stated again without naming the function that
does it: exactly when it answers what, and what it leaves (`PollOutcome`, `BuildOutcome`,
`SetupOutcome`, and the lemmas whose names end in `Does`, `Iff` or `Is`).

## What a reader should know

Assumptions. A block is its own hash and a digest its own message, so neither collides; a signature
is a recorded fact. A unit of work is atomic, one holder drives a run, and one poll reads one
consistent view of the chain, with no event of the exchange below the deployment's start block
(`NothingBefore`). An RPC failure is an abort at any point between units of work.

The finality hypothesis of `EveryRecordedPollAgrees` is the predicate `Final`: a block a recorded scan
read at a height, if the chain has replaced it since, is still above the finalized head. Without it,
`NextPollAgreesIff` says exactly when the next poll agrees.

Results that qualify what the code or its documentation promises:

- The scan's cursor is not lowered when the head shrinks (`services/api/src/api/indexer/indexer.py:440`).
  Comparing each poll only with the one before it is then not enough: `ShrunkHeadMissesAnEvent`. Over
  a run whose recorded heads never shrink it is: `GrowingHeadsAreEnough`.
- Two baseline agents settle exactly when their schedules meet. That is feasibility when the buyer's
  capital does not bind; where it binds, `BindingCapitalMissesADeal` gives a feasible deal they leave.
- The validator checks balances and floors but not allowances, so an acceptance it passes is taken by
  the contract exactly when it is mined in time and the allowances cover both legs:
  `SignedActionIsTakenIff`.
- An agent keeps its answered turns in memory only. One signature per turn number holds within one
  life of the process; a restarted instance, provisioned and approved again, signs the number again:
  `RestartSignsAgain`.
- A run that claimed the active slot and crashed before it was prepared is still `validated`. Stranding
  it raises, as the transition is not drawn: `StrandsIff`.
- Relay recovery drops a row once it finds a receipt of any other row at its nonce, whatever that row's
  own status. A nonce group can then have nothing left standing. Exactly while some other row of the
  group is not dropped, a mint and the creation stay at one nonce, and an approval also while the
  wallet's recorded nonce is still its own: `MintSentAgainIff`, `CreatedAgainIff`,
  `ApprovalAskedAgainIff`. Exactly while some other row is neither dropped nor replaced, the session
  is created, and a wallet topped up again, only over what is confirmed: `CreatedAtRestIff`,
  `ToppedUpAtRestIff`. These are of any state; `FirstBadRecoveryBreaks` and `FirstLooseRecoveryOpens`
  are of any history. `SetupHistories` has histories in which each happens, in every plan that has the
  step at all: `MintSentTwice`, `CreatedTwice`, `ApprovedTwice`, `OpenedOverUnconfirmedMint`,
  `ToppedUpTwice`.
- The relay marks rows without reading their status again. In the outbox theorems such a write is
  made only where it is safe, and `RelayWriteKeepsSafeIff` gives exactly when that is; a row still as
  the relay read it meets it. One that is recorded as broadcast only after its inclusion does not, and
  stays `submitted`: `LateBroadcastStrandsRow`.
- The budget ceilings need calls one at a time, as the guard's documentation says. Overlapping ones
  overspend by at most what was outstanding at the last admission: `OverlapIsBounded`.
- With no signed offer for the settled digest the indexer refuses every settlement while the
  reconstruction tool still holds the legs to the announced amount; with one token in both roles only
  the indexer accepts an ordinary settlement: `ChecksAgreeIff`.

## Model

| member | source | states |
|---|---|---|
| Indexer.Indexer.Poll | services/api/src/api/indexer/indexer.py:165-191 | one poll, abandoned between any two units of work or completed, leaves exactly the tables the specification names for that point |
| Indexer.Indexer.CheckReorg | services/api/src/api/indexer/indexer.py:226-302 | unfinalized rows whose block left the chain are invalidated, reset and rescanned from the lowest such height; no other row changes |
| Indexer.StaleOf | services/api/src/api/indexer/indexer.py:249-264 | the stored hashes the chain no longer has, and the lowest height among them |
| Indexer.Indexer.CollectStored | services/api/src/api/indexer/indexer.py:226-247 | every stored hash above the finalized head that must be re-verified, from events, inclusions and snapshots |
| Indexer.Indexer.ResetRows | services/api/src/api/indexer/indexer.py:304-321 | exactly the rows included in a stale block go back to `submitted` with no block |
| Indexer.Indexer.PollReceipts | services/api/src/api/indexer/indexer.py:326-339 | each nonce group is settled by its first mined row and no receipt above the head is recorded, however far the pass gets |
| Indexer.Indexer.RecordInclusion | services/api/src/api/indexer/indexer.py:341-374 | the mined row is included or reverted, its unmined rivals by nonce or action dropped |
| Indexer.Indexer.ScanLogs | services/api/src/api/indexer/indexer.py:404-418 | chunk by chunk, every exchange log from the scan's start to the head, however large the chunk |
| Indexer.Indexer.RecordAll | services/api/src/api/indexer/indexer.py:420-440 | every log is one canonical row, a known one made canonical again, and the cursor advances |
| Indexer.Indexer.UpdateDepth | services/api/src/api/indexer/indexer.py:501-549 | included rows become confirmed or finalized by depth and finalized head |
| PollOutcome.PolledRows | services/api/src/api/indexer/indexer.py:304-374 | every row of a completed poll: the first at its nonce with a receipt takes its block, and ends reverted if and only if the receipt failed and otherwise included, confirmed or finalized by height, finalized head and threshold; unmined rivals are dropped, other included rows deepen, the rest stay |
| PollOutcome.FailedIsNeverIncluded | services/api/src/api/indexer/indexer.py:341-374 | over every run of polls, cut short anywhere, restarts and relay writes of any kind, no row whose recorded receipt failed is included, confirmed or finalized, and none whose succeeded is reverted |
| PollOutcome.EventRuns | services/api/src/api/indexer/indexer.py:420-440 | a recorded event belongs to the run whose session its log names, and keeps the run it was first recorded for |
| PollOutcome.PolledSnapshots | services/api/src/api/indexer/indexer.py:266-292 | a snapshot is invalidated exactly when its block is found gone and its run's session is open |
| PollOutcome.PolledCursor | services/api/src/api/indexer/indexer.py:404-440 | the next scan begins past the head read, or as far as the cursor and every block found gone allow |
| IndexerSpec.PollLogsAreOnChain | services/api/src/api/indexer/indexer.py:326-418 | the logs a poll records, from receipts and scan together, are exchange events of the chain it read |
| IndexerAgreement.PollAgreesIff | services/api/src/api/indexer/indexer.py:165-191 | a completed poll leaves the watched canonical rows equal to the chain's exchange events if and only if the part below the scan already agreed |
| IndexerAgreement.StepKeepsInv | services/api/src/api/indexer/indexer.py:165-302 | completed, aborted and restarted polls keep: every row's block was read, and everything read below the cursor is recorded |
| IndexerAgreement.EveryRecordedPollAgrees | services/api/src/api/indexer/indexer.py:226-440 | over every run of polls, aborts, restarts and other writers, each recorded poll leaves exactly the exchange events of the chain it read, none missing, none stale, under the finality hypothesis |
| IndexerAgreement.NextPollAgreesIff | services/api/src/api/indexer/indexer.py:226-440 | after any such run, with nothing asked of finality, the next recorded poll agrees if and only if every watched row the finalized head has passed is at a height whose read block the chain still has, and every event of a block that took another's place below the scan is recorded or brought by a receipt |
| IndexerCursor.GrowingHeadsAreEnough | services/api/src/api/indexer/indexer.py:404-418 | over a whole run whose recorded heads never shrink, comparing each recorded poll with the one before it gives the hypothesis, and every recorded poll agrees |
| IndexerCursor.ShrunkHeadMissesAnEvent | services/api/src/api/indexer/indexer.py:409-440 | the cursor is not lowered when the head shrinks: three polls, each consistent with the one before, miss a finalized event |
| OutboxSafety.InclusionKeepsIndexIff | services/api/src/api/db/models.py:562-580 | recording an inclusion keeps one live row per action exactly when no other live one of it is mined |
| OutboxSafety.InclusionIsNeverRefused | services/api/src/api/indexer/indexer.py:341-374 | in a safe outbox the unique index never refuses a receipt |
| OutboxSafety.SafeHasOneInclusion | services/api/src/api/db/protocols.py:277-285 | a nonce group has at most one included row |
| OutboxSafety.MoveKeepsSafe | services/api/src/api/db/protocols.py:266-354 | every write of indexer or relay that may be made keeps one inclusion per nonce and one live row per action |
| OutboxSafety.RelayWriteKeepsSafeIff | services/api/src/api/relay/relay.py:372-380 | from any safe outbox, a row marked submitted or replaced, whatever its status is by then, is safe exactly when it may be live, and one marked dropped exactly when it has no inclusion |
| OutboxSafety.UnminedMayStand | services/api/src/api/relay/relay.py:396-444 | a row still pending or submitted, as the relay read it, meets that |
| OutboxSafety.RelayWrites | services/api/src/api/db/protocols.py:266-354 | each relay write is one status, and a replacement a pending row of another hash |
| OutboxSafety.LateBroadcastStrandsRow | services/api/src/api/relay/relay.py:372-380 | for any row and receipt: a broadcast recorded after its inclusion leaves the row `submitted` in a block, neither waited for nor deepened by any poll until that block is reorganised |
| OutboxSafety.PollKeepsFinalized | services/api/src/api/indexer/indexer.py:165-191 | a poll completed or aborted anywhere, at a finalized head no lower than before, changes no finalized row |
| OutboxSafety.OutboxSafeForGood | services/api/src/api/indexer/indexer.py:304-374 | through every interleaving of polls, reorganisations and relay writes the outbox stays safe and a finalized row never changes again |
| OutboxSafety.PollKeepsSafe | services/api/src/api/indexer/indexer.py:165-191 | a poll aborted anywhere leaves a safe outbox safe |
| Consistency.Check | services/agent/src/agent/consistency.py:38-132 | the check's accumulated problems are exactly those of the entries, the counts and the standing offer |
| Consistency.NoHistoryProblemsIff | services/agent/src/agent/consistency.py:38-88 | the history is clean exactly when every entry is |
| Builder.BuildHistory | services/api/src/api/observation/builder.py:225-249 | the history built in order is one entry per offer, replaced, active or expired |
| BuildOutcome.RefusesIff | services/api/src/api/observation/builder.py:94-186 | each error is given exactly in its case: an event below the threshold, then a terminal event, no opening, an unsettled action, no mandate or balances for the party to act, a proposer that is neither wallet |
| BuildOutcome.BuildsIff | services/api/src/api/observation/builder.py:94-186 | an observation is built if and only if none of these is so |
| BuildOutcome.BuiltShows | services/api/src/api/observation/builder.py:94-249 | and it shows, field by field, the first opening, the offers in order of number and the records of the party to act |
| BuildOutcome.OneOrder | services/api/src/api/observation/builder.py:149-171 | the offers have one order by number, those of one number as the events have them |
| IndependentCheck.AssembledIsConsistent | services/api/src/api/observation/builder.py:179-249 | assembled from any well-formed history, for either party, an observation has no contradiction and both services name the same next party |
| IndependentCheck.CheckPassesIffAssembled | services/agent/src/agent/consistency.py:38-132 | the agent passes an observation of its session exactly when the builder could have assembled it from some well-formed history |
| IndependentCheck.BuiltIsConsistent | services/api/src/api/observation/builder.py:94-138 | from the events of a well-formed history the builder builds if and only if each is at the threshold, none is terminal and every action is settled, and then without contradiction, for the agent's own next proposer |
| MandateValidation.TradeRefusedIffOutsideMandate | services/agent/src/agent/validation/mandate.py:164-224 | the trade refusals pass a price exactly when reservation, balance and floor allow it |
| MandateValidation.HoldingsRefusalIff | services/agent/src/agent/validation/mandate.py:74-104 | a refusal is for holdings exactly when the price itself is within the reservation |
| MandateValidation.AcceptedIff | services/agent/src/agent/validation/mandate.py:60-162 | each decision's whole condition, refused otherwise |
| MandateValidation.RefusedIff | services/agent/src/agent/validation/mandate.py:60-224 | each code is given exactly in its case, in the order of the checks |
| MandateValidation.AcceptedIsAsked | services/agent/src/agent/validation/mandate.py:60-162 | an accepted response is the decision it asks for |
| Concession.Monotone | services/agent/src/agent/policy/deterministic.py:35-53 | the buyer's scheduled price never falls and the seller's never rises, for every reservation and share |
| Concession.SafeSide | services/agent/src/agent/policy/deterministic.py:35-53 | despite rounding and the clamp, prices stay on the party's side of its bound, for a buyer exactly when the bound is at least 1 |
| Concession.LastIsBound | services/agent/src/agent/policy/deterministic.py:35-53 | the last opportunity is priced at the bound, at least 1 |
| Concession.PriceIsOnTheLine | services/agent/src/agent/policy/deterministic.py:35-53 | in exact integers a buyer's price is the greatest on or below its line from 4R/5 to R and a seller's the least on or above its line from 6R/5 to R, between the clamps |
| Concession.OnePriceIsAsked | services/agent/src/agent/policy/deterministic.py:35-53 | and there is one such price |
| Concession.OpeningPrice | services/agent/src/agent/policy/deterministic.py:35-53 | the first offer is four fifths of the bound rounded down, or six fifths rounded up |
| DeterministicPolicy.NeverRefused | services/agent/src/agent/policy/deterministic.py:82-97 | whatever the baseline decides passes the validator, so no repair is needed |
| DeterministicPolicy.AcceptsWhatItMay | services/agent/src/agent/policy/deterministic.py:82-97 | it accepts exactly the standing offers its mandate allows |
| DeterministicPolicy.ChoosesWhatItAnswers | services/agent/src/agent/policy/deterministic.py:82-121 | the baseline's whole answer to every observation: what it accepts, what it offers on its line, and the reason it leaves with |
| Negotiation.ObservationIsConsistent | services/api/src/api/observation/builder.py:94-138 | at every reachable session builder, agent and contract agree whose turn it is, and the observation is clean |
| Negotiation.SignedIsSound | services/agent/src/agent/signing/messages.py:54-128 | a signed action is of the next sequence, the approved session and the party to act; an offer expires after the chain time and no later than the session |
| Negotiation.SignedIff | services/agent/src/agent/turns/__init__.py:121-184 | an agent signs exactly what it was shown without contradiction, its validator accepts and its party may still sign |
| Negotiation.SignedSaysTheAnswer | packages/protocol/src/negotiation_protocol/reasons.py:20-47 | what is signed is the amount offered, the digest accepted or the number of the reason |
| Negotiation.SignedActionIsTakenIff | contracts/src/NegotiationExchange.sol:121-230 | the contract takes a signed action exactly when it is mined in time and, for an acceptance, both allowances cover the legs |
| Exchange.TakenIff | contracts/src/NegotiationExchange.sol:121-230 | of any state and any signed action, the contract's whole condition |
| Exchange.TakenLeaves | contracts/src/NegotiationExchange.sol:121-230 | and the state it leaves: the offer logged and standing alone, the settlement at the standing price, or the close |
| Negotiation.StepKeepsInv | services/agent/src/agent/signing/messages.py:54-128 | recorded as the next event, a signed action leaves a well-formed history again |
| Negotiation.EveryNegotiation | services/agent/src/agent/consistency.py:38-132 | whatever the policies answer: every observation is consistent, at most `maxOffers + 1` actions, and any settlement within both mandates |
| Bargain.SettlesIffMeets | services/agent/src/agent/policy/deterministic.py:35-97 | the closed form of when two baselines settle, for mandates and holdings of any kind |
| Bargain.MeetsIffFeasible | services/api/src/api/metrics/figures.py:114-140 | with capital that does not bind, that is feasibility |
| Bargain.MeetsImpliesFeasible | services/api/src/api/metrics/figures.py:114-140 | meeting always implies feasibility |
| Bargain.BindingCapitalMissesADeal | services/agent/src/agent/policy/deterministic.py:82-97 | where capital binds, a feasible deal the baselines walk away from |
| Bargain.GameSettlesIffMeets | services/agent/src/agent/policy/deterministic.py:35-121 | the played game settles exactly in the closed form's case, inside the feasible interval, within `maxOffers + 1` actions |
| Bargain.GameSettlesIffFeasible | services/agent/src/agent/policy/deterministic.py:35-121 | and exactly when feasible where capital does not bind |
| Bargain.InfeasibleGameRunsOut | services/agent/src/agent/policy/deterministic.py:105-121 | an infeasible game makes every offer, then closes with `terms_unacceptable` |
| Bargain.GameGoesOn | services/agent/src/agent/turns/__init__.py:140-172 | an open game never sticks: the party to act signs something the contract takes if mined in time and allowed for |
| Bargain.GameFollowsTheLines | services/agent/src/agent/policy/deterministic.py:35-121 | the played game in terms of the two reservations: every offer on its line, each but the last outside the other's mandate, settled exactly when the last is within it and at its price, closed only where no offer is left or the next is outside its proposer's mandate |
| Figures.MandateViolations | services/api/src/api/metrics/figures.py:164-191 | the loop counts exactly the actions outside their signer's mandate |
| Figures.NoViolations | services/api/src/api/metrics/figures.py:164-191 | nothing signed in any negotiation the chain ever showed the agents is a violation |
| Figures.SettlementSharesSurplus | services/api/src/api/metrics/figures.py:114-154 | a settlement implies feasibility, inside the interval, and the two utilities add up to the surplus |
| Figures.FeasibleIff | services/api/src/api/metrics/figures.py:114-140 | feasible exactly when some price is within both mandates, and the interval is exactly those prices |
| Figures.UtilitiesAre | services/api/src/api/metrics/figures.py:143-154 | a dearer settlement takes from the buyer what it gives the seller, and each has nothing at its own end of the interval |
| Budget.BoundCoversCost | services/agent/src/agent/budget/prices.py:96-133 | the rounded-up bound covers the rounded-up cost of every split of the admitted tokens |
| Budget.BoundIsLeast | services/agent/src/agent/budget/prices.py:113-122 | and some usage within the admission costs exactly the bound |
| Budget.EachTokenAtItsRate | services/agent/src/agent/budget/prices.py:124-133 | each further token of a kind adds that kind's rate to the bill, and nothing used costs nothing |
| Budget.CostCoversTheBill | services/agent/src/agent/budget/prices.py:94-96 | what is charged is the least whole amount that covers the bill |
| Budget.EstimateCovers | services/agent/src/agent/budget/prices.py:113-122 | the estimate is the least that covers all input at the dearest rate and all output |
| Budget.AdmittedIff | services/agent/src/agent/budget/guard.py:89-116 | each refusal exactly in its case, in order, and the estimate of an admission |
| Budget.SettlementAdds | services/agent/src/agent/budget/guard.py:118-131 | what each settlement adds, with and without a price, a usage or an estimate |
| Budget.BudgetGuard.Admit | services/agent/src/agent/budget/guard.py:89-116 | admits and counts, or refuses and changes nothing |
| Budget.BudgetGuard.Settle | services/agent/src/agent/budget/guard.py:118-131 | charges the reported cost, or the estimate when none came back |
| Budget.AccountIsWhatWasAdmitted | services/agent/src/agent/budget/guard.py:89-131 | calls and spend are exactly the admitted calls and what each was charged |
| Budget.CeilingsHold | services/agent/src/agent/budget/guard.py:89-131 | over any sequence of calls whose usage fits, neither ceiling is crossed |
| Budget.OverlapIsBounded | services/agent/src/agent/budget/guard.py:89-131 | over any interleaving of admissions and settlements the spend is at most the ceiling and the bounds outstanding at the last admission |
| Budget.OverlappingCallsOverspend | services/agent/src/agent/budget/guard.py:89-131 | and it can be that much: two calls admitted before either settles cross the ceiling |
| ModelClient.ParseUsage | services/agent/src/agent/model/client.py:402-430 | usage is read exactly when its counts are counts and the 1-hour share is within the writes |
| ModelClient.CountsAre | services/agent/src/agent/model/client.py:451-452 | a count is a whole number up to ten million |
| ModelClient.SortedErrors | services/agent/src/agent/model/client.py:375-391 | each outcome exactly for its errors |
| ModelClient.CarriesUsage | services/agent/src/agent/model/client.py:248-321 | only a well-formed answer carries a usage, its own |
| ModelClient.EntryCarriesUsage | services/agent/src/agent/model/fixtures.py:160-265 | a scripted entry settles its own usage unless cut, failed or unfilled |
| ModelClient.CountedPrompt | services/agent/src/agent/model/fixtures.py:78-91 | an entry is counted at all its input, read and written tokens |
| ModelClient.Charge.Settle | services/agent/src/agent/model/client.py:125-138 | the first settlement reaches the guard, any later one repeats its answer |
| ModelClient.AnthropicModelClient.Decide | services/agent/src/agent/model/client.py:163-233 | every exit leaves the guard as one settled call, or untouched when nothing was admitted, and is exactly the result its count and reply call for |
| ModelClient.AnthropicModelClient.Sent | services/agent/src/agent/model/client.py:217-321 | an error, an undecodable or malformed body settles the estimate, an answer its usage; each with its result |
| ModelClient.FixtureModelClient.Decide | services/agent/src/agent/model/fixtures.py:160-210 | each scripted entry is played once, through the guard once, whatever cuts it short |
| ModelClient.FixtureModelClient.Play | services/agent/src/agent/model/fixtures.py:212-265 | a failure or an unfilled answer settles the estimate, an answer its usage |
| ModelClient.EveryScriptSettlesEachCallOnce | services/agent/src/agent/model/fixtures.py:160-265 | over any script, however its turns end, the spend is the sum over admitted entries |
| ModelClient.EveryRunSettlesEachCallOnce | services/agent/src/agent/model/client.py:163-321 | over any attempts the spend is the sum over admitted calls of reported cost or estimate, under the ceiling |
| Turns.RunTurn | services/agent/src/agent/turns/__init__.py:121-184 | the first attempt to end the turn decides it, each earlier refusal is the next repair, and nothing is signed once released |
| AgentService.Instance.Provision | services/agent/src/agent/service.py:127-156 | a released run is refused, a known one answered or in conflict by the body it was first given and its address, a new one recorded |
| AgentService.Instance.ApproveSession | services/agent/src/agent/service.py:191-203 | the first admissible session is approved, the same one again is answered and another refused |
| AgentService.FirstProvisioningStands | services/agent/src/agent/service.py:127-203 | while a run stays known to one life it is provisioned again by its first body and approved again for its first session, and by no other |
| AgentService.Instance.Release | services/agent/src/agent/state/__init__.py:122-131 | the run leaves the registry for good and its record is marked for turns in flight |
| AgentService.Instance.BeginTurn | services/agent/src/agent/service.py:225-229 | a turn begins only for an approved run and then waits for its lock |
| AgentService.Instance.EnterTurn | services/agent/src/agent/service.py:229-238 | under the lock an answered turn gets its stored response or a conflict |
| AgentService.Instance.FinishTurn | services/agent/src/agent/service.py:239-254 | the flag, the signature, the stored answer and the lock change in one piece |
| AgentService.ProvisionDoes | services/agent/src/agent/service.py:127-156 | each answer to provisioning exactly in its case, and the one record it makes |
| AgentService.ApproveDoes | services/agent/src/agent/service.py:191-203 | each answer to an approval exactly in its case, and the session it records |
| AgentService.BeginDoes | services/agent/src/agent/service.py:225-229 | a turn waits exactly for a known run with a session |
| AgentService.EnterDoes | services/agent/src/agent/service.py:229-238 | an answered turn gets its response for the same observation and a conflict for another, an inconsistent one is refused, any other holds the lock |
| AgentService.FinishDoes | services/agent/src/agent/service.py:239-254 | exactly what is signed, answered, remembered and freed |
| AgentService.CancelDoes | services/agent/src/agent/service.py:225-254 | a cancelled turn answers and remembers nothing and frees its lock |
| AgentService.ReleaseDoes | services/agent/src/agent/state/__init__.py:122-131 | a released run is known no more and its record is marked |
| AgentService.RestartDoes | services/agent/src/agent/state/__init__.py:1-14 | a restarted process knows no run and no turn |
| AgentService.StepKeepsInv | services/agent/src/agent/service.py:225-254 | one record per run, a lock held by its one deciding turn, and every signature and answer remembered, kept by every step |
| AgentService.OneSignatureOneAnswer | services/agent/src/agent/service.py:225-254 | over every interleaving, at most one signature per turn number in one process life, and all its stored answers are one |
| AgentService.NothingAfterRelease | services/agent/src/agent/state/__init__.py:89-131 | after release nothing is signed for the run and it is never registered again in that life |
| AgentService.RestartSignsAgain | services/agent/src/agent/state/__init__.py:1-14 | a restarted instance signs the same turn number again |
| RunStates.RunRow.Move | services/api/src/api/controller/driver.py:150-176 | a move is decided again on the row: refused, or the one drawn transition with its event |
| RunStates.RunRow.BeginStep | services/api/src/api/controller/driver.py:178-191 | of two racing steps one is accepted |
| RunStates.RunRow.RecordOutcome | services/api/src/api/controller/driver.py:531-541 | an outcome is recorded once, with the termination's cause where there is one |
| RunStates.RunRow.RequestTermination | services/api/src/api/db/repositories/runs.py:135-147 | the first termination is kept |
| RunStates.UndrawnTransitionIff | services/api/src/api/controller/controller.py:317-426 | whatever a caller read, an undrawn transition is attempted exactly when a run is stranded outside the active states or an outcome's run moved on meanwhile |
| RunStates.StrandsIff | services/api/src/api/controller/controller.py:516-527 | a run of another deployment is stranded exactly when it is in an active state, and otherwise the operation raises |
| RunStates.OperationDoes | services/api/src/api/controller/controller.py:317-426 | the result of every operation, on any run and whatever it read |
| RunStates.DrawnIffTaken | services/api/src/api/controller/states.py:29-61 | between different states a transition is drawn if and only if some operation takes it |
| RunStates.FinishedIsNeverExpected | services/api/src/api/controller/states.py:46-49 | no operation moves a finished run, not even to a new cause |
| RunStates.EveryHistory | services/api/src/api/controller/states.py:29-73 | every history of stale operations is a path of the transitions, finished states absorb, the outcome is recorded once and only in a finished state |
| Termination.Terminator.Terminating | services/api/src/api/controller/driver.py:637-679 | one tick advances exactly where the abort or the expiry is due, asks for a person exactly where neither can help, and otherwise waits |
| Termination.Terminator.RequestTermination | services/api/src/api/controller/driver.py:630-635 | durable, and the first one is kept |
| Termination.TickSends | services/api/src/api/controller/driver.py:637-664 | exactly when a tick sends the abort, with which code, or the expiry, or asks for a person |
| Termination.NeverLeftStanding | services/api/src/api/controller/driver.py:637-664 | past the deadline a session seen standing has something on its way, or the expiry is sent, or a person is asked for |
| Termination.EveryTermination | services/api/src/api/controller/driver.py:630-679 | whatever happens to the rows: at most one original abort, before the deadline and with the first recorded code, at most one original expiry, at or after it, and no abort after an expiry |
| Setup.SessionSetup.SendMint | services/api/src/api/controller/setup.py:221-240 | a mint is sent only when nothing standing of it is found and nothing reverted |
| Setup.SessionSetup.Approval | services/api/src/api/controller/setup.py:256-377 | asks for nothing, funds the shortfall or requests the approval, at the recorded or the stuck nonce |
| Setup.SessionSetup.OpenSession | services/api/src/api/controller/setup.py:442-506 | after everything is confirmed, the recorded session is sent, or recorded and sent |
| Setup.Newest | services/api/src/api/controller/setup.py:259-268 | the newest approval of the party that is not gone, none exactly when there is none |
| SetupOutcome.MintIsSentIff | services/api/src/api/controller/setup.py:221-240 | a mint is sent exactly where nothing failed, there is something to mint and nothing of it stands |
| SetupOutcome.ApprovalDoesNothing | services/api/src/api/controller/setup.py:256-273 | nothing is done before every mint stands, after a failure or where nothing is to be asked |
| SetupOutcome.ApprovalDoes | services/api/src/api/controller/setup.py:274-377 | and otherwise exactly what is funded, asked for, remembered and recorded |
| SetupOutcome.OpeningDoes | services/api/src/api/controller/setup.py:442-506 | exactly when a session is recorded, with its id and the plan's duration after the head, and the one creation sent that carries it |
| SetupOutcome.SessionIsAnOpenings | services/api/src/api/controller/setup.py:453-506 | in every history the recorded session is one opening's, with its id and its head's time plus the duration, and every creation carries it |
| SetupOutcome.OutsideDoes | services/api/src/api/relay/relay.py:396-444 | what receipts, depth, reorganisations, replacements and recovery do to setup's rows |
| SetupSafety.SetupIsSafe | services/api/src/api/controller/setup.py:155-506 | through crashes, replacement and reorganisation, while recovery leaves groups standing: one nonce group per mint, approval and creation, exact shortfalls, no approval below its worst case, one session for every creation |
| SetupSafety.MintSentAgainIff | services/api/src/api/controller/setup.py:221-240 | from any safe state, after a recovery the mint stays at one nonce if and only if some other row at its nonce is not dropped |
| SetupSafety.MintedTwiceIff | services/api/src/api/controller/setup.py:221-240 | and two of it become live if and only if none is |
| SetupSafety.CreatedAgainIff | services/api/src/api/controller/setup.py:453-486 | the same of the session's creation |
| SetupSafety.ApprovalAskedAgainIff | services/api/src/api/controller/setup.py:256-297 | the same of an approval, unless the wallet's recorded nonce is still its own |
| SetupSafety.FirstBadRecoveryBreaks | services/api/src/api/relay/relay.py:432-440 | in any history the first recovery that leaves nothing of a mint standing is exactly what lets it be sent again |
| SetupSafety.SentOnlyAtRest | services/api/src/api/controller/setup.py:274-296 | while recovery leaves a row neither dropped nor replaced: a top-up is sent only when earlier ones are confirmed, and the session only when every mint, funding and approval is |
| SetupSafety.CreatedAtRestIff | services/api/src/api/controller/setup.py:442-486 | from any such state, after a recovery the session is created with all setup confirmed if and only if some other row at the nonce is neither dropped nor replaced |
| SetupSafety.ToppedUpAtRestIff | services/api/src/api/controller/setup.py:274-296 | from any such state, after a recovery a wallet short of its worst case is topped up by the whole shortfall, with its earlier top-ups confirmed if and only if some other row at the nonce is neither dropped nor replaced |
| SetupSafety.FirstLooseRecoveryOpens | services/api/src/api/relay/relay.py:432-440 | in any history the first recovery that leaves neither is exactly what lets the session be created early |
| SetupSafety.SessionIsKept | services/api/src/api/controller/setup.py:453-506 | the recorded session is never replaced |
| SetupHistories.MintSentTwice | services/api/src/api/relay/relay.py:432-440 | it happens to any mint of any plan: dropped with its sibling dropped before, it is sent again, and both are live |
| SetupHistories.CreatedTwice | services/api/src/api/controller/setup.py:442-486 | it happens to the creation in any plan, whatever approvals cost |
| SetupHistories.ApprovedTwice | services/api/src/api/controller/setup.py:256-297 | and to either party's approval, stuck and asked for again on any raised terms: a second one at the wallet's next nonce, and both are live |
| SetupHistories.ToppedUpTwice | services/api/src/api/controller/setup.py:274-296 | it happens in any plan to either party, whatever the approval costs and however much less the wallet holds: a second top-up of the whole shortfall while the first, replaced, may still be mined |
| SetupHistories.ShortfallSentTwice | services/api/src/api/controller/setup.py:274-296 | and both top-ups are mined |
| SetupHistories.OpenedOverUnconfirmedMint | services/api/src/api/controller/setup.py:442-451 | it happens in any plan with something to mint, whatever approvals cost: the session is created over a mint replaced and then dropped |
| Settlement.CheckSettlement | services/api/src/api/indexer/settlement.py:20-60 | each problem is listed exactly in its case, and none exactly for a settlement as it was signed |
| Settlement.CountEvents | services/api/src/api/indexer/settlement.py:32-52 | one pass counts the events and finds the first announced amount |
| Settlement.CollectTransfers | services/api/src/api/indexer/settlement.py:46-52 | the multiset of the two tokens' transfers |
| Settlement.OrdinaryIsSettled | services/api/src/api/indexer/settlement.py:20-60 | a mined receipt of one acceptance, one completion at the signed amount and the two transfers is a settlement as it was signed |
| Reconstruction.Reconstructor.CheckSettlementTransfers | packages/protocol/tools/reconstruct.py:455-572 | the recorded checks, in order, against the digest's own signed amount or else the announced one |
| Reconstruction.CountTransfers | packages/protocol/tools/reconstruct.py:466-509 | a token's own transfers, and those that are exactly a leg |
| Reconstruction.LegCheckIs | packages/protocol/tools/reconstruct.py:466-548 | what each recorded check passes on |
| Reconstruction.LegChecksPassIff | packages/protocol/tools/reconstruct.py:466-548 | all pass exactly when the amount was signed and announced and the legs and nothing else moved |
| Reconstruction.OfferFound | packages/protocol/tools/reconstruct.py:484-487 | the settled offer is the first that carries the digest |
| Reconstruction.ChecksAgree | services/api/src/api/indexer/settlement.py:41-60 | on distinct tokens the multiset comparison and the counted legs accept the same logs |
| Reconstruction.ChecksAgreeIff | packages/protocol/tools/reconstruct.py:466-509 | they accept the same logs exactly when the tokens are two; with one token the indexer still accepts an ordinary settlement, and the tool none between two parties |
| Settlement.NothingSignedIsRefused | services/api/src/api/indexer/settlement.py:37-39 | with nothing signed, no transfers pass the multiset comparison |
| Reconstruction.DeltasMatch | services/api/src/api/metrics/figures.py:319-336 | true exactly when all four balance deltas are the two legs |
| Reconstruction.LastSnapshotCounts | services/api/src/api/metrics/figures.py:319-336 | of several snapshots of one balance the last counts |
| Reconstruction.ReplayMovesTheLegs | services/api/src/api/metrics/figures.py:319-336 | replaying accepted logs conserves both totals, changes only the parties and satisfies the delta check |
| Abi.NumberRoundTrip | services/api/src/api/chain/codec.py:195-198 | big-endian words give back their number |
| Abi.DecodeEncoded | services/api/src/api/chain/codec.py:195-198 | every value of every type, nested and dynamic ones included, decodes from its encoding whatever follows |
| JsonForms.DecimalIsItsOwnForm | services/api/src/api/chain/codec.py:103-104 | a canonical decimal string is its number's own form |
| JsonForms.FormIsCanonicalIff | services/api/src/api/chain/codec.py:87-130 | what a JSON form stands for is written back as that form exactly when it is canonical |
| JsonForms.CanonicalStands | services/api/src/api/chain/codec.py:109-130 | every canonical form is accepted |
| JsonForms.SpaceInHex | services/api/src/api/chain/codec.py:87-130 | white space before a pair of hexadecimal digits changes nothing, inside one it is refused |
| Codec.CallRoundTrip | services/api/src/api/chain/codec.py:261-320 | calldata decodes to the same function, and the message comes back unchanged exactly when canonical |
| Codec.CanonicalEncodes | services/api/src/api/chain/codec.py:302-320 | every canonical message of all three kinds encodes |
| Calldata.CallLayout | contracts/src/interfaces/INegotiationExchange.sol:40-67 | byte by byte: the selector, one word for each field of the contract's struct in its order, the signature's place, length, bytes and padding |
| Calldata.CallNames | services/api/src/api/chain/codec.py:302-320 | the function and the struct each action's calldata are decoded as |
| Calldata.BigEndian | services/api/src/api/chain/codec.py:195-198 | words are read most significant byte first |
| Calldata.DigitsAre | services/api/src/api/chain/codec.py:87-130 | which digit stands for which number |
| Nesting.Nesting | services/agent/src/agent/policy/model.py:160-179 | the one-pass loop computes the scanner's deepest nesting |
| Nesting.NestingIsDepth | services/agent/src/agent/policy/model.py:143-179 | for every JSON text that is exactly the value's depth, whatever its strings hold |
| Nesting.PrefixIsNoDeeper | services/agent/src/agent/policy/model.py:143-162 | text that breaks off never measures less than what was read of it |

## Left out

- Cryptography: hashing, signature recovery and key derivation, and with it the checksum case of addresses.
- HTTP, authentication headers, settings, logging, the event stream and the SDKs; their failures are arbitrary steps.
- Event confirmations and depth on `chain_events` rows, the status mirror on signed actions, terminal snapshots and poll reports: they follow the rows that are modelled.
- The order in which a receipt pass visits rows is their order of creation.
- Timeline sentences, stored calldata, exports, the resource view and the web app: presentation.
- The agent's reading of a response's JSON into a decision: a response is one of its three shapes or unreadable with a code.
- Session approval's comparison of a session with the provisioned one: field by field equality.
- `createSession`, `expireSession` and `abortSession` on the contract: only the three signed entry points are modelled.
- Latency, wall-clock outages, lease expiry across processes and the order of background tasks.
- `Decimal` context precision: amounts are whole micro-dollars and rates exact reals.
- The parts of a turn record that carry no decision: latency, usage, template versions.
- Pre-setup and post-setup balance snapshots as steps of setup, and asking the agents to approve the opened session.
- The agent's own checks of a setup approval's bytes: an answered approval is one that matched.
- The reconstruction tool's comparison of on-chain balances with the announced amount: the same four deltas as the metrics' check.
- Decoding of events and reverts: no message is sent from them.
- SetupSafety.SetupIsSafe: assumes recovery leaves every group it drops from a row not dropped, which `MintSentAgainIff`, `CreatedAgainIff` and `ApprovalAskedAgainIff` show it needs; `MintSentTwice`, `CreatedTwice` and `ApprovedTwice` are histories without it.
- SetupSafety.SentOnlyAtRest: assumes recovery leaves one neither dropped nor replaced, which `CreatedAtRestIff` and `ToppedUpAtRestIff` show it needs; `OpenedOverUnconfirmedMint` and `ToppedUpTwice` are histories without it.
- Indexer.Indexer.CheckReorg: does not append the reorganisation's run events or reset signed actions, which follow the rows it resets.
- Indexer.Indexer.RecordInclusion: does not mirror the status on the signed action or keep gas and price.
- Indexer.Indexer.UpdateDepth: does not write confirmation counts on event rows.
- IndexerAgreement.EveryRecordedPollAgrees: assumes the finality hypothesis height by height, because `ShrunkHeadMissesAnEvent` shows poll by poll is not enough.
- OutboxSafety.OutboxSafeForGood: the relay marks a row submitted or replaced only where it may stand, which `RelayWriteKeepsSafeIff` shows it needs; `LateBroadcastStrandsRow` is a write that does not.
- AgentService.OneSignatureOneAnswer: holds within one life of the process, because `RestartSignsAgain` is what a restart allows.
