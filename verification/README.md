# Verified model of the revnet web client's submission protocol and its decision code

The client signs, funds and submits transactions that must never be authorized, paid or
broadcast twice, although tabs die, answers get lost and sibling tabs share one local storage.
This project models that protocol and the pure code around it, and proves what each promises.

**The durable submission protocol.** `ActivityStore` is the persisted list of activity rows with
its per-tab cache (a class per tab over a shared storage cell that may fail in every way the code
distinguishes). `RelayrProtocol` is the Relayr authorization and funding protocol as a state
machine over all tabs at once: a step is one stretch of synchronous code between two awaits, a
crash drops everything a tab holds in memory, and wallet, chain and Relayr answer as they like.
`RelayrSafety` proves its invariant step by step, `RelayrRows` says what each step and each guard means for
the rows, `RelayrKeys` that the keys of a request stay reserved, `RelayrRuns` the theorems over whole runs with
the exact condition of each, `RelayrLimits` the runs beyond that condition and `RelayrReached` the
runs that get there from a fresh browser; `FundableBundles` is the liveness side, a waiting bundle stays fundable. `RelayrTab` is the same code as a class
over the activity store, each method proved to be a guard or a write of the machine. `BatchRunner`
puts the rounds of a saved batch on top, beside tabs that may do anything with the same calls
(`BatchSafety`, `BatchRuns`, `BatchLimits`, `BatchReached`); `BatchResumes` says where a resumed round goes
and gives the runs to its payment and past it, and `BatchPayments` that the runner pays what it saved. `DirectRunner` runs a batch through the wallet call by
call under crashes at any point, `BatchJournal` keeps the saved batches, `BatchRounds` schedules
calls into rounds, `BundleIdentity` ties the hashes Relayr reports to the calls that were signed,
and `BatchHashes` joins that to a finished batch.

**Decision and search code.** `OperatorHistory` refines the adaptive window scan to "the first
accepted operator, newest first", and bounds how much it reads before it gives up; `CrossChainAuthority` and `SafeDeployment` show that replaying a
Safe's creation on Ethereum preserves its policy; `HookEnvelope` shows parser and builder of the
hook metadata envelope to be inverse.

**Codecs and arithmetic.** `Positional`, `Base58`, `Base32` and `Cid` decode content identifiers;
`PayoutReceipts`, `CashOuts` and `LoanFees` are the integer arithmetic of payouts, cash outs and
loan fees; `PriceSeries` smooths prices over real numbers.

Code that changes state step by step is imperative here too and is proved against a
specification function or relation; lemmas then say what that specification means. Keccak
digests, ABI encodings and string keys are injective constructors, and code 4001 is the user
rejection of EIP-1193, section "Provider Errors".

`dafny verify dfyconfig.toml` checks everything.

Promises the code does not keep in general, each with its exact condition and a general
construction beyond it, from states that runs reach:

- A bundle is funded only when every earlier payment is over: true at a wallet request exactly
  when the bundle still has its row (`FundingAtMostOnce`), for bundles not funded before from a
  row with a hash or from no row. Without the row a payment succeeded before
  (`ForgottenSuccessCanBePaidAgain`). A first funding from a row with a hash is a refund after a
  verified revert (`HashMeansReverted`) and safe itself, but from then on two payments can be live
  (`RefundAfterRevertCanPayTwice`), and only from then on (`TwoLiveMeansTainted`).
- A round of a batch has one bundle: exactly up to the moment the round is saved as ready or quoted
  with an executed bundle (`RoundSingle`, `PaidElsewhereSignsAgain`, `ExecutedIsTakenUp`). That needs
  a payment from elsewhere (`OnlyPaidElsewhere`), or a stale verification of a reverted payment
  (`StaleRevertExecutes`).
- No update of a sibling tab is lost: exactly unless the tab lost a write before, writes again and
  its copy of the row is missing or stale (`LostUpdateExactly`). `LostWriteUnblocks` says exactly when
  that lets a bundle be funded or calls be authorized once more.
- A received quote stays reserved in storage: exactly unless the first of the two writes cannot
  read storage and the second works (`QuoteStaysReserved`).
- Authorities that match one Safe match each other: exactly when Safes on one singleton have the
  same code there (`MatchComposes`).
- The comment beside the loan repay ceiling promises 3.6 days: true exactly for at most fifty days
  prepaid, with the rest of the cases decided too (`CommentedWindow`, from `WindowByLeaps`).

## Model

| member | source | states |
|---|---|---|
| ActivityStore.RetainActivities | web/src/lib/transaction-activity.ts:106-113 | the loop over the list with its count of terminal rows computes the recursive cap `Retain` |
| ActivityStore.RetainExact | web/src/lib/transaction-activity.ts:92-113 | the cap loses no unresolved row and keeps exactly the first 20 terminal rows, both in their order |
| ActivityStore.RetainIdempotent | web/src/lib/transaction-activity.ts:106-113 | capping a capped list changes nothing, so rereading what was written keeps it |
| ActivityStore.ActivityTab.Hydrate | web/src/lib/transaction-activity.ts:115-126 | first read of a tab: cache, raw text and both failure flags after working, failing and unreadable storage |
| ActivityStore.ActivityTab.Refresh | web/src/lib/transaction-activity.ts:144-165 | reread before an operation: a tab that lost a write keeps its cache, unreadable storage sets the read flag, otherwise the cache becomes what is stored |
| ActivityStore.ActivityTab.Emit | web/src/lib/transaction-activity.ts:128-142 | write back: nothing is written after a failed read, a failed write keeps the rows in memory only, a verified one sets cache and storage alike |
| ActivityStore.ActivityTab.RequirePersistence | web/src/lib/transaction-activity.ts:167-175 | passes exactly when, after a reread, neither failure flag is set |
| ActivityStore.ActivityTab.RecordActivity | web/src/lib/transaction-activity.ts:195-210 | one read-modify-write under every outcome of storage: of the row of its id every property the patch gives is stored and every other stays, or is blank in a new row |
| ActivityStore.ActivityTab.UpdateActivity | web/src/lib/transaction-activity.ts:212-229 | the same for an existing row, and a missing id changes nothing; the status of a row held for manual verification becomes a success only when the patch says that the verification is over |
| ActivityStore.ActivityTab.DismissActivity | web/src/lib/transaction-activity.ts:266-270 | one read-modify-write: the row is gone unless it is quarantined, and then it stays as it was |
| ActivityStore.OneOperation | web/src/lib/transaction-activity.ts:195-270 | every operation leaves unresolved rows of other ids alone and changes other terminal rows only by dropping them; ids stay unique |
| ActivityStore.EveryPropertyArrives | web/src/lib/transaction-activity.ts:195-270 | of the row of its own id an operation stores, property by property, what its patch gives and otherwise what was there; the one exception is the status of a quarantined row, with its condition in both directions |
| ActivityStore.ReadIsCapped | web/src/lib/transaction-activity.ts:74-90 | whatever a tab reads is within the cap already |
| ActivityStore.UnresolvedSurvives | web/src/lib/transaction-activity.ts:92-113 | an in-flight row survives any history of operations on other ids, cap included |
| ActivityStore.QuarantineHolds | web/src/lib/transaction-activity.ts:212-270 | a row held for manual verification stays present and never becomes a success until a patch explicitly assigns the flag |
| ActivityStore.RecencyOrder | web/src/lib/transaction-activity.ts:195-229 | the list is ordered by last record or update, newest first, so the surviving terminal rows are the 20 touched last |
| ActivityStore.NoLostUpdates | web/src/lib/transaction-activity.ts:144-270 | with working storage any interleaving of tabs with stale caches and reloads equals the operations applied one after another |
| ActivityStore.LostUpdateExactly | web/src/lib/transaction-activity.ts:128-270 | where that stops, exactly and under every outcome of storage: an in-flight row of another id survives any operation of a tab unless the tab lost a write before and no read since, now writes again, and its own copy of that row is missing or stale |
| ActivityStore.UnreadableStorageKept | web/src/lib/transaction-activity.ts:115-142 | storage a tab cannot read or parse is never overwritten by it |
| RelayrProtocol.StoreRefinesMap | web/src/lib/transaction-activity.ts:92-113 | every list operation is the map operation of the protocol with some terminal rows of other ids dropped |
| RelayrSafety.UnblockedDisjoint | web/src/hooks/useReviewedRelayr.ts:197-218 | a fresh authorization that passes `requireUnfunded` shares no call and no key with any open publication |
| RelayrSafety.UntracedHasNoLiveSend | web/src/hooks/useReviewedRelayr.ts:197-218 | a payable row without a hash is never the row of a send that may still be mined |
| RelayrSafety.ReuseStep | web/src/hooks/useReviewedRelayr.ts:632-657 | taking up a saved quote keeps the invariant |
| RelayrKeys.ReuseReserves | web/src/hooks/useReviewedRelayr.ts:640-656 | taking up a saved quote adds all keys of the request to the row of its bundle, changes nothing else of the row, and the tab remembers the quote with these keys |
| RelayrKeys.StepKeepsKeys | web/src/hooks/useReviewedRelayr.ts:588-1179 | no step of any tab takes a key off the row of a published bundle that was not executed |
| RelayrKeys.StepKeepsHeld | web/src/hooks/useReviewedRelayr.ts:588-1179 | every step of every tab keeps, for all quotes that are remembered or being paid, their keys in the row of the bundle until it was executed |
| RelayrKeys.QuotesStayReserved | web/src/hooks/useReviewedRelayr.ts:181-195 | in every state of every run: the row of a bundle that was not executed holds all keys of every quote of it that a tab remembers or is paying for, and no recovery scope among them is available |
| RelayrKeys.TakenUpStaysReserved | web/src/hooks/useReviewedRelayr.ts:632-657 | in every state after a request took up a saved quote, whatever became of the tab, until the bundle was executed its row holds all keys of the request and none of the recovery scopes of the request is available |
| RelayrRows.ScopeExactly | web/src/hooks/useReviewedRelayr.ts:181-195 | a recovery scope is available exactly when every row with its key is a success that is not quarantined |
| RelayrRows.UnblockedExactly | web/src/hooks/useReviewedRelayr.ts:197-218 | a bundle may be funded exactly when each row of it says unfunded or reverted and every other row about these calls or with one of these keys is a success |
| RelayrRows.FreshExactly | web/src/hooks/useReviewedRelayr.ts:197-218 | calls may be authorized afresh exactly when every row about them or with one of their keys is a success |
| RelayrRows.ReusableExactly | web/src/hooks/useReviewedRelayr.ts:632-640 | a saved quote can be taken up exactly for the same account and calls while its bundle is unfunded or its payment reverted |
| RelayrRows.PublishWrites | web/src/hooks/useReviewedRelayr.ts:884-913 | ahead of the POST the whole row: pending, unfunded, not quoted, with the call key and every key |
| RelayrRows.ReceiveWrites | web/src/hooks/useReviewedRelayr.ts:953-970 | after the answer the whole row of the bundle, quoted and unfunded, and the publication row is gone |
| RelayrRows.CommitWrites | web/src/hooks/useReviewedRelayr.ts:1081-1101 | ahead of the wallet request the whole row, over the row of the bundle or over none |
| RelayrRows.AnswerWrites | web/src/hooks/useReviewedRelayr.ts:1113-1165 | error 4001 makes the row pending and unfunded again, a hash is all that its answer writes, an uncertain answer leaves the payment submitted |
| RelayrRows.ReceiptWrites | web/src/hooks/useReviewedRelayr.ts:414-428 | a verified receipt confirms the payment, or marks it reverted and holds the row as failed |
| RelayrRows.PollWrites | web/src/hooks/useReviewedRelayr.ts:495-545 | a failed poll holds the row as failed, a success ends that, any other leaves it pending |
| RelayrRows.CrashForgets | web/src/hooks/useReviewedRelayr.ts:113-118 | a tab that dies forgets its quotes, funded bundles, fundings and authorizations, and no other tab forgets anything |
| RelayrRows.FundedIsRemembered | web/src/hooks/useReviewedRelayr.ts:1139-1143 | a tab refuses to pay a bundle again from its hash on, until it verified itself that the payment reverted |
| RelayrSafety.PublishStep | web/src/hooks/useReviewedRelayr.ts:884-919 | the publication row ahead of the POST keeps the invariant, whether or not the tab dies in between |
| RelayrSafety.ReceiveStep | web/src/hooks/useReviewedRelayr.ts:921-973 | naming a publication and dropping its row keeps its keys reserved, whether or not the tab dies in between |
| RelayrSafety.FundCommitStep | web/src/hooks/useReviewedRelayr.ts:1081-1112 | second check, submitted row and wallet request keep the invariant, whether or not the tab dies in between |
| RelayrSafety.FundRejectStep | web/src/hooks/useReviewedRelayr.ts:1113-1131 | after error 4001 the bundle is unfunded again and has no live send |
| RelayrSafety.FundHashStep | web/src/hooks/useReviewedRelayr.ts:1139-1143 | the returned hash is recorded only on the row of the one live send |
| RelayrSafety.VerifyStep | web/src/hooks/useReviewedRelayr.ts:386-429 | a verified receipt settles the send the row remembers and no other |
| RelayrSafety.PollSuccessStep | web/src/hooks/useReviewedRelayr.ts:475-559 | a success is written only for bundles whose payment was verified |
| RelayrSafety.StepKeepsInv | web/src/hooks/useReviewedRelayr.ts:588-1179 | every step of every tab keeps the invariant: open publications exclusive and reserved by a row, one live send a bundle, the row of a live send submitted or confirmed |
| RelayrRuns.RunKeepsInv | web/src/hooks/useReviewedRelayr.ts:588-1179 | the invariant holds in every state of every run over any tabs, crashes and evictions |
| RelayrRuns.EverySendStartsPayable | web/src/hooks/useReviewedRelayr.ts:1004-1112 | every wallet request of every run starts from an unfunded or reverted row (or from none once the bundle was executed), and the submitted row is persisted by then |
| RelayrRuns.FundingAtMostOnce | web/src/hooks/useReviewedRelayr.ts:197-218 | an equivalence, at every wallet request of every run for a bundle not funded before from a row with a hash or from no row: every earlier send was declined with 4001 or verified as reverted if and only if the bundle still has its row |
| RelayrRuns.OneLiveSend | web/src/hooks/useReviewedRelayr.ts:1004-1179 | at the same requests: afterwards at most one send of the bundle may still pay, if and only if the row was there |
| RelayrRuns.TwoLiveMeansTainted | web/src/hooks/useReviewedRelayr.ts:1004-1179 | in every state of every run a bundle with two sends that may still pay was funded earlier from a row with a hash or from no row |
| RelayrRuns.HashNeverChanges | web/src/hooks/useReviewedRelayr.ts:386-429 | in any step the remembered hash of a row changes if and only if the wallet returned another hash for its bundle, which happens only after a funding from a row with a hash; so a verdict awaited over a snapshot is about the hash of the row it is written to |
| RelayrLimits.HashMeansReverted | web/src/hooks/useReviewedRelayr.ts:197-218 | the first funding of a bundle from a row with a hash is always a refund: the remembered payment was mined as a failure and verified as reverted |
| RelayrLimits.RefundAfterRevertCanPayTwice | web/src/lib/transaction-activity.ts:202-207 | from every such refund a continuation exists in which two sends are live at once, because the merged row keeps the old hash |
| RelayrReached.RefundIsReached | web/src/hooks/useReviewedRelayr.ts:588-1179 | for every authorization and any tabs, a run from a fresh browser ends at such a refund |
| RelayrLimits.ForgottenSuccessCanBePaidAgain | web/src/hooks/useReviewedRelayr.ts:197-218 | the other case of `FundingAtMostOnce`, no row: a success row that was dismissed lets another tab with the quote fund the bundle again |
| RelayrReached.RememberedIsReached | web/src/hooks/useReviewedRelayr.ts:588-1179 | for every authorization and any two tabs, a run from a fresh browser ends where that is possible |
| RelayrRuns.KeysExactly | web/src/hooks/useReviewedRelayr.ts:619-631 | the keys of a request set are exactly the call of each request, its recovery scope if it has one, and the signer, chain and forwarder nonce unless it is raw |
| RelayrRuns.AuthorizationExclusive | web/src/hooks/useReviewedRelayr.ts:120-142 | in every reachable state two unresolved publications share no call key, and of one account no call, no recovery scope and no signer nonce of a forwarder |
| RelayrRuns.OpenPublicationBlocks | web/src/hooks/useReviewedRelayr.ts:181-218 | every unresolved publication has a persisted row which blocks fresh authorizations and scope checks for its keys |
| RelayrTab.RelayrTab.RequireScopeAvailable | web/src/hooks/useReviewedRelayr.ts:181-195 | in any tab, whatever failed before: passes exactly when the tab lost no write, storage can be read, and no row other than an unquarantined success holds the scope |
| RelayrTab.RelayrTab.RequireUnfunded | web/src/hooks/useReviewedRelayr.ts:197-218 | in any tab: passes exactly when the tab lost no write, storage can be read, no row blocks, and this tab did not fund the bundle |
| RelayrTab.RelayrTab.CommitFunding | web/src/hooks/useReviewedRelayr.ts:1081-1102 | in any tab: the wallet is asked exactly when that check passes and storage can be written, on the very rows the persisted submitted row was written over |
| RelayrTab.RelayrTab.FundingAnswered | web/src/hooks/useReviewedRelayr.ts:1103-1143 | hash, 4001 and any other failure: which row is written and whether the tab remembers the bundle as funded, under every outcome of storage |
| RelayrTab.RelayrTab.PaymentVerified | web/src/hooks/useReviewedRelayr.ts:386-429 | only a verified revert frees the bundle in memory and in the row, under every outcome of storage |
| RelayrTab.RelayrTab.CommitPublication | web/src/hooks/useReviewedRelayr.ts:884-913 | in any tab: signatures are posted exactly when that check passes and storage can be written, on the rows the persisted publication row was written over |
| RelayrTab.RelayrTab.QuoteReceived | web/src/hooks/useReviewedRelayr.ts:953-970 | the bundle row is stored before the publication row is dropped, each under its own outcome of storage |
| RelayrTab.QuoteStaysReserved | web/src/hooks/useReviewedRelayr.ts:953-970 | after a quote was received the bundle row or the publication row is stored, exactly unless the first of the two writes could not read storage and the second one works |
| RelayrTab.RelayrTab.ReuseQuote | web/src/hooks/useReviewedRelayr.ts:632-657 | takes up the first saved unfunded or reverted quote of exactly these calls that the tab sees, if there is one, and refuses when its write is not persisted; when the tab could read, the stored row then has all the keys it had and all of the request and is otherwise unchanged; a tab that cannot read at first may use a quote whose row is gone |
| RelayrTab.CommitIsMachineStep | web/src/hooks/useReviewedRelayr.ts:1081-1112 | whenever the tab code goes on to the wallet, the machine step was enabled and writes these rows |
| RelayrTab.PublicationIsMachineStep | web/src/hooks/useReviewedRelayr.ts:884-919 | the same for posting signatures |
| RelayrTab.LostWriteUnblocks | web/src/lib/transaction-activity.ts:128-142 | where the protocol stops when storage fails, exactly: after a tab that lost a write writes again, a bundle can be funded or calls authorized, whatever was stored, if and only if its copy of the row in the way is missing, does not block, or is terminal and dropped |
| FundableBundles.FundableKept | web/src/hooks/useMultichainBatch.ts:312-323 | a bundle that is waiting to be funded stays so through any step of any tab that does not fund it |
| BatchSafety.PublishedOnce | web/src/hooks/useMultichainBatch.ts:328-371 | a published bundle of these calls that was not executed blocks every fresh authorization of them, so the runner cannot sign them again |
| BatchSafety.BatchStep | web/src/hooks/useMultichainBatch.ts:216-525 | every step of the runner, of its protocol calls and of every other tab, which may publish, take up or fund the same calls, keeps the batch invariant |
| BatchResumes.EnterStep | web/src/hooks/useMultichainBatch.ts:310-328 | where each saved round goes at its turn: ready and quoted to the quote, pending to the wait, success to the next; a round saved as funding falls back to its quote if and only if the row of its bundle says unfunded or reverted, and is waited for otherwise |
| BatchResumes.BackOffStep | web/src/hooks/useMultichainBatch.ts:382-396 | after an error of the payment the round is quoted again exactly in that case |
| BatchResumes.ResumedRoundPays | web/src/hooks/useMultichainBatch.ts:305-382 | from every round saved as funding that was not paid, when its quote can be taken up and nothing stands in the way, the next steps of the runner itself are a run to a wallet request for the same bundle |
| BatchResumes.PaidRoundIsPending | web/src/hooks/useMultichainBatch.ts:381-398 | from there, when the send succeeds, a run to the round saved as pending with the payment verified |
| BatchResumes.PendingRoundIsDone | web/src/hooks/useMultichainBatch.ts:402-417 | and, when its destinations are verified, a run to the round saved as a success and on to the next |
| BatchResumes.DiedBeforePaying | web/src/hooks/useMultichainBatch.ts:305-382 | for every authorization and any two tabs, a run from a fresh browser in which the tab dies between saving that it funds and asking, and the tab that resumes asks the wallet for that very bundle |
| BatchResumes.OwnCallEnds | web/src/hooks/useMultichainBatch.ts:328-396 | however the own call of the runner ends, it goes on in the same round with the rounds as saved |
| BatchResumes.RunnerEnds | web/src/hooks/useMultichainBatch.ts:472-512 | a run ends finished only with every round a success, discarded, or with the batch and its rounds left in the journal |
| BatchResumes.RunnerDies | web/src/hooks/useMultichainBatch.ts:305-418 | a runner ends with its tab and with no other, and the rounds stay as saved |
| BatchResumes.RunnerDiesSigning | web/src/hooks/useMultichainBatch.ts:328-371 | the same for a tab that dies within its own authorization |
| BatchPayments.RunnerPaysSaved | web/src/hooks/useMultichainBatch.ts:371-382 | in every run, whenever the runner asks the wallet in its round, the request is for the bundle that the round is saved with |
| BatchSafety.SingleStep | web/src/hooks/useMultichainBatch.ts:305-418 | any step keeps one publication and one bundle of a round, unless the round is saved as ready or quoted with an executed bundle or its runner takes up an executed one |
| BatchSafety.UnfundedStep | web/src/hooks/useMultichainBatch.ts:305-418 | as long as only the runner asks the wallet to fund these calls and bundles that can be funded are over, no bundle of a round saved as ready or quoted was ever paid |
| BatchRuns.BatchRunKeepsInv | web/src/hooks/useMultichainBatch.ts:216-525 | the batch invariant holds in every state of every run, with any crashes and resumes and any steps of other tabs |
| BatchRuns.RoundSingle | web/src/hooks/useMultichainBatch.ts:305-418 | over every interleaving, refunds included, up to the moment a round saved as ready or quoted has an executed bundle, all that was published, quoted or saved for the round is one publication and one bundle |
| BatchRuns.RoundPublishedOnce | web/src/hooks/useMultichainBatch.ts:305-418 | until then the runner posts the signatures of a round at most once over all resumes |
| BatchRuns.RoundBundleNeverChanges | web/src/hooks/useMultichainBatch.ts:369-373 | until then no round ever acquires a second bundle |
| BatchRuns.RoundPaidOnce | web/src/hooks/useMultichainBatch.ts:378-397 | until then two sends for the bundles of a round that may still pay or did pay, whoever sent them, are for one bundle, and that bundle was funded from a row with a hash or from no row |
| BatchRuns.ReuseIsOurs | web/src/hooks/useMultichainBatch.ts:328-371 | the quote a resumed round gets is its saved bundle if and only if that bundle was not executed, equivalently if and only if its row can still be funded, as long as no executed bundle of these calls can |
| BatchReached.ExecutedIsTakenUp | web/src/hooks/useMultichainBatch.ts:328-371 | the run where one can: a bundle executed by its refund is marked unfunded by a late 4001, and a round that was never disturbed loses its own bundle to it |
| BatchRuns.OnlyPaidElsewhere | web/src/hooks/useMultichainBatch.ts:305-418 | in any run, as long as bundles of these calls that can be funded are over, such an execution needs a wallet request for these calls that is not the runner's |
| BatchRuns.TracedRunIsSettled | web/src/hooks/useMultichainBatch.ts:305-418 | they are in every state of a run when no bundle of these calls was funded from a row with a hash or from no row |
| BatchReached.StaleRevertExecutes | web/src/hooks/useMultichainBatch.ts:305-418 | the run where one is not: a stale verification of a reverted payment while the runner refunds it, and the round is executed as quoted by its own runner's payment |
| BatchLimits.PaidElsewhereSignsAgain | web/src/hooks/useMultichainBatch.ts:328-371 | and from there it fails: whenever another tab can pay the bundle of a round saved as quoted, the run exists in which it does and the resumed round signs again and saves a second bundle |
| BatchReached.QuotedIsReached | web/src/hooks/useMultichainBatch.ts:305-418 | for every authorization and any two tabs, a run of a batch ends at such a round |
| BatchRuns.RoundsInOrder | web/src/hooks/useMultichainBatch.ts:305-418 | successful rounds form a prefix: whatever was started has only executed rounds before it |
| BatchRuns.FinishedIsExecuted | web/src/hooks/useMultichainBatch.ts:473-480 | a batch becomes a success only when every round was paid and its destination calls verified |
| BatchHashes.FinishedCallsExecuted | web/src/hooks/useMultichainBatch.ts:403-480 | of a finished batch every call was executed: since a bundle succeeds only after its identity and receipt checks, the hash recorded for a request is a canonical successful transaction on its chain with exactly the target, calldata and value that were published for it, the raw call or the forwarder's `execute` of it |
| BatchRuns.DiscardLeavesNothingOpen | web/src/hooks/useMultichainBatch.ts:481-508 | the scope checks of the discard path imply that no published signature of the batch is unresolved |
| BatchRuns.RemovedMeansNothingOpen | web/src/hooks/useMultichainBatch.ts:481-524 | a batch leaves the journal only with no round ever quoted and no published signature of it unresolved, and this stays so in every later state |
| BundleIdentity.VerifyBundleIdentity | web/src/hooks/useReviewedRelayr.ts:288-324 | accepts exactly the answers that name this bundle and report as many destinations as were signed, each signed call with its own chain, uuid, target, calldata and value |
| BundleIdentity.PermutationExactly | web/src/hooks/useReviewedRelayr.ts:299-323 | for calls on distinct chains that is the same as the destinations being a permutation of the signed calls |
| BundleIdentity.VerifyDestinationReceipts | web/src/hooks/useReviewedRelayr.ts:326-384 | accepts exactly when the hash of every destination is a canonical successful transaction with the target, calldata and value of the signed call it reports, and the checks of its action hold |
| BundleIdentity.RecordHashes | web/src/hooks/useMultichainBatch.ts:403-415 | whatever order the calls were signed in, the hash recorded for a call is the one reported for exactly that call |
| BundleIdentity.RoundIsUsable | web/src/lib/multichain-batch.ts:132-143 | what a round signs is nonempty and on distinct chains, which is what identifying a bundle needs |
| BundleIdentity.RecordedHashExecutedTheCall | web/src/hooks/useMultichainBatch.ts:403-418 | a recorded hash is a canonical successful transaction on that call's chain with exactly its target, calldata and value |
| DirectRunner.DirectBatch.Save | web/src/lib/multichain-batch.ts:93-107 | a save that succeeds reached the journal with exactly the calls in memory; one that fails changed nothing or stored just that and was not read back |
| DirectRunner.DirectBatch.Create | web/src/lib/multichain-batch.ts:152-189 | a new batch starts with every call ready, saved if the save works, and nothing went to the wallet |
| DirectRunner.DirectBatch.Resume | web/src/lib/multichain-batch.ts:144-151 | a resumed run continues from exactly the saved calls of a pending batch |
| DirectRunner.DirectBatch.WriteContract | web/src/hooks/useReviewedWriteContract.ts:380-510 | the wallet is asked exactly when the checks pass and the mark was saved; the traffic with it is the request and its answer, the call in memory and journal stays marked, and a rejection leaves nothing outstanding |
| DirectRunner.DirectBatch.AskWallet | web/src/hooks/useMultichainBatch.ts:181-198 | the wallet is asked only with the submitting mark persisted, nothing outstanding and every earlier call verified |
| DirectRunner.DirectBatch.Confirm | web/src/hooks/useMultichainBatch.ts:74-161 | a call becomes a success exactly with a verified receipt of its own request, with the hash of the execution for a Safe proposal and its own hash otherwise, and other calls stay |
| DirectRunner.DirectBatch.SendCall | web/src/hooks/useMultichainBatch.ts:435-471 | what becomes of an unsent call after each answer: ready again after a 4001, still marked after an uncertain one, with the returned hash otherwise; the journal says so unless a save failed, and the traffic with the wallet is that of this answer |
| DirectRunner.DirectBatch.RunDirect | web/src/hooks/useMultichainBatch.ts:419-480 | success exactly when it gets past every call and no save failed, and then the journal says so; it stops at the first call it does not get past, which is as its fate makes it, later calls stay, and the traffic with the wallet is exactly that of the ready calls on the way |
| DirectRunner.DirectBatch.Run | web/src/hooks/useMultichainBatch.ts:216-510 | from the journal back to the journal: the call that is next there is the first that the wallet is asked for, unless it is held back or a save fails, and a call refused with a 4001 is next for the run after it |
| DirectRunner.DirectBatch.Discard | web/src/hooks/useMultichainBatch.ts:481-508 | a batch leaves the journal exactly when every call is ready and its scopes and the journal let it |
| DirectRunner.DirectBatch.Die | web/src/hooks/useMultichainBatch.ts:513-525 | a tab may die after any prefix of what it did, and the history stays safe |
| DirectRunner.DirectBatch.Campaign | web/src/hooks/useMultichainBatch.ts:216-525 | any number of runs, each cut anywhere, with any wallet, chain and storage, leaves a safe history |
| DirectRunner.AskedAtMostOnce | web/src/hooks/useMultichainBatch.ts:419-471 | the wallet is asked for each frozen call at most once apart from its explicit 4001 answers |
| DirectRunner.AskedInOrder | web/src/hooks/useMultichainBatch.ts:419-471 | reads back a clause of the safe histories which `DirectBatch.Campaign` keeps over any number of cut runs: no later call is put to the wallet before the exact receipt of every earlier one was verified |
| DirectRunner.AskedAfterSave | web/src/hooks/useReviewedWriteContract.ts:487-505 | reads back another: the persisted journal marks a call as submitting whenever the wallet is asked for it |
| DirectRunner.RemovedOnlyUnsubmitted | web/src/lib/multichain-batch.ts:108-115 | a batch leaves the journal only when no request of it is outstanding |
| DirectRunner.DoneIsVerified | web/src/hooks/useMultichainBatch.ts:473-480 | reads back another: the journal says success only when every call has a verified receipt of its own request |
| DirectRunner.ExplicitRejection | web/src/hooks/useMultichainBatch.ts:63-72 | finds code 4001 at any depth of a chain of causes and ends on cyclic chains |
| BatchJournal.Journal.Save | web/src/lib/multichain-batch.ts:93-107 | replaces the batch of the id or adds it; refuses on unreadable storage, and fails when the write did not arrive, which changes nothing, or is not read back, which changes the journal |
| BatchJournal.Journal.Remove | web/src/lib/multichain-batch.ts:108-115 | drops exactly the batch of the id, refuses on unreadable storage |
| BatchJournal.Journal.Create | web/src/lib/multichain-batch.ts:152-189 | drafts a batch exactly when the journal can be read, it has a scope and calls, and it is separate from every saved one: no pending batch of the account has its scope or shares an explicit recovery scope |
| BatchJournal.Journal.FindPending | web/src/lib/multichain-batch.ts:144-151 | finds a pending batch of the account and scope, and none only when there is none |
| BatchJournal.StepWrites | web/src/lib/multichain-batch.ts:93-115 | a save that arrives stores its batch, pending unless it is finished, in the place of any of its id, a removal leaves none of its id, both leave every other batch, and no other step writes |
| BatchJournal.StepKeepsInv | web/src/hooks/useMultichainBatch.ts:221-251 | every journal step under the account lock keeps pending batches separate |
| BatchJournal.PendingBatchesSeparate | web/src/lib/multichain-batch.ts:144-189 | in every state of every run two pending batches of one account differ in scope and share no explicit recovery scope |
| JournalText.RoundTrip | web/src/lib/multichain-batch.ts:59-92 | a saved value is read back as it was exactly when no object in it has the shape of a tagged bigint |
| BatchRounds.MakeBatchRounds | web/src/lib/multichain-batch.ts:132-143 | the loop over the calls with its map of counts computes a schedule: call `i` is in round number of earlier calls of its chain |
| BatchRounds.ExactlyOneRound | web/src/lib/multichain-batch.ts:132-143 | every call is in exactly one round, at exactly one place |
| BatchRounds.OneCallAChain | web/src/lib/multichain-batch.ts:132-143 | no round has two calls of one chain, and calls of one chain keep their order |
| BatchRounds.FewestRounds | web/src/lib/multichain-batch.ts:132-143 | no schedule that keeps calls of one chain apart has fewer rounds |
| OperatorHistory.FirstIsFirstWanted | web/src/lib/revnetOperator.ts:144-165 | the reference: the first nonzero accepted operator among the newest records of each valid operator, and None exactly when there is none |
| OperatorHistory.SortNewestFirst | web/src/lib/revnetOperator.ts:137-142 | the window is sorted newest block first, then highest log index, as a permutation |
| OperatorHistory.ScanWindow | web/src/lib/revnetOperator.ts:144-165 | one window gives the reference answer, skips operators already seen, and counts its accept calls and candidates |
| OperatorHistory.TryWindow | web/src/lib/revnetOperator.ts:119-165 | an overfull window gives nothing; any other continues the reference answer from the newer windows |
| OperatorHistory.ScanDown | web/src/lib/revnetOperator.ts:108-173 | a result is the reference answer of the whole range; otherwise there is none down to the block it reports as reached, which is the deployment block exactly when the scan ended there; above it the scan ends only at a throw or a limit that the records exceed; a window is scanned within 16 requests, and the requests run out only after two windows, and not while the range has at most 32 / (k + 1) windows of 50000 blocks halved k times and none of this size holds too much |
| OperatorHistory.Answered | web/src/lib/revnetOperator.ts:131-172 | an answer that is too large halves the window at the same newest block, and ends the scan exactly at a single block; any other moves on below the window at full size or ends the scan with its answer |
| OperatorHistory.FindOperator | web/src/lib/revnetOperator.ts:88-174 | the same for the whole function, with the early ends on unusable arguments |
| OperatorHistory.NoneMeansNone | web/src/lib/revnetOperator.ts:108-173 | without a result and a throw, no operator of the whole range is accepted when no block holds more than 256 records, there are at most 64 operators, and less than 32 requests were made or the range has, for some k, at most 32 / (k + 1) windows of 50000 blocks halved k times and none of this size holds too much |
| CrossChainAuthority.EquivalentVersions | web/src/lib/cross-chain-authority.ts:102-124 | equivalent singletons are of one recognized release, and equivalence is symmetric |
| CrossChainAuthority.NormalizedOwnerSet | web/src/lib/cross-chain-authority.ts:249-258 | sorted and strictly increasing, exactly the owners, and refused exactly on duplicates, unusable owners or too many |
| CrossChainAuthority.SameOwners | web/src/lib/safeDeployment.ts:174-183 | the element by element comparison of normalized lists compares the owner sets |
| CrossChainAuthority.MatchSymmetric | web/src/lib/cross-chain-authority.ts:593-627 | the matcher is symmetric |
| CrossChainAuthority.MatchIgnoresOwnerOrder | web/src/lib/cross-chain-authority.ts:593-627 | the matcher is invariant under the order of owners |
| CrossChainAuthority.MatchExactly | web/src/lib/cross-chain-authority.ts:593-627 | two Safes match exactly when both are acceptable, have the same owners in whatever order, and agree in everything else but the singleton, which may be the paired one, and on one singleton its code |
| CrossChainAuthority.MatchNeedsAcceptable | web/src/lib/cross-chain-authority.ts:593-627 | reads back clauses of the comparison: what matches is acceptable on both sides, and a Safe matches itself exactly when acceptable |
| CrossChainAuthority.MatchComposes | web/src/lib/cross-chain-authority.ts:593-627 | two matches in a row compose if and only if the outer Safes, when on one singleton, have the same code there |
| CrossChainAuthority.MatchNotTransitive | web/src/lib/cross-chain-authority.ts:117-124 | a family where they do not: paired singletons skip the code comparison |
| CrossChainAuthority.AllowedIffMatch | web/src/lib/cross-chain-authority.ts:686-747 | another chain's authority is allowed exactly when both reads succeeded and the identities match |
| CrossChainAuthority.MissingExactlyWhenDeployable | web/src/lib/cross-chain-authority.ts:686-747 | a missing Safe is reported exactly for an acceptable policy of EOA owners and an address without code and without a delegation, and the verdict is unknown exactly when a read that it needs failed |
| SafeDeployment.CodeFailure | web/src/lib/safeDeployment.ts:434-453 | passes exactly with a free address, code at factory and singleton, an equivalent singleton with the same code where it must be, and the pinned setup code |
| SafeDeployment.HandlerFailure | web/src/lib/safeDeployment.ts:457-470 | passes exactly with no handler, or one whose runtime is not a delegation and has the source's hash |
| SafeDeployment.SimulateDeployment | web/src/lib/safeDeployment.ts:378-486 | a deployment is offered exactly for a valid creation, a ready destination and the authority's own address; the other verdicts exactly when they apply |
| SafeDeployment.ReplayPreservesPolicy | web/src/lib/safeDeployment.ts:219-309 | the Safe an accepted replay creates matches the source exactly when the source has at most 50 owners |
| SafeDeployment.ReplayIsAllowed | web/src/lib/safeDeployment.ts:219-470 | for at most 50 owners the final verdict after deployment is allowed, and the setup pays nobody |
| SafeDeployment.ValidIsInert | web/src/lib/safeDeployment.ts:186-309 | reads back what the branches of the validation leave over: a valid creation runs nothing but the exact setup hook, has usable owners and a threshold within them |
| SafeDeployment.ValidExactly | web/src/lib/safeDeployment.ts:186-309 | the accepted creations, exactly: by a factory of the recognized release of its singleton, for a source with a safe policy on the same or the paired singleton, with a setup that has its owners, threshold and handler, runs nothing or the exact hook, and pays nobody |
| HookEnvelope.ParseTable | web/src/components/TransactionReviewProvider.tsx:743-753 | the cursor loop finds exactly the entries of any table that was written, and only chunks the table holds |
| HookEnvelope.OffsetsFit | web/src/components/TransactionReviewProvider.tsx:759-763 | the check loop passes exactly on strictly ascending offsets within the words |
| HookEnvelope.ParseEnvelope | web/src/components/TransactionReviewProvider.tsx:731-771 | parser and builder undo each other: a result exactly when some envelope was built into these bytes, and that envelope |
| HookEnvelope.AcceptedIsBuilt | web/src/components/TransactionReviewProvider.tsx:754-770 | what passes the checks is rebuilt byte for byte from its segments |
| HookEnvelope.BuiltSegments | web/src/components/TransactionReviewProvider.tsx:765-770 | the segments of a built envelope are its entries: nonempty payloads that tile the rest |
| Base58.MulAddInPlace | web/src/lib/ipfs-cid.ts:25-33 | one pass with a carry multiplies the bytes by 58 and adds the digit |
| Base58.DecodeBase58 | web/src/lib/ipfs-cid.ts:20-39 | accepts exactly alphabet texts; the bytes are the base 256 numeral of the base 58 value with one zero byte for each leading 1 |
| Base58.DecodeInjective | web/src/lib/ipfs-cid.ts:20-39 | decoding is injective on nonempty texts |
| Base58.EncodeRoundTrip | web/src/lib/ipfs-cid.ts:20-39 | the encoder is the only inverse: a text decodes to these bytes exactly when it is their encoding |
| Base32.DecodeBase32 | web/src/lib/ipfs-cid.ts:41-61 | accepts exactly the canonical unpadded lowercase encodings of RFC 4648 and gives back what was encoded |
| Cid.ReadVarint | web/src/lib/ipfs-cid.ts:63-77 | the loop with its limit of eight bytes, its safe-integer check and its minimality check computes `ReadAt` |
| Cid.VarintExact | web/src/lib/ipfs-cid.ts:63-77 | that is exactly the shortest LEB128 forms of values up to 2^53 - 1, where they stand |
| Cid.IsCidV1Bytes | web/src/lib/ipfs-cid.ts:84-94 | accepts exactly version 1, a codec, a hash function and a digest of 1 to 128 bytes, each number in shortest form |
| Cid.UniqueReading | web/src/lib/ipfs-cid.ts:84-94 | accepted bytes have one reading, which rebuilds them |
| Cid.MultihashText | web/src/lib/ipfs-cid.ts:3-15 | every encoded sha2-256 multihash has 46 characters and starts with Qm |
| Cid.IsIpfsCid | web/src/lib/ipfs-cid.ts:6-15 | accepts exactly base58btc sha2-256 multihashes, and "b" with the canonical base 32 text of 20 to 120 characters of a version 1 identifier |
| PayoutReceipts.VerifySplits | web/src/lib/payout-receipts.ts:83-114 | the loop with remaining amount and percentage passes exactly when every split event is its successive share, and gives the remainder |
| PayoutReceipts.VerifyPayoutReceipt | web/src/lib/payout-receipts.ts:37-119 | accepts exactly the receipts with one payout event, no reverted one, and split events that fit |
| PayoutReceipts.SharesConserve | web/src/lib/payout-receipts.ts:83-114 | shares and remainder are the whole amount |
| PayoutReceipts.ShareBounds | web/src/lib/payout-receipts.ts:83-114 | split `i` gets at least its part of the whole rounded down and at most that part plus `i` |
| PayoutReceipts.AcceptedPaysEveryone | web/src/lib/payout-receipts.ts:68-118 | every accepted receipt conserves the amount, pays every split within these bounds, and keeps fees within a fortieth |
| PayoutReceipts.EventsOfThisCall | web/src/lib/payout-receipts.ts:41-61 | the payout and split events that are looked at are exactly those the terminal logged for this project and caller |
| PayoutReceipts.AcceptedExactly | web/src/lib/payout-receipts.ts:61-118 | the accepted receipts, exactly: nothing of this call reverted, one payout event of the expected ruleset, cycle, owner and amount that paid the minimum and something at a fee of at most a fortieth, and for each split in order one event with its successive share |
| CashOuts.QuoteWithinSurplus | web/src/lib/cashOutQuote.ts:46-71 | a quote never exceeds the surplus |
| CashOuts.Ends | web/src/lib/cashOutQuote.ts:61-66 | full tax always quotes nothing, below it the whole supply quotes the whole surplus, and without tax a part quotes its even part |
| CashOuts.MonotoneInCount | web/src/lib/cashOutQuote.ts:46-71 | more tokens never get less |
| CashOuts.MonotoneInSurplus | web/src/lib/cashOutQuote.ts:46-71 | a larger surplus never quotes less |
| CashOuts.AntitoneInTax | web/src/lib/cashOutQuote.ts:46-71 | a higher tax never quotes more |
| CashOuts.BackingNeverFalls | web/src/lib/cashOutQuote.ts:46-71 | surplus per remaining token never falls through one cash out |
| CashOuts.SequenceSafe | web/src/lib/cashOutQuote.ts:46-71 | over any sequence of cash outs the total stays within the surplus and backing never falls |
| CashOuts.SplittingGainsLittle | web/src/lib/cashOutQuote.ts:46-71 | two cash outs gain strictly less than 2 + base / 10000 units over one, and nothing without tax |
| CashOuts.CashOutDisplayUnit | web/src/lib/cashOutQuote.ts:78-87 | the largest power of ten up to one token that the supply covers, with the errors apart |
| CashOuts.ExitFloorQuote | web/src/lib/cashOutQuote.ts:89-109 | quotes exactly that unit against minted and reserved supply, and nothing exactly on inputs out of range |
| LoanFees.FeeGrows | web/src/lib/loanFees.ts:12-34 | the fee never falls over time, and with the prepaid part stays within the principal |
| LoanFees.FeeEnds | web/src/lib/loanFees.ts:12-34 | nothing while the prepaid time lasts, exactly what was not prepaid at the last second before the liquidation, and no fee exactly after it |
| LoanFees.CeilingExact | web/src/lib/loanFees.ts:12-48 | the ceiling quoted at one moment covers the repayment at a later one if and only if the ramp advanced by at most one permil, or by two that cost at most a thousandth of the principal, which up to 487 permil prepaid they never do |
| LoanFees.CeilingCovers | web/src/lib/loanFees.ts:46-48 | so it covers any moment at most (D - P) / 1000 seconds later |
| LoanFees.WindowExact | web/src/lib/loanFees.ts:46-48 | and up to 487 permil prepaid (D - P) / 1000 seconds is exactly how long every quoted ceiling lasts; with up to 500 at most twice as long |
| LoanFees.WindowByLeaps | web/src/lib/loanFees.ts:46-48 | for every loan with up to 500 permil prepaid a window is covered if and only if no three permil are gained within it, and no two that cost more than a thousandth of the principal |
| LoanFees.CommentedWindow | web/src/lib/loanFees.ts:36-45 | the comment's 3.6 days holds if and only if at most fifty days are prepaid; only beyond 487 permil and between 50 and 1850 days it depends on the permils a window can start from, as `WindowByLeaps` says |
| PriceSeries.SortByTime | web/src/lib/priceSeries.ts:12-17 | a stable sort: in time order, and the points of each moment keep theirs |
| PriceSeries.Filter | web/src/lib/priceSeries.ts:12-16 | keeps exactly the points of finite time and positive finite price, in order |
| PriceSeries.Reduce | web/src/lib/priceSeries.ts:18-25 | of points in time order, the last of each moment and nothing else |
| PriceSeries.Prepare | web/src/lib/priceSeries.ts:12-25 | what is smoothed: the finite positive points in time order, the last of each moment and nothing else |
| PriceSeries.OneBucket | web/src/lib/priceSeries.ts:38-66 | the average of one bucket times its width is the integral of the step function over it |
| PriceSeries.Smooth | web/src/lib/priceSeries.ts:27-72 | endpoints pinned and one average for each bucket of an even grid |
| PriceSeries.SmoothPriceSeries | web/src/lib/priceSeries.ts:11-73 | the whole function on any readings, finite or not, and any whole number of buckets, over real numbers |
| PriceSeries.SmoothingConserves | web/src/lib/priceSeries.ts:11-73 | bucket values times bucket width add up to the integral of the input |
| PriceSeries.SmoothingStaysWithin | web/src/lib/priceSeries.ts:11-73 | every value lies within the range of the input, timestamps strictly increase, endpoints stay |
| PriceSeries.PoolReservesAt | web/src/lib/priceSeries.ts:87-98 | the scan computes `LastAt` |
| PriceSeries.LatestObservation | web/src/lib/priceSeries.ts:87-98 | on ordered observations that is the latest one up to the moment, and none exactly when all are later |
| PriceSeries.BucketPoolReserves | web/src/lib/priceSeries.ts:106-128 | the two pointers find for every bucket what `PoolReservesAt` finds at its close, and omit exactly the undefined ones |

## Left out

- RelayrRuns.FundingAtMostOnce: at requests for bundles not funded before from a row with a hash or from no row, which is as far as it is an equivalence; beyond that `RelayrLimits` has the failing runs and `EverySendStartsPayable` covers all bundles.
- RelayrRuns.OneLiveSend: at the same requests.
- RelayrRuns.HashNeverChanges: where the hash can change, the verdict of a payment receipt is written in the step that reads the row.
- BatchRuns.RoundSingle: up to the moment a round saved as ready or quoted has an executed bundle; beyond it `PaidElsewhereSignsAgain` and `ExecutedIsTakenUp` are the failing runs.
- BatchRuns.RoundPublishedOnce: up to the same moment.
- BatchRuns.RoundBundleNeverChanges: up to the same moment.
- BatchRuns.RoundPaidOnce: up to the same moment; a bundle funded from a row with a hash can be paid twice itself (`RefundAfterRevertCanPayTwice`).
- RelayrRuns.AuthorizationExclusive: stated for publications not yet verified as executed; a success row that a stale poller sets back to pending is not an open publication. A quote taken up again only adds keys to its row, so the keys here are those that were signed.
- RelayrTab.RelayrTab.PaymentVerified: the payment receipt is one verdict, and the returns on a missing or dropped receipt change nothing.
- SafeDeployment.ReplayPreservesPolicy: the proxy runtime hash on the destination is taken to be the source's, and the singleton's code there to be a runtime.
- PriceSeries.SmoothPriceSeries: over real numbers, so floating-point rounding is not modelled, and for whole numbers of buckets; the branch for a zero duration is unreachable after removing duplicates.
- PriceSeries.BucketPoolReserves: over real numbers, for a whole number of buckets.
- DirectRunner.DirectBatch.WriteContract: the account, chain, precondition and duplicate checks before a request are one verdict a call.
- DirectRunner.DirectBatch.Confirm: receipt checks of a call, direct or through a Safe, are one verdict.
- BatchHashes.FinishedCallsExecuted: that a bundle succeeds only after its checks is a hypothesis here; the checks themselves are `VerifyBundleIdentity` and `VerifyDestinationReceipts`. The forwarder's calldata is a function of the signer, the inner call and the rest of what is signed.
- OperatorHistory.FindOperator: the records are those of one project, decoded; an answer to a range is complete.
- Working storage inside the Relayr machine: failures of storage are modelled where they are handled, in `ActivityStore`, `RelayrTab`, `DirectRunner` and `BatchJournal`; `LostWriteUnblocks` says when a failure undoes what the machine promises.
- Locks: either `navigator.locks` is there or only one tab is open.
- Relayr names every publication by a uuid of its own.
- The additional nonce check for quotes saved by older versions (web/src/hooks/useReviewedRelayr.ts:659-680), which only refuses more.
- Messages, titles and timestamps of activity rows, other than the order of the list; rows saved by older versions.
- Checks of a Relayr payment's target, amount and calldata, gas estimation, simulation and the reviewing dialogs.
- Polling intervals and retry counts: a poll is a step that may happen at any time.
- ABI, keccak, EIP-712, RPC reads and the decoding of logs: injective constructors, parameters or decoded records.
- Reading a Safe's identity from storage and calls (web/src/lib/cross-chain-authority.ts:289-586): the identity is the input.
- `revnetOperatorCandidates`, `findCurrentRevnetOperator`, `isIpfsUri`, `repayPrincipalFor`: short expressions with nothing to prove.
- Undefined values inside saved batches, which JSON drops.
- React components, wallet connectors, profile, ENS and indexer reads, formatting.
