# Verified model of the SaaS preflight control core

This project models, in Dafny, the parts of the repository whose correctness spans several functions or a
whole run of a state machine, and proves what the code promises about them.  `dafny verify dfyconfig.toml`
checks everything.

- **One-shot external actions** (`ExternalAction*.dfy`).  A transition system over three places that change at
  different moments (database rows, companion anchor file, external monotonic pin) with any number of handles,
  an exclusive file lock, a crash between any two writes, pin requests that land late or are lost, and arbitrary
  replacement of both files.  `StateStore` is the store as a class that updates those places in place; every
  mutation, with the fault that stops it, is proved to be a run of the transition system.  On top: issuing and
  verifying of grants, claim, revocation, receipt, the dispatch fence, the hash-chained journal (append and fold)
  and the folded lifecycle over whole runs.
- **Launch handoff** (`LaunchHandoff*.dfy`, `RepositoryAcceptance.dfy`).  The evaluator's passes over the eight gates,
  against a declarative meaning of READY, and the dated checks of the repository acceptance it relies on.
- **Gold set** (`GoldSet*.dfy`).  The comparison's fault lists, the computed expiry, and independence of order.
- **npm resolver** (`Npm*.dfy`).  The path grammar, the string walk against structural ancestor lookup, and
  the dependency graph.
- **HTML attributes** (`Html*.dfy`).  Two chains of global replacements against single-pass forms.
- **Dead-man lease** (`ControlCycle*.dfy`), **demand batches** (`Demand*.dfy`), **funnel** (`Funnel*.dfy`) and
  **traffic arithmetic** (`Traffic.dfy`).

SHA-256, HMAC and Ed25519 are symbolic: a digest, MAC or signature is the value it was made from, so it is
injective; an all-zero placeholder is the digest of nothing.  The gold set instead takes an arbitrary hash
function, because its report orders faults by digest.  Time is an integer, Decimals are exact rationals (`real`)
rounded only where the source rounds, and evaluators in other modules are parameters with a stated contract.

The `*Rules.dfy` modules say, from the inputs and with every constant written out, which case of each operation
applies; the other modules prove what follows over runs, orders and times.

## What the proofs found

- With files written by the handles alone, an interrupted write whose pin request was never sent, or was lost, refuses
  every operation for good; the store comes back exactly when that request is still in flight
  (`RecoversIffPinInFlight`).
- While a dispatch fence is held a revocation enters the store exactly when it is already in flight, and the dispatch
  meets one effective before its deadline exactly when one of that grant is (`FenceAdmitsRevocationIff`,
  `FenceBreaksIff`).  With files written by the handles alone nothing is (`DispatchFence`); a revocation abandoned
  before a restore is the failing run (`FenceIsBroken`).
- "Expired is final" fails for some continuation exactly when the report says expired while a claim of the grant is in
  flight or can still be made (`MovesBackIff`); for a report not ahead of the guard's clock only the claim in flight
  is left (`ForwardOnlyIff`).  An unclaimed grant is claimed later exactly when a claim of it is in flight or can still
  be made (`ClaimedLaterIff`), so one that such a report calls expired or revoked exactly when a claim of it is in
  flight (`ReportedThenClaimedIff`).  "Can still be made" supposes good signatures and, for an activation, some
  answer of the release oracle that verifies a report.  A report reads its snapshot under the lock, so no write is
  under way at it.
  In runs without replaced files only a report ahead of the clock can be contradicted (`HonestForwardIff`).
  `ExternalActionWitness` holds a concrete run from a fresh store for each failure.
- The journal's head digest leaves signatures out: two accepted journals with one head agree entry by entry up to
  signatures (`HeadNamesJournal`), and every accepted journal has a differently signed twin (`AcceptedHasTwin`,
  `OneHeadTwoJournals`).  When each body is signed in one way the head names the journal (`OneSignerOneJournal`).
- Whatever a run has stored about an issued grant, appending alone can write down so that the fold accepts it
  (`EveryHistoryCanBeJournaled`).
- A replayed receipt is an identical replay only at the same clock value (`Replays`), because the receipt carries
  its completion time.
- The gold-set expiry includes raw-archive deletion dates that no fault reads, so a ready report can be expired at
  its own evaluation; it is unexpired exactly while every archive is kept (`ReadyIsUnexpiredIff`).
- The handoff evaluator raises only for roots that do not bind: its validator accepts every output, because an accepted
  repository bundle has no passed expiry (`EveryReportIsValid`, `AcceptedIsUnexpired`).
- Equal content digests of two gold sets that differ in more than order exhibit a collision among the values hashed for
  them (`EqualDigestsCollide`).
- The batch loop accepts inputs that the summary validator refuses: the summary is valid exactly when the review
  date and the two assumptions meet limits the loop does not check (`SummaryIsValidIff`, `SameDayReviewIsRefused`);
  the slate's identifier and hashes are taken as well formed.
- The lease's "deadline reached" fallback is dead code (`LeaseStartsOpen`), and so is the scorecard's mixed-currency
  error for every valid batch (`SettledAgree`, `ScoreEvents`).
- The decoder is not the inverse of the escaper on every text: escaping undoes decoding exactly on the escaper's own
  outputs (`EscapeAfterDecode`).

## Model

| member | source | states |
|---|---|---|
| ExternalActionArtifacts.IssuedGrantWindow | src/saas_preflight/external_actions.py:690-800 | for actions without a public report, the issuer's grant is accepted with the expected pre-state at every instant of its window and at no other |
| ExternalActionArtifacts.AcceptedWindowIsInside | src/saas_preflight/external_actions.py:886-983 | whatever the runtime accepts lies inside the request, approval and policy TTL windows |
| ExternalActionArtifacts.IssuedActivationWindow | src/saas_preflight/external_actions.py:690-800 | an activation grant is accepted while, in addition, its public report verifies, and never outlives that report |
| ExternalActionArtifacts.GrantNamesOneAuthority | src/saas_preflight/external_actions.py:951-983 | all acceptances under one grant share one request, one approval and one pre-state |
| ExternalActionArtifacts.BuiltClaimMatches | src/saas_preflight/external_actions.py:1988-2046 | a claim made under a verified authority passes every later artifact check |
| ExternalActionRules.IssuedIff | src/saas_preflight/external_actions.py:690-800 | a grant is issued if and only if request, policy, approval and decision are in order at that instant and, for an activation, a verified GO report of the release is given |
| ExternalActionRules.IssuedGrantSays | src/saas_preflight/external_actions.py:760-800 | what the grant binds, who signs it, and that it ends at the least of its three or four deadlines |
| ExternalActionRules.VerifiedIff | src/saas_preflight/external_actions.py:886-983 | the runtime accepts exactly a controller-signed grant of a request that was authorized at its issue, inside the window, with the expected pre-state, and for an activation its verified report |
| ExternalActionRules.ClaimMatchesIff | src/saas_preflight/external_actions.py:2159-2206 | a claim matches if and only if it is the one its artifacts make of the expected pre-state inside all three windows |
| ExternalActionRules.ClaimAppliedIff | src/saas_preflight/external_actions.py:1546-1665 | which claims are applied, and the one row they add |
| ExternalActionRules.RevocationAppliedIff | src/saas_preflight/external_actions.py:1478-1544 | which revocations are accepted, and that they are added once |
| ExternalActionRules.ReceiptAppliedIff | src/saas_preflight/external_actions.py:2208-2300 | a receipt is applied if and only if the claim is durable and without one, the delay is kept, pre-state and executor agree, and a success has the expected post-state |
| ExternalActionRules.AppliedReceiptSays | src/saas_preflight/external_actions.py:1708-1777 | the stored receipt carries the evidence's result, states, operation and audit, its bindings, and the present as completion |
| ExternalActionRules.ReceiptRefusals | src/saas_preflight/external_actions.py:2228-2296 | a wrong time, a wrong post-state and wrong evidence are refused by name, in this order |
| ExternalActionRules.FenceOpensIff | src/saas_preflight/external_actions.py:1667-1706 | a fence opens if and only if the claim is durable, the deadline ahead in all three windows, and every revocation genuine and effective no earlier |
| ExternalActionStore.IntegrityMeansCurrent | src/saas_preflight/external_actions.py:1402-1443 | the integrity check passes only on exactly the content of the write the pin names |
| ExternalActionStore.StepKeepsInv | src/saas_preflight/external_actions.py:1327-1367 | every step of any handle, crash, late or lost pin, fence or replaced file keeps the store invariant |
| ExternalActionStore.RunKeepsInv | src/saas_preflight/external_actions.py:1478-1777 | so does every run |
| ExternalActionStore.AttemptAdvances | src/saas_preflight/external_actions.py:1445-1466 | an applied write advances the revision by one |
| ExternalActionSafety.AtMostOneClaim | src/saas_preflight/external_actions.py:1546-1665 | in every reachable state no two landed and no two acknowledged claims share a grant, request ID or idempotency key |
| ExternalActionSafety.RunGrows | src/saas_preflight/external_actions.py:1478-1777 | over any run stored claims and revocations stay, a receipt goes from none to one value and stays, and the revision is the number of landed writes |
| ExternalActionSafety.AcknowledgedIsDurable | src/saas_preflight/external_actions.py:1327-1367 | whoever was told of success finds the effect in the durable content from then on |
| ExternalActionSafety.Replays | src/saas_preflight/external_actions.py:1478-1777 | an identical revocation replays without a new revision, a claim never does, a receipt only at its own completion time |
| ExternalActionSafety.ReceiptIsFinal | src/saas_preflight/external_actions.py:1708-1777 | once a claim has its receipt nothing else is accepted for it |
| ExternalActionSafety.IntegrityIsExact | src/saas_preflight/external_actions.py:1402-1443 | in reachable states the check passes if and only if both files are those of the pinned write |
| ExternalActionSafety.OlderCopyIsRefused | src/saas_preflight/external_actions.py:1402-1443 | a restored older database is refused with any anchor file, and no mutation can begin |
| ExternalActionSafety.ClaimPrecedesRevocations | src/saas_preflight/external_actions.py:1571-1580 | every claim was made before the effective time of each revocation of its grant stored earlier |
| ExternalActionSafety.NewClaimRow | src/saas_preflight/external_actions.py:1546-1665 | only a claim of that grant adds its row, stamped with the clock of its check, with no blocking revocation |
| ExternalActionSafety.LogWellFormed | src/saas_preflight/external_actions.py:986-1010 | stored keys, uniqueness columns, receipts and revocations stay well formed through every history |
| ExternalActionFaults.HonestRun | src/saas_preflight/external_actions.py:1327-1367 | with files written by handles only, the store is always settled or interrupted at one write |
| ExternalActionFaults.InterruptionOutcome | src/saas_preflight/external_actions.py:1402-1443 | an interruption leaves the old state usable, or every operation refused until that same write's pin lands |
| ExternalActionFaults.RecoversIffPinInFlight | src/saas_preflight/external_actions.py:1327-1367 | with files written by the handles alone, a refused store comes back if and only if its pin request is still in flight |
| ExternalActionFaults.FenceEntry | src/saas_preflight/external_actions.py:1667-1706 | at entry the claim is durable, the deadline is inside the three signed windows and no revocation is effective before it |
| ExternalActionFaults.FenceKeepsOut | src/saas_preflight/external_actions.py:1667-1706 | while the fence is held and no effective pin is in flight, nothing enters the durable history |
| ExternalActionFaults.FenceAdmitsRevocationIff | src/saas_preflight/external_actions.py:1667-1706 | while a fence is held a revocation enters the store if and only if it was in flight at entry |
| ExternalActionFaults.FenceBreaksIff | src/saas_preflight/external_actions.py:2119-2157 | the dispatch can meet a revocation effective before its deadline if and only if one of that grant is in flight |
| ExternalActionFaults.FenceAdmitsOne | src/saas_preflight/external_actions.py:1667-1706 | at most one write lands under a held fence, and only one that was in flight |
| ExternalActionFaults.DispatchFence | src/saas_preflight/external_actions.py:2119-2157 | in runs without replaced files, the durable content is fixed during the fence and unrevoked until the deadline |
| ExternalActionFaults.AbandonedWriteIsReachable | src/saas_preflight/external_actions.py:1327-1367 | a write abandoned after its pin request, then a restored copy, is a run that leaves a usable store with the request in flight |
| ExternalActionFaults.LateRevocationInsideFence | src/saas_preflight/external_actions.py:1667-1706 | in that state a revocation lands while the fence is held |
| ExternalActionLifecycle.ClaimedLaterIff | src/saas_preflight/external_actions.py:1988-2046 | an unclaimed grant is claimed in some later state if and only if a claim of it is in flight or its earliest claim would be accepted now |
| ExternalActionLifecycle.ReportedThenClaimedIff | src/saas_preflight/external_actions.py:2721-2751 | a grant reported expired or revoked while unclaimed is claimed later if and only if a claim of it is in flight |
| ExternalActionLifecycle.MovesBackIff | src/saas_preflight/external_actions.py:2721-2751 | a later report contradicts an earlier one of whatever date if and only if that said expired while a claim is in flight or can still be made |
| ExternalActionLifecycle.ForwardOnlyIff | src/saas_preflight/external_actions.py:2721-2751 | for a report not ahead of the clock, if and only if it said expired while a claim of the grant is in flight |
| ExternalActionLifecycle.ForwardOnly | src/saas_preflight/external_actions.py:2721-2751 | with no claim of the grant in flight the lifecycle only moves forward, and expired or revoked unclaimed grants stay unclaimed |
| ExternalActionLifecycle.OutcomeIsFinal | src/saas_preflight/external_actions.py:1708-1777 | an outcome once recorded never changes, in any run |
| ExternalActionLifecycle.HonestForwardIff | src/saas_preflight/external_actions.py:2721-2751 | without replaced files a report from a usable, unlocked store is contradicted if and only if it runs ahead of the clock past the expiry of a grant still claimable |
| ExternalActionLifecycle.HonestForwardOnly | src/saas_preflight/external_actions.py:2721-2751 | there the lifecycle only moves forward, outcomes stay, and grants reported expired or revoked while unclaimed are never claimed |
| ExternalActionLifecycle.ReportAheadOfClock | src/saas_preflight/external_actions.py:1988-2046 | a report dated ahead of the guard's clock says expired of a grant that is then claimed |
| ExternalActionLifecycle.LateClaimAfterExpiry | src/saas_preflight/external_actions.py:2065-2084 | a claim abandoned before a restore lands after the grant was reported expired |
| ExternalActionWitness.GrantIsIssued | src/saas_preflight/external_actions.py:690-800 | the grant of the concrete runs below is what the issuer issues for their request and approval |
| ExternalActionWitness.EarlyReportIsContradicted | src/saas_preflight/external_actions.py:2721-2751 | a concrete run without replaced files in which a report dated ahead says expired and the grant is then claimed |
| ExternalActionWitness.ExpiredIsContradicted | src/saas_preflight/external_actions.py:2721-2751 | a concrete run to a usable store that reports expired at its own clock, after which the grant is claimed |
| ExternalActionWitness.RevokedIsClaimed | src/saas_preflight/external_actions.py:2721-2751 | a concrete run in which an unclaimed grant reported revoked is claimed |
| ExternalActionWitness.FenceIsBroken | src/saas_preflight/external_actions.py:2119-2157 | a concrete run in which a revocation effective before the deadline lands under the fence |
| ExternalActionWitness.OneHeadTwoJournals | src/saas_preflight/external_actions.py:2785-2791 | two concrete accepted journals with one head digest and different signatures |
| ExternalActionStateStore.StateStore.constructor | src/saas_preflight/external_actions.py:1012-1032 | a provisioned store starts in the initial state of the transition system |
| ExternalActionStateStore.StateStore.AssertIntegrity | src/saas_preflight/external_actions.py:1402-1443 | the method's answer is the exact integrity condition on database, anchor and pin |
| ExternalActionStateStore.StateStore.CommitAndAnchor | src/saas_preflight/external_actions.py:1327-1367 | the three writes in order leave, at each crash point, exactly the stated contents of the three places |
| ExternalActionStateStore.StateStore.Mutate | src/saas_preflight/external_actions.py:1478-1777 | one mutation under any fault is a run of the transition system to a stated state; refusals and replays change nothing |
| ExternalActionStateStore.StateStore.LatePin | src/saas_preflight/external_actions.py:1352-1367 | an earlier pin request lands, or is found lost, as one step |
| ExternalActionStateStore.StateStore.ReplaceFiles | src/saas_preflight/external_actions.py:1402-1443 | replacing both files is one step and keeps the invariant |
| ExternalActionStateStore.StateStore.ReadSnapshot | src/saas_preflight/external_actions.py:1779-1831 | a snapshot is read only through the integrity check and is then the durable content |
| ExternalActionStateStore.StateStore.CheckFence | src/saas_preflight/external_actions.py:1667-1706 | the entry checks succeed if and only if the fence step is enabled, and then nothing revokes the grant before the deadline |
| ExternalActionStateStore.ClaimTransaction | src/saas_preflight/external_actions.py:1546-1665 | the scanning loops and uniqueness queries decide exactly the claim transaction of the specification |
| ExternalActionStateStore.RevocationTransaction | src/saas_preflight/external_actions.py:1478-1544 | likewise for revocations: replay, conflict or new row |
| ExternalActionStateStore.ReceiptTransaction | src/saas_preflight/external_actions.py:1708-1777 | likewise for receipts: one value, identical replay or conflict |
| ExternalActionStateStore.AnyRevocationBlocks | src/saas_preflight/external_actions.py:1571-1580 | the loop finds an invalid or effective revocation of the grant if and only if one is stored |
| ExternalActionStateStore.FindCollision | src/saas_preflight/external_actions.py:1591-1610 | the two queries find a shared idempotency key or request ID if and only if a row has one |
| ExternalActionStateStore.FaultRun | src/saas_preflight/external_actions.py:1327-1367 | a mutation stopped at any of its crash points is a run of enabled steps |
| ExternalActionJournal.AppendEntry | src/saas_preflight/external_actions.py:2481-2543 | appending succeeds if and only if grant, chain and times are right, and the longer journal is linked and monotone again |
| ExternalActionJournal.GrownPassesChainChecks | src/saas_preflight/external_actions.py:2641-2667 | every journal built by repeated appends passes the fold's chain checks |
| ExternalActionJournal.HeadNamesJournal | src/saas_preflight/external_actions.py:2785-2791 | linked journals with one head digest have equal entries, signatures aside |
| ExternalActionJournal.OneSignerOneJournal | src/saas_preflight/external_actions.py:2785-2791 | when every body is signed in one way, two journals have one head if and only if they are the same sequence |
| ExternalActionFold.FoldJournal | src/saas_preflight/external_actions.py:2546-2782 | the fold succeeds if and only if the declarative conditions hold, and its report is the one the durable content determines |
| ExternalActionFold.FoldEntries | src/saas_preflight/external_actions.py:2641-2709 | the loop's accumulators are the declared tally of the listed payloads |
| ExternalActionFold.FoldEvent | src/saas_preflight/external_actions.py:2669-2707 | one entry's branch accepts exactly the events its kind allows |
| ExternalActionFold.CheckTally | src/saas_preflight/external_actions.py:2710-2719 | the cardinality checks after the loop hold if and only if every durable event is listed |
| ExternalActionFold.Judge | src/saas_preflight/external_actions.py:2744-2751 | the authority verdict from the sidecars is that of the durable content |
| ExternalActionFold.AcceptedJournalShape | src/saas_preflight/external_actions.py:2641-2719 | an accepted journal lists the grant first, every durable event exactly once and nothing else, claim before receipt; its length is 1 + claim + revocations + receipt |
| ExternalActionFold.AcceptedHasTwin | src/saas_preflight/external_actions.py:2785-2791 | every accepted journal has another, signed differently, accepted with the same report and head |
| ExternalActionFold.ReportIsConsistent | src/saas_preflight/external_actions.py:530-553 | the report meets its own validator |
| ExternalActionFoldRules.AppendRules | src/saas_preflight/external_actions.py:2481-2543 | under which request and grant an entry can be appended |
| ExternalActionFoldRules.FoldRules | src/saas_preflight/external_actions.py:2546-2782 | the fold accepts a journal if and only if each entry continues the chain and stands for an event recorded after it, and the journal lists all the snapshot holds |
| ExternalActionFoldRules.VerdictRules | src/saas_preflight/external_actions.py:2721-2751 | revoked comes before claimed, and claimed before expired |
| ExternalActionFoldRules.ReportRules | src/saas_preflight/external_actions.py:2752-2782 | what the report names, counts and repeats of the store |
| ExternalActionFold.OneStateThroughout | src/saas_preflight/external_actions.py:2361-2378 | when the second snapshot agrees, every state between held the reported content |
| ExternalActionJournaling.EveryHistoryCanBeJournaled | src/saas_preflight/external_actions.py:2481-2782 | for every reachable content and verified grant some journal grown by appends alone is accepted by the fold, as late as one likes |
| ExternalActionJournaling.IssuedGrantCanBeJournaled | src/saas_preflight/external_actions.py:690-800 | in particular for whatever the issuer issued |
| ExternalActionJournaling.LogProven | src/saas_preflight/external_actions.py:1478-1777 | every stored claim, receipt and revocation still matches the artifacts it was checked against |
| RepositoryAcceptance.EvaluateBundle | src/saas_preflight/repository_acceptance.py:3172-3230 | a bundle is accepted if and only if manifest, facts, both attestations and all receipts are in date, the other checks pass and the Human said go; it is stopped if and only if one of those fails |
| RepositoryAcceptance.CollectHardReasons | src/saas_preflight/repository_acceptance.py:3362-3519 | the loops over facts, attestations and receipts find a reason if and only if something dated is not current or another check fails |
| RepositoryAcceptance.AcceptedIsUnexpired | src/saas_preflight/launch_handoff.py:1047-1063 | no expiry that the handoff takes from an accepted bundle has passed |
| RepositoryAcceptance.AcceptedUntilExpiry | src/saas_preflight/launch_handoff.py:1047-1063 | an accepted bundle stays accepted if and only if none of those expiries is reached and the other checks keep passing |
| RepositoryAcceptance.InDateRules | src/saas_preflight/repository_acceptance.py:3172-3230 | a bundle is in date if and only if it has both attestations, all of it has begun and no expiry is reached |
| LaunchHandoffReady.EvaluateHandoff | src/saas_preflight/launch_handoff.py:617-960 | evaluation raises if and only if the roots do not bind, and otherwise reports each gate's reasons, in order, with the least expiry, in a report its validator accepts |
| LaunchHandoff.BuildReport | src/saas_preflight/launch_handoff.py:687-960 | findings, passed and failed gates, decision and expiry are those of the declared reasons and deadlines |
| LaunchHandoff.CheckSemantics | src/saas_preflight/launch_handoff.py:706-782 | the semantic pass grows findings and failed gates by exactly the semantic reasons |
| LaunchHandoff.CheckPlan | src/saas_preflight/launch_handoff.py:824-831 | plan window and TTL reasons go to every gate |
| LaunchHandoff.CheckReceipts | src/saas_preflight/launch_handoff.py:833-880 | the receipt pass adds exactly the receipt reasons of each gate |
| LaunchHandoff.CheckChain | src/saas_preflight/launch_handoff.py:882-909 | the loop with a previous receipt and a running maximum finds out-of-order gates exactly |
| LaunchHandoff.CheckPrerequisites | src/saas_preflight/launch_handoff.py:911-917 | every gate after a failed one is held for its prerequisite |
| LaunchHandoffReady.ReadyIff | src/saas_preflight/launch_handoff.py:833-933 | READY holds if and only if there is one verified, matching, current receipt per gate with exact predecessor digests and non-decreasing times, and evidence, plan and repository hold |
| LaunchHandoffRules.ReportRules | src/saas_preflight/launch_handoff.py:687-960 | the report names each reason at each gate if and only if the input raises it there, by conditions on plan, receipts, evidence and repository |
| LaunchHandoffRules.ListRules | src/saas_preflight/launch_handoff.py:911-960 | findings and gates come in their fixed order, each gate in one of the two lists |
| LaunchHandoffRules.ValidatorRules | src/saas_preflight/launch_handoff.py:401-435 | what the report's validator demands |
| LaunchHandoffRules.InputRules | src/saas_preflight/launch_handoff.py:142-335 | the roles, limits, orders and bindings that the models of trust store, policy, plan and bundle demand |
| LaunchHandoffRules.GateTable | src/saas_preflight/launch_handoff.py:1037-1044 | which role and key each gate needs and which receipt lifetime it allows |
| LaunchHandoffRules.ReadyExpiry | src/saas_preflight/launch_handoff.py:920-933 | a ready report ends at the first of plan, report lifetime, semantic, receipt and repository dates |
| LaunchHandoffRules.RootRules | src/saas_preflight/launch_handoff.py:628-686 | when the roots bind |
| LaunchHandoffRules.SigningRules | src/saas_preflight/launch_handoff.py:490-564 | when a receipt can be signed, and what it then says |
| LaunchHandoffReady.PassedIsPrefix | src/saas_preflight/launch_handoff.py:911-919 | passed gates are a prefix of the order and a gate fails if and only if a finding names it |
| LaunchHandoffReady.EveryReportIsValid | src/saas_preflight/launch_handoff.py:401-435 | the report's own validator accepts every output |
| LaunchHandoffReady.ReadyLasts | src/saas_preflight/launch_handoff.py:925-933 | READY stays READY up to the report's expiry when both evaluators are stable until their own |
| LaunchHandoffReady.LastReceiptNamesAll | src/saas_preflight/launch_handoff.py:882-909 | READY bundles with one last receipt digest hold the same eight receipts, signatures aside |
| LaunchHandoffReady.SignedInOrderIsReady | src/saas_preflight/launch_handoff.py:490-564 | receipts signed gate after gate within policy evaluate to READY when both evaluators pass |
| LaunchHandoffReady.BuilderRestoresOrder | src/saas_preflight/launch_handoff.py:567-610 | the bundle builder's sort restores gate order from any arrival order |
| GoldSetReport.EvaluateGoldSet | src/saas_preflight/goldset.py:371-503 | the report holds exactly the raised faults, each once in canonical order, the counts, and the least nested date as expiry, and meets its own validator |
| GoldSetReport.ComparePlan | src/saas_preflight/goldset.py:533-658 | the loops collect exactly the field, label, evidence and cost faults of one plan |
| GoldSetReport.CheckCoverage | src/saas_preflight/goldset.py:676-685 | coverage is three vendors, each with six plans and 60 to 150 labels |
| GoldSetReport.ReportExpiry | src/saas_preflight/goldset.py:514-530 | the computed expiry is the least of all nested dates |
| GoldSetReport.ReadyReportLasts | src/saas_preflight/goldset.py:398-416 | a ready report of the same inputs is ready again at every instant up to its expiry |
| GoldSetExpiry.ReadyIff | src/saas_preflight/goldset.py:371-503 | ready if and only if every value, source, right and cost matches and nothing is in the future or run out |
| GoldSetRules.ReportRules | src/saas_preflight/goldset.py:371-503 | the quarantine holds a fault if and only if the input raises it, with the expected and the actual value of each, and readiness follows |
| GoldSetRules.ListRules | src/saas_preflight/goldset.py:460-503 | faults come in canonical order and the report is sealed |
| GoldSetRules.ValidatorRules | src/saas_preflight/goldset.py:289-303 | what the report's validator demands |
| GoldSetRules.GoldSetRules | src/saas_preflight/goldset.py:76-188 | which names are unique and which times ordered in the gold set's model |
| GoldSetRules.BatchRules | src/saas_preflight/goldset.py:219-254 | which keys and inputs are unique in the batch's model, and that there is an attempt |
| GoldSetRules.FigureRules | src/saas_preflight/goldset.py:462-490 | the counts, the failure rate and the coverage of the report |
| GoldSetRules.FailureRules | src/saas_preflight/goldset.py:439-441 | the parser stops above one failure in five attempts |
| GoldSetRules.CountRules | src/saas_preflight/goldset.py:676-685 | plans and labels of a vendor are counted one plan at a time |
| GoldSetRules.ExpiryRules | src/saas_preflight/goldset.py:514-530 | the expiry is the first of all nested dates, review, retention and archive included |
| GoldSetRules.ManifestRules | src/saas_preflight/goldset.py:314-349 | the manifest names vendor, plan and, per field, all policies |
| GoldSetExpiry.ReadyUntilExpiry | src/saas_preflight/goldset.py:514-530 | the minimum covers every time-dependent fault |
| GoldSetExpiry.ReadyIsUnexpiredIff | src/saas_preflight/goldset.py:514-530 | a ready comparison is unexpired at its own time if and only if every raw archive is still kept |
| GoldSetOrder.OrderDoesNotMatter | src/saas_preflight/goldset.py:460-503 | permuting plans, labels, scenarios, candidate plans or failures changes nothing in the report, digest included |
| GoldSetOrder.SameGoldSetHash | src/saas_preflight/goldset.py:702-725 | the content digest does not depend on the order of plans, labels or scenarios |
| GoldSetOrder.SameManifest | src/saas_preflight/goldset.py:314-349 | the rights manifest does not depend on the order of the candidate plans |
| GoldSetOrder.SameBatchParts | src/saas_preflight/goldset.py:727-745 | nor does the batch digest |
| GoldSetDigest.ContentDigestIdentifies | src/saas_preflight/goldset.py:702-725 | two gold sets whose hashed values do not collide have one content digest if and only if they differ in nothing but order |
| GoldSetDigest.EqualDigestsCollide | src/saas_preflight/goldset.py:702-725 | for any hash function, equal digests of gold sets that differ otherwise exhibit a collision |
| GoldSetDigest.BatchDigestIdentifies | src/saas_preflight/goldset.py:727-745 | without a collision the batch digest names receipt, parser, window, parsed plans and failures |
| GoldSetDigest.ManifestIgnoresObservations | src/saas_preflight/goldset.py:314-349 | re-observing the same plans under the same policies leaves the rights manifest digest unchanged |
| GoldSetOrder.PartsDetermineReport | src/saas_preflight/goldset.py:289-303 | the validator's canonical order leaves one listing of a fault set, so the inputs determine the report |
| Sorting.SortSorts | src/saas_preflight/goldset.py:460-461 | sorting by distinct keys keeps exactly the values, strictly increasing |
| Sorting.SortedIsUnique | src/saas_preflight/goldset.py:289-303 | a set has one strictly sorted listing |
| NpmResolver.NpmPathName | scripts/export_sbom.py:333-354 | the validating loop accepts a path if and only if some nesting of names renders to it, and returns the innermost name |
| NpmResolver.PathGrammar | scripts/export_sbom.py:333-354 | a nesting renders to a path if and only if the segment walk reads it back |
| NpmResolver.CutDropsInnermost | scripts/export_sbom.py:397-409 | cutting at the last marker drops exactly the innermost package, scoped names included |
| NpmResolver.ResolveNpmDependency | scripts/export_sbom.py:397-409 | the walk terminates and computes its recursive form for every base string |
| NpmResolver.WalkIsNearestEnclosing | scripts/export_sbom.py:397-409 | on grammatical paths the walk returns a path if and only if it is the copy in the nearest enclosing folder |
| NpmResolver.WalkFindsNone | scripts/export_sbom.py:397-409 | it returns nothing if and only if no enclosing folder has a copy |
| NpmResolver.NpmComponents | scripts/export_sbom.py:412-524 | a lock is accepted if and only if header and root agree, every path, name, version and source is in order, nothing is a link, and every required dependency resolves; the graph's edges are the nearest copies |
| NpmResolver.DependencyNames | scripts/export_sbom.py:364-394 | the merged dictionary requires every dependency but the optional peers that are nothing else, and fails if and only if some name is malformed |
| NpmResolver.GraphIsClosed | scripts/export_sbom.py:536-546 | every dependency edge names a listed component and every component is a graph node |
| NpmRules.NameRules | scripts/export_sbom.py:130-145 | a name is one part, or an at sign and two parts around a slash |
| NpmRules.OtherNames | scripts/export_sbom.py:130-145 | a name with a slash has exactly two segments and starts with an at sign |
| NpmRules.PartRules | scripts/export_sbom.py:32 | which characters a name part has, and where |
| NpmRules.VersionRules | scripts/export_sbom.py:33 | which characters a version has |
| NpmRules.PathRules | scripts/export_sbom.py:397-409 | each package lies in the folder of the one around it |
| NpmRules.RequirementRules | scripts/export_sbom.py:361-394 | which names a package depends on and which of them are required, the root's development dependencies included |
| NpmRules.PackageRules | scripts/export_sbom.py:438-457 | which packages are listed, and under which identity |
| NpmRules.LockRules | scripts/export_sbom.py:412-524 | which locks are usable, by header, root, packages, sources and names in sight |
| HtmlAttribute.RoundTrip | site/worker/index.ts:817-834 | decoding an escaped attribute gives back the original for every string |
| HtmlAttribute.EscapeIsCharacterMap | site/worker/index.ts:817-824 | the five global replacements refine one pass over the characters |
| HtmlAttribute.DecodeIsSinglePass | site/worker/index.ts:826-834 | the six global replacements refine one left-to-right scan, on every string |
| HtmlAttribute.EscapeAfterDecode | site/worker/index.ts:817-834 | escaping undoes decoding if and only if the text is in the escaper's own form |
| HtmlRules.EscapeRules | site/worker/index.ts:817-824 | each of the five characters becomes its entity and every other one stays |
| HtmlRules.DecodeRules | site/worker/index.ts:826-834 | each of the six entities becomes its character wherever it starts |
| ControlCycle.EvaluateCycle | src/saas_preflight/control_cycle.py:425-717 | decision and reasons are those of the raised hard stops and holds, and the lease ends at the least of all deadlines |
| ControlCycle.CollectReasons | src/saas_preflight/control_cycle.py:482-668 | the sequential checks raise exactly the declared hard stops and holds |
| ControlCycle.FindCurrentEvent | src/saas_preflight/control_cycle.py:1153-1162 | the reversed scan finds the last promotion of, or rollback to, the current release |
| ControlCycle.CleanIff | src/saas_preflight/control_cycle.py:670-717 | no reason is raised if and only if everything is in order, started and unexpired, in the budget's month |
| ControlCycleRules.ReportRules | src/saas_preflight/control_cycle.py:482-689 | serving stops if and only if a stop condition holds, is held if and only if none does and a hold condition does, and each reason is reported if and only if its own condition holds |
| ControlCycleRules.LeaseRules | src/saas_preflight/control_cycle.py:684-717 | what the lease of a serving cycle names, and that it ends at the first of its dates |
| ControlCycleRules.LeaseVerifiedIff | src/saas_preflight/control_cycle.py:894-926 | which leases verify |
| ControlCycle.ServesUntilFirstDeadline | src/saas_preflight/control_cycle.py:539-597 | from a serving instant the same inputs serve if and only if no fixed deadline has been reached and the month is the budget's |
| ControlCycle.LeaseWindowIsClean | src/saas_preflight/control_cycle.py:670-717 | inside a lease's window the same inputs raise nothing but the budget's month |
| ControlCycle.LeaseIsBounded | src/saas_preflight/control_cycle.py:691-702 | a lease outlives no deadline it was derived from, nor its configured length, and ends at one of them |
| ControlCycle.LeaseVerifiesInWindow | src/saas_preflight/control_cycle.py:894-926 | the lease verifies under any maximum lifetime of at least the configured one exactly inside its window |
| ControlCycle.LeaseStartsOpen | src/saas_preflight/control_cycle.py:703-705 | the fallback for a lease that would already have ended is never taken |
| ControlCycle.LeaseDeadlineIsNeverReached | src/saas_preflight/control_cycle.py:703-705 | its reason is in no report |
| DemandBatches.ValidateBatches | src/saas_preflight/mangools_export.py:693-860 | the nested loops accept a batch set if and only if its rows match the frozen slate, and return the aggregate of all rows |
| DemandBatches.ReadFile | src/saas_preflight/mangools_export.py:741-779 | one file's rows are checked against all rows before them |
| DemandBatches.Tally | src/saas_preflight/mangools_export.py:803-812 | the counting loop gives the status counts and the known total |
| DemandBatchesOrder.AcceptedIsBijection | src/saas_preflight/mangools_export.py:719-785 | the rows of an accepted set are in bijection with the slate |
| DemandBatchesOrder.FiguresForgetSplit | src/saas_preflight/mangools_export.py:719-831 | counts, totals and shares are the same for every split and order of the rows |
| DemandBatchesOrder.SharesAreOrdered | src/saas_preflight/mangools_export.py:644-690 | half-up rounding keeps 0 <= top two <= top five <= 1 |
| DemandRules.AcceptRules | src/saas_preflight/mangools_export.py:693-790 | a batch set is accepted if and only if its rows match the frozen queries one to one and counts and parameters keep their limits |
| DemandRules.RowRules | src/saas_preflight/mangools_export.py:719-783 | rows, classifications and hashes are collected file by file and row by row |
| DemandRules.VolumeRules | src/saas_preflight/mangools_export.py:803-812 | which classifications count as known, and how each is counted |
| DemandRules.FileRules | src/saas_preflight/mangools_export.py:719-783 | known volumes are not negative |
| DemandRules.ShareRules | src/saas_preflight/mangools_export.py:644-690 | the shares are the two and the five largest volumes by the total, and when they mean high concentration |
| DemandRules.RoundRules | src/saas_preflight/mangools_export.py:668-673 | rounding to eight places takes the nearest value, halves upward |
| DemandRules.RankRules | src/saas_preflight/mangools_export.py:644-660 | the volumes are ranked in descending order, all of them |
| DemandRules.RequirementRules | src/saas_preflight/mangools_export.py:792-802 | clicks and sessions are the least whole numbers that earn the target |
| DemandRules.CapacityRules | src/saas_preflight/mangools_export.py:803-831 | which capacity decision follows, when a wider scope is recommended, and the figures published |
| DemandRules.SummaryRules | src/saas_preflight/mangools_export.py:833-860 | what the summary holds |
| DemandRules.RejectedRules | src/saas_preflight/mangools_export.py:768-776 | a rejected row is reported under its file from one and its line from two |
| DemandRules.ValidatorRules | src/saas_preflight/mangools_export.py:219-305 | what the summary validator demands |
| DemandBatchesOrder.SummaryIsValidIff | src/saas_preflight/mangools_export.py:219-305 | the summary validator accepts a built result if and only if the review date and the two assumptions meet its own limits |
| DemandBatchesOrder.SameDayReviewIsRefused | src/saas_preflight/mangools_export.py:219-225 | one accepted row whose summary is refused |
| Funnel.CheckBatch | src/saas_preflight/growth_system.py:666-700 | the validator's checks decide the declarative validity of a batch |
| Funnel.ChainToImpression | src/saas_preflight/growth_system.py:683-695 | every event's parents lead, with strictly decreasing stage and one identity, to a search impression |
| Funnel.ChainIsUnique | src/saas_preflight/growth_system.py:683-695 | an event has one parent chain |
| FunnelRules.BatchRules | src/saas_preflight/growth_system.py:641-700 | which batches are valid, stage by stage and event by event |
| FunnelScorecard.BuildScorecard | src/saas_preflight/growth_system.py:946-1005 | revenue is the sum over transactions of the one latest event when confirmed or paid; a valid batch is refused for its time alone |
| FunnelScorecard.ScoreEvents | src/saas_preflight/growth_system.py:957-979 | over any events, mixed settled currencies are refused if and only if two latest settled events differ in currency |
| FunnelScorecard.LatestTransactions | src/saas_preflight/growth_system.py:961-969 | the dictionary fold holds, for each transaction, the event maximal in (time, stage) |
| FunnelRules.LatestIsLast | src/saas_preflight/growth_system.py:961-969 | the kept event is the one than which none of the transaction is later, or at the same time further |
| FunnelRules.Contribution | src/saas_preflight/growth_system.py:970-979 | confirmed and paid transactions count with their last amount, pending ones with nothing |
| FunnelRules.RevenueStep | src/saas_preflight/growth_system.py:961-979 | one more event replaces what its transaction contributed, and nothing else |
| FunnelRules.RatioRules | src/saas_preflight/growth_system.py:980-1005 | revenue per click and session, rates, and profit, each absent if and only if its base is zero |
| FunnelRules.ScoreRules | src/saas_preflight/growth_system.py:954-1005 | one count for each stage, and the currency of every settled last event |
| FunnelRules.CountStep | src/saas_preflight/growth_system.py:957-959 | the stage counts grow with each event of the stage |
| FunnelRules.CurrencyRules | src/saas_preflight/growth_system.py:975-978 | there is a currency if and only if some last event is confirmed or paid |
| FunnelScorecard.SumSettled | src/saas_preflight/growth_system.py:970-979 | summing the dictionary in any order gives the revenue |
| FunnelScorecard.RevenueForgetsOrder | src/saas_preflight/growth_system.py:961-979 | revenue does not depend on the order of the events |
| FunnelScorecard.SettledAgree | src/saas_preflight/growth_system.py:975-977 | a valid batch never mixes settled currencies |
| Traffic.SessionRequirementsAgree | src/saas_preflight/economics.py:222-247 | the twice-rounded session requirement of the export validator lies between this one and this one plus the sessions of one click |
| Traffic.ClicksAreLeast | src/saas_preflight/economics.py:222-247 | the required clicks are the least whole number that earns the target |
| Traffic.DemandRules | src/saas_preflight/economics.py:180-202 | the projection's products, and which assumptions are projected |
| Traffic.RequirementRules | src/saas_preflight/economics.py:222-247 | required clicks and sessions, exact and rounded up |
| Traffic.CapacityIsRevenue | src/saas_preflight/economics.py:496-517 | the capacity check holds if and only if projected revenue reaches the target |
| Traffic.ProjectScenarios | src/saas_preflight/economics.py:262-296 | projections are returned if and only if every scenario is valid and sessions and clicks grow from bear to bull |
| Traffic.RevenueIsOrdered | src/saas_preflight/economics.py:262-296 | accepted scenarios have projected revenues in the order bear, base, bull |
| Traffic.OrderedAssumptionsGiveOrderedDemand | src/saas_preflight/economics.py:173-202 | scenarios with ordered assumptions are never rejected for their order |

## Left out

- SQLite, file descriptors, fsync, lock timeouts and threads: only an atomic commit, an exclusive lock, crash points and pin requests are kept; a commit replaces the whole database content.
- Store provisioning and reopening: one store has been created correctly, and the per-handle copy of the pin is not kept.
- The release assurance runtime behind an activation's public report is an oracle whose answer at each instant is a parameter.
- The read-only helpers for claims, receipts and revocations of the guard, and its earlier snapshot before the fenced re-check, add nothing beyond the transactions.
- Which of several blocking revocations is reported first, and which of several failed checks names the error, is not modelled where no caller depends on it.
- Field patterns, UTC checks, hash-format checks and serialisation guards of the models; canonical JSON.
- ExternalActionFold.FoldJournal: revocation digests of the report are a set, which stands for the source's sorted unique tuple.
- GoldSetReport.ComparePlan: the detail tuples that the source sorts before hashing are multisets, and plan loops run in list order rather than over sorted keys, which the order theorem shows to be immaterial.
- GoldSetOrder.SameManifest: the manifest holds each policy's digest instead of its content, and the candidate values and total-cost calculation are parameters.
- LaunchHandoffReady.BuilderRestoresOrder: ties within one gate, which a READY bundle cannot have, are not ordered by identifier, digest and signature.
- The semantic evaluator of the handoff is a parameter, and so is the one answer that stands for the undated checks of the repository evaluator (digests, pins, signatures, lifetimes, scope, runner evidence); the stability assumed of them for ReadyLasts is stated in SemanticContract and ResidualContract.
- ControlCycle.EvaluateCycle: the calendar month and the economics decision are parameters, the canonical order of reasons is a set, and re-validation failures of the two attestations are one failed verification.
- DemandBatches.ValidateBatches: starts from parsed, normalized and classified rows; CSV decoding, column selection and volume text classification are not part of this model.
- Funnel.CheckBatch: the source's one loop over the events is two, one for parents and one for transaction stages.
- The 28-digit Decimal context: values are exact rationals.
- NpmResolver.NpmComponents: which texts are secure URLs and canonical integrity hashes is a parameter; JSON types, version constraints, scopes, licences and hash lists of the components and the Python half of the document are not modelled.
- The remaining gates of the economics evaluation, the growth portfolio, editorial packages, CTA health and conditional activation: flat conjunctions that would add only easy members.
- AI routing, partner ledgers, keyword universe, command line, dashboards, page serving and the rest of the worker.
