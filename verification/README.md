# ContextRail: a model of the governed run and its proofs

ContextRail takes a request about somebody's access ("give her what he has"), works out which access to grant and
revoke, has policy judge every action, asks a named person where policy says so, writes what is allowed to the systems
of record under an idempotency key, reads it back, and keeps a hash-chained audit. This project models that engine in
Dafny and proves what it promises.

## What is modelled

The governed run is modelled twice, and the two are proved to fit together.

- `Protocol.dfy`, `Steps.dfy` and `ProtocolProofs.dfy`: the run as a concurrent protocol. Rail passes, decisions through any door,
  crashes, restarts and connector faults interleave one transaction or one connector access at a time. The main results
  hold in every reachable world.
- `Rail.dfy`: the runner as it is written, a class that moves actions in place through nine stages, tied to `Pass.dfy`,
  the specification of one pass.
- `Refinement.dfy`: what the runner does uninterrupted is one of the interleavings of the protocol: the whole first pass
  of a run, the pass from Approve to Finalize, and a decision through a door with the pass it starts. A pass that ends
  early (a question, a query, an exception, an altered capsule) is stated for the runner only.
- `Stale.dfy`, `Asking.dfy`, `Naming.dfy`: what it costs that decisions and dispatch jobs are kept per run and action id
  while a restarted run may plan another action under that id: who can still decide, who is asked, whose approval a write
  carries.

Around them:

| file | what it models |
|---|---|
| `Models.dfy` | actions, verdicts, run statuses, the stage order |
| `Order.dfy`, `Text.dfy` | Python's string order, its stable sort, its decimal numerals |
| `Connector.dfy`, `Execute.dfy`, `Finalize.dfy` | the fixture connectors with their ledgers and faults, the retry loop, the read-back, the final status |
| `Plan.dfy`, `Holdings.dfy` | candidates, transfer revokes, plan order, and what a pass does to holdings |
| `JsonText.dfy`, `JsonReader.dfy`, `Canonical.dfy` | JSON text as it is printed and as it is read (sections 2 to 7 of RFC 8259), canonical text and what is hashed |
| `AuditChain.dfy`, `Precedents.dfy` | the hash chain, and precedents counted from it |
| `Policy.dfy`, `Studio.dfy` | the policy engine and the hold-one-rule-out simulation |
| `Budget.dfy`, `Router.dfy`, `LoneCall.dfy` | the LLM spend cap under concurrent calls, one call down the tiers, and that it is one of those calls |
| `TokenBucket.dfy` | the rate limit of a vendor account |
| `Jobs.dfy` | leases, attempts, settling and draining |
| `Base64.dfy`, `Links.dfy` | base64url (section 5 of RFC 4648) and signed decision links |
| `Intake.dfy`, `Tickets.dfy`, `Workers.dfy` | who comes to a run and under which locks; one ticket, one run; one run, one worker |
| `Events.dfy`, `Sse.dfy` | the event bus and the stream a client reads |

Conventions. A sha256 digest is modelled in the rail by the value that is hashed; `Canonical.KeysStandForActions` says
why that is sound up to a collision of the hash. Where a hash or a MAC appears as a function, nothing is assumed about
collisions: results name the two texts that would have to collide. Fields called history in a comment are never read by
the modelled code; they only let a property speak about the past. An exception of the original is a `None`, a `Failure`
or an `ok` that is false.

## What the code does not do

Some promises of the code or its documentation are narrower than they read. Each comes with a failing case and its exact
condition.

- One decision per run and action id. A run found in `running` starts over from Discover and may plan another action
  under the same id. Approvals stay safe, since they are bound to the parameters, but such an action can never be decided
  (`Stale.StaleDecisionArises`). An action awaiting a named approver can be decided if and only if its id has no decision
  or one for the same parameters (`Stale.DecidableExactly`).
- One worker per job. The module says a handler timeout below the lease is enough. With a settle that is late it is not,
  for any timeout of 5 seconds or more (`Jobs.LateSettleBreaksIt`). A handler timeout is enough if and only if it is
  within the lease and below the shortest retry delay, 5 seconds (`Jobs.TimeoutIsEnoughExactly`); a bound on claim, handler
  and settle together is enough if and only if it is within the lease (`Jobs.LeaseIsEnoughExactly`).
- One ticket, one run. The email surface starts a run per message without the ticket's lock (`Tickets.EmailsAddRuns`), so
  the rule holds for a ticket in all schedules with m messages if and only if m is zero (`Tickets.OneRunExactly`). That
  surface is an API without a caller in the engine: only `engine/tests/test_email_inbound.py` and
  `engine/tests/test_email_ack.py` call `handle_inbound_email`.
- Work on a run is serialised by its lock only among those who take it: jobs and candidates picked on the web. Whoever
  starts a run, a candidate picked in Slack, a recorded decision and the MCP tool go without it. Two held actions of one
  run decided at the same moment put two passes to work on it (`Workers.TwoDecisionsMeet`); a decision can overlap the
  ticket's job (`Workers.DecisionMeetsJob`). A run never has two workers, in all schedules of a set of callers, if and only if the
  set has no Slack pick, decision or MCP tool in it, no job that names a run beside anybody who starts runs, and no ticket's
  job beside the email surface (`Workers.OneWorkerExactly`). In the engine's own code the Slack pick, decisions and the MCP tool are in use; a `rail.run` job that names a run
  is part of the job's interface, but no engine code enqueues one. What two passes at once can and cannot do is what
  `ProtocolProofs.dfy` proves, which assumes no lock.
- Everyone who has to decide is asked. A dispatch job is enqueued once per run and action id, and names an approver and
  parameters. When a run that was started over plans the id for another person or other parameters, that person waits
  without a job and without a blocker (`Asking.UnaskedArises`); they are asked if and only if the key was free or the
  standing job names them and these parameters (`PassSpec.AskedExactly`, `Asking.AskedEverExactly`).
- The named approver decides. A decision is bound to the parameters and not to the approver the action names when it is
  written, so after a restart that names somebody else the old approval is carried out (`Naming.TwoNamesMix`). Approver and
  written action agree in all schedules if and only if the id is only ever planned for one person
  (`Naming.ApproverIsKeptExactly`).
- A verified write. A revoke takes one copy of an entitlement away, so it fails its read-back when the person held more
  (`Connector.RepeatedHoldingStays`, exactly so by `Connector.CleanWriteLands`, over whole runs `Holdings.RunHoldings`).
- A signed link verifies until it expires, unless its payload is longer than 1503 characters
  (`Links.VerifySigned`, `Links.AstralClaimsDoNotFit`).

## Model

| member | source | states |
|---|---|---|
| Models.DrivenIsGoverned | engine/contextrail/models.py:113-165 | whatever moves are attempted on a stamped action, a refusal stays refused, a held action is not written unless an approval was among the moves, terminal states stay, and `verified` is reached only through a write |
| Models.MovesAre | engine/contextrail/models.py:113-123 | every pair of states an action may move between, and no other; terminal are refused, verified and failed |
| Models.Action.Transition | engine/contextrail/models.py:158-165 | moves exactly when the table and the REFUSE rule allow it; otherwise it raises and changes nothing |
| Models.Action.ApplyVerdict | engine/contextrail/models.py:188-197 | a verdict is stamped once; the state follows the verdict; a second verdict raises and changes nothing |
| Models.StagesAreInOrder | engine/contextrail/models.py:265-287 | the stage sequences that pass the order check are exactly the prefixes of the fixed order: no skip, no reversal, no repeat |
| Order.SortForgetsOrder | engine/contextrail/canonical.py:42 | a stable sort by a key that separates elements gives one result for every order of its input |
| Order.SortByPermutes | engine/contextrail/rail/plan.py:38 | sorting permutes its input and leaves it in key order |
| Order.StrLeMeans | engine/contextrail/rail/plan.py:38 | strings are ordered by the first code point in which they differ, and a prefix comes first |
| Connector.WriteIsFaithful | engine/contextrail/connectors/fixture.py:21-40 | every keyed write, faults included, keeps the document equal to the replay of the distinct keys that were applied, and applies a key only if the ledger had never seen it |
| Connector.CleanWriteLands | engine/contextrail/connectors/fixture.py:65-86 | without a fault a fresh, accepted write is visible to the read-back, except when a revoke meets an entitlement held more than once: an exact condition |
| Connector.RepeatedHoldingStays | engine/contextrail/connectors/fixture.py:76-86 | that exception on a concrete document: an entitlement held twice is still held after an acknowledged revoke |
| Connector.FixtureConnector.WriteAction | engine/contextrail/connectors/fixture.py:21-79 | the in-place write does to the document, the ledger and the faults exactly what the keyed write is |
| Connector.InjectedFaultFiresOnce | engine/contextrail/connectors/fixture.py:21-40 | an injected fault meets the next write under its key and no later one; which faults leave the system unchanged, which time out, and that a lying acknowledgement is never tried again because its key is in the ledger |
| Connector.ChangeIsLocal | engine/contextrail/connectors/fixture.py:70-123 | an applied change adds or takes one copy of one entitlement of one person, or sets or empties one collaborator slot, and nothing else in the document changes |
| Connector.RefusedExactly | engine/contextrail/connectors/fixture.py:43-125 | without an injected fault a fresh write is refused exactly for an incomplete target, an unknown kind, entitlement, login or repository, and then changes nothing; every other one is acknowledged |
| Connector.ReadBackMeans | engine/contextrail/connectors/fixture.py:81-133 | the read-back finds the intended state if and only if the change would leave what the person holds, or the collaborators, exactly as they are; another permission in the slot is not the one granted |
| Connector.UnreadableExactly | engine/contextrail/connectors/fixture.py:81-133 | when there is nothing to read back: exactly for an incomplete target or an unknown login or repository |
| Connector.ReadBackTellsTimeouts | engine/contextrail/connectors/fixture.py:81-86 | after a timeout on a state not yet reached the read-back finds it exactly when the timeout came after the change, up to revokes of repeated holdings |
| Execute.ExecuteAction | engine/contextrail/rail/execute.py:43-73 | the retry loop makes the writes and read-backs of the specification, on the given number of attempts; an action that is not executable is not written |
| Execute.ExecutionIsExactlyOnce | engine/contextrail/rail/execute.py:51-73 | for every fault schedule and number of attempts: one change at most and only under a fresh key; executed means the key is in the ledger or a read-back saw the state; failed means nothing changed |
| Execute.KnownKeyIsReplayed | engine/contextrail/connectors/fixture.py:23-24 | a known key is answered from the ledger at the first attempt and changes nothing |
| Execute.CleanExecution | engine/contextrail/rail/execute.py:51-59 | without faults a fresh key is written at the first attempt, or refused outright |
| Execute.AnswersLeadTo | engine/contextrail/rail/execute.py:51-73 | what each answer and each reconciling read-back leads to, at any attempt: executed, failed, unknown, a retry or a read-back, each exactly when |
| FinalizeStage.FinalStatusIsEarned | engine/contextrail/rail/finalize.py:29-35 | a run is done exactly when no blocker is open and every action is verified; it waits exactly when something awaits a decision; a final status is a legal move of a running run |
| FinalizeStage.TallyIsComplete | engine/contextrail/rail/finalize.py:22-26 | the verdict counts of a decided case add up to its actions |
| FinalizeStage.TallyMeans | engine/contextrail/rail/finalize.py:22-26 | each number of the tally is the number of actions it is about; failed counts the unknown ones too |
| Protocol.WithDecisions | engine/contextrail/rail/approve.py:35-54 | a recorded decision moves exactly the awaiting action whose parameters it was bound to; every other action stays |
| ProtocolProofs.StepKeeps | engine/contextrail/rail/runner.py:239-322 | every step of a pass, a door, a crash or a fault keeps the invariant of the whole protocol |
| ProtocolProofs.WritesAreAuthorised | engine/contextrail/rail/runner.py:253-263 | in every interleaving of passes, decisions, crashes and faults, each write was issued for an allowed action or a held one with an approved decision on the same parameters, with no blocker open, and never for a refused one |
| ProtocolProofs.ChangedAtMostOncePerKey | engine/contextrail/connectors/fixture.py:21-40 | in every interleaving each document has changed at most once per idempotency key since it was seeded, and is the replay of those changes |
| Naming.ApproverIsKeptExactly | engine/contextrail/rail/approve.py:44-52 | for every set of people an id may be planned for: all schedules write its held actions only for actions that name whoever approved them, if and only if the set has at most one person |
| Naming.TwoNamesMix | engine/contextrail/rail/approve.py:44-52 | for any two people and any id: the first approves, the run starts over and names the second, and the write for the second is made under the approval of the first |
| ProtocolProofs.OutcomesAreProven | engine/contextrail/rail/verify.py:29-39 | in every saved case, executed means the ledger holds the key or a reconciling read-back saw the state; verified means the verify read of a pass, and no other read, found the intended state; refused actions stay refused |
| ProtocolProofs.FirstDecisionWins | engine/contextrail/surfaces/door.py:150-201 | for one action at most one call is answered `recorded`, every other decided answer names that winner and its door, and there is exactly one decision row and one job of each kind |
| ProtocolProofs.DecidersAreNamed | engine/contextrail/surfaces/door.py:168-184 | whoever is recorded was the approver named on the awaiting action as read, for exactly its parameters, and is neither requester nor beneficiary; an unknown requester or beneficiary records nothing |
| ProtocolProofs.AnswerMeans | engine/contextrail/surfaces/door.py:150-201 | the answer of a door, field by field: recorded exactly for the named approver of an awaiting, undecided action with these parameters who is neither requester nor beneficiary, both being known; already decided exactly with a decision on record; otherwise rejected |
| ProtocolProofs.NoActionMoveIsIllegal | engine/contextrail/models.py:158-165 | no interleaving makes an action raise IllegalTransition |
| ProtocolProofs.DecisionsStay | engine/contextrail/repo.py:108-116 | a recorded decision is never changed or removed |
| Stale.DecidableExactly | engine/contextrail/rail/approve.py:40-53 | the cost of that, exactly: an action that awaits a person who may decide it can still be decided if and only if its id has no decision yet or one for these very parameters |
| Stale.StaleDecisionArises | engine/contextrail/rail/runner.py:100-110 | it happens: for any two different parameters and any decision some run of the protocol decides an action, restarts, and awaits under the same id with the other parameters, which nothing then decides |
| Stale.DecisionLands | engine/contextrail/surfaces/door.py:150-201 | a call of the named approver through any door records a decision that counts, for either decision |
| Stale.LateCallsAreTold | engine/contextrail/surfaces/door.py:161-166 | after an id was decided every later call about it, for whatever parameters, commits nothing and is told of that decision |
| GovernPlan.BuildCandidates | engine/contextrail/rail/govern.py:25-42 | one numbered grant per wanted entitlement, in the order baseline, statement-of-work repositories, team |
| GovernPlan.Evaluate | engine/contextrail/rail/govern.py:52-61 | every candidate is decided once and its verdict stamped |
| GovernPlan.WantedAvoidsHoldings | engine/contextrail/rail/govern.py:27-41 | no grant is ever wanted for what the person already holds |
| GovernPlan.TransfersRevokeExactly | engine/contextrail/rail/plan.py:16-24 | with a previous team on record a plan has one revoke per copy held of each entitlement whose role scope lacks the role, and no other revoke; without one it has none |
| GovernPlan.WantedExactly | engine/contextrail/rail/govern.py:25-42 | an entitlement is wanted if and only if it is not held and the peer has it, or on joining the role's baseline, a repository of the statement of work or, if everything was asked for, the team asks for it |
| GovernPlan.WantedInOrder | engine/contextrail/rail/govern.py:33-41 | baseline first, then repositories, then the team, and nothing on two of these grounds |
| GovernPlan.PlanTargets | engine/contextrail/rail/govern.py:16-22 | every action of a plan carries the catalogue's entry for its entitlement and where it comes from |
| GovernPlan.ListsAreNumbered | engine/contextrail/rail/plan.py:22-24 | candidates and revokes are numbered from one in their order; planning fails exactly when an entitlement is not in the catalogue |
| GovernPlan.PlanIsRanked | engine/contextrail/rail/plan.py:27-38 | allowed grants, then allowed revokes, then holds, then refusals, and by id within each |
| GovernPlan.PlanFits | engine/contextrail/rail/plan.py:27-38 | a plan is a permutation of the governed grants and revokes in rank order, refusals kept, with distinct ids, grants outside the holdings and revokes inside them |
| PassSpec.PassSettles | engine/contextrail/rail/runner.py:239-301 | a blocker-free pass leaves every action awaiting, refused, verified or failed; a blocked pass writes nothing; the run is done exactly when no blocker is open and every action is verified |
| PassSpec.DecidedIsLawful | engine/contextrail/rail/approve.py:35-54 | applying decisions never raises and keeps every action lawful |
| PassSpec.OutcomesAreFinal | engine/contextrail/rail/runner.py:310-322 | over any number of passes only states change, and refused, verified and failed are final |
| PassSpec.HoldsReachSomeone | engine/contextrail/rail/approve.py:17-32 | an action waiting for nobody nameable blocks the run and nothing else newly does; an action waiting for a named person has a dispatch job under its key; enqueued are exactly the jobs that ask for such actions under keys no job had, so a standing job stays, whomever it asks |
| PassSpec.WhoIsAsked | engine/contextrail/rail/approve.py:17-32 | an approver can be asked unless missing or a role; what the job asks and what the blocker says |
| PassSpec.EachSystemItsOwn | engine/contextrail/rail/execute.py:22-27 | each action is written to and read from its own system only; what is not executable is not written; verified exactly when that system reads back as intended |
| PassSpec.AskedExactly | engine/contextrail/rail/approve.py:26-31 | the named approver of a waiting action is asked about its parameters exactly when its key was free or the standing job names that person and those parameters |
| Asking.AskedEverExactly | engine/contextrail/repo.py:141-152 | the same in every reachable world and for every continuation: otherwise no job that asks is ever enqueued |
| Asking.TakenIsNeverAsked | engine/contextrail/repo.py:141-152 | where another job stands under a dispatch key, no continuation of a reachable world enqueues the job |
| Asking.UnaskedArises | engine/contextrail/rail/approve.py:26-31 | it happens: for any two people and parameters some run dispatches to the first, crashes, starts over and waits under the same id for the second, with no blocker, and no continuation asks |
| PassSpec.DecisionTakesEffect | engine/contextrail/rail/approve.py:40-53 | a decision that counts takes effect in the next pass: a refusal is final, an approval is written and read back, or waits while a blocker is open |
| PassSpec.BlockedRunsWriteNothing | engine/contextrail/rail/runner.py:243-256 | continuing a run never lifts a blocker: once one is open no later pass writes anything |
| Holdings.PassHoldings | engine/contextrail/connectors/fixture.py:65-86 | a fault-free pass, whatever is held how often: each entitlement ends with the copies its grants and revokes leave in plan order, each written action is verified exactly when its effect is there, each key enters the ledger, and nobody else's holdings change |
| Holdings.RunHoldings | engine/contextrail/rail/runner.py:239-322 | all passes of a run from its records as compiled, blocked ones and repeated holdings included: one copy if a grant was written, else what was held less one copy per written revoke; verified actions have their effect and only a revoke of a repeated holding can fail |
| Holdings.SetHoldings | engine/contextrail/connectors/fixture.py:65-86 | for holdings without repeats the person ends with what was held plus the written grants minus the written revokes, and every written action is verified |
| Rail.Runner.SetStatus | engine/contextrail/rail/runner.py:72-76 | moves the status along the table or raises and changes nothing |
| Rail.Runner.ApplyRecorded | engine/contextrail/rail/approve.py:35-54 | the in-place loop applies exactly the decisions that count, and reports as void those bound to other parameters |
| Rail.Runner.DispatchHolds | engine/contextrail/rail/approve.py:17-32 | the loop enqueues a dispatch job, naming approver and parameters, for each waiting action with a named approver unless one stands under its key, and turns an unresolved approver into a blocker |
| Rail.Runner.ExecuteAll | engine/contextrail/rail/runner.py:257-263 | the in-place loop writes exactly the executable actions, in plan order |
| Rail.Runner.VerifyAll | engine/contextrail/rail/runner.py:273-279 | the in-place loop reads back exactly the executed and unknown actions |
| Rail.Runner.Sync | engine/contextrail/rail/runner.py:303-308 | the saved states of the given ids reach the actions table |
| Rail.Runner.ApproveStage | engine/contextrail/rail/runner.py:240-251 | decisions applied, holds dispatched, the case sealed, and the table agrees with the case again |
| Rail.Runner.ExecuteStage | engine/contextrail/rail/runner.py:253-270 | nothing is written while a blocker is open; otherwise the plan is executed and the table agrees |
| Rail.Runner.VerifyStage | engine/contextrail/rail/runner.py:272-286 | the written actions are read back and the table agrees |
| Rail.Runner.Continue | engine/contextrail/rail/runner.py:239-301 | the four stages compute exactly the specified pass: documents, case, status, jobs, sealed capsule and audit rows in stage order |
| Rail.Runner.HandOff | engine/contextrail/rail/runner.py:211-235 | the case is received only if it is the one that was sealed and recorded; otherwise the run fails before anything is written |
| Rail.Runner.Resume | engine/contextrail/rail/runner.py:310-322 | only a run awaiting approval is continued, exactly as the specified pass says; an altered capsule halts it with one audit row and nothing written |
| Rail.Runner.RecordApproval | engine/contextrail/repo.py:108-116 | the first insert for an action wins, and a later one changes nothing |
| Rail.Runner.Decide | engine/contextrail/surfaces/door.py:150-209 | the answer follows from the tables alone; a rejection leaves only its audit row, a late call nothing; a recorded decision is audited, mirrored and continues the run from the sealed case, or fails the run with nothing written when that case was altered |
| Rail.Runner.Proceed | engine/contextrail/rail/runner.py:144-209 | from Compile to Finalize the run does exactly what the plan and the specified pass say |
| Rail.Runner.PlanStages | engine/contextrail/rail/runner.py:144-201 | Compile, Govern and Plan seal a case that a pass may start from, and save it to the table |
| Rail.Runner.RunRail | engine/contextrail/rail/runner.py:100-209 | the whole first pass, from the status check to Finalize: all nine stages audited in order, or a question, a query answer or an exception that writes nothing |
| Rail.PeerAccess | engine/contextrail/rail/govern.py:30-32 | the peer's access is asked for only where a peer is named, and the peer plays no part in any other request |
| Rail.WritesSync | engine/contextrail/rail/runner.py:303-308 | saving the states of the moved actions makes the table agree with the case |
| Refinement.WriteSettles | engine/contextrail/rail/execute.py:51-73 | the retry loop is a sequence of protocol steps with the same document and the same outcome |
| Refinement.PassIsARun | engine/contextrail/rail/runner.py:239-301 | the runner's pass from Approve to Finalize is one of the protocol's interleavings: same documents, saved case, table, jobs and audit rows |
| Refinement.FirstPassIsARun | engine/contextrail/rail/runner.py:100-209 | so is the whole first pass from Discover to Finalize, with all nine audit rows |
| Refinement.DecideIsARun | engine/contextrail/surfaces/door.py:150-201 | so is a decision that is recorded on a run awaiting it, with the pass it starts: same answer, decision, documents, case, jobs and audit rows |
| Refinement.RefusedCallIsARun | engine/contextrail/surfaces/door.py:155-209 | so is a call that is rejected or comes too late |
| JsonText.PrintIsInjective | engine/contextrail/canonical.py:64-65 | different JSON values print differently, in the canonical style and in the style that sorts sets |
| JsonText.PrintSplits | engine/contextrail/canonical.py:64-65 | printed values are self-delimiting: where one ends inside a text is determined by the text |
| JsonText.SortedKeys | engine/contextrail/canonical.py:65 | each key once, in code point order |
| JsonText.PrintIsAscii | engine/contextrail/surfaces/decision_link.py:90 | the two other styles print ASCII only |
| JsonReader.ParseReadsBack | engine/contextrail/canonical.py:64-65 | a reader of JSON (RFC 8259) finds in every printed text the value that was printed, in all three styles |
| JsonReader.PrintIsJoined | engine/contextrail/canonical.py:65 | items and sorted fields between separators; only the spaced style has a blank, and one |
| JsonReader.EscapedExactly | engine/contextrail/canonical.py:65 | which characters stand for themselves, which have a short escape, and that hexadecimal digits are lower case |
| Canonical.CanonicalTextIsFaithful | engine/contextrail/canonical.py:27-65 | on JSON-native values two canonical texts agree exactly when the values are equal up to the insertion order of dictionaries |
| Canonical.OrderIsForgotten | engine/contextrail/canonical.py:34-42 | neither the insertion order of dictionaries nor the iteration order of sets, at any depth, reaches the text |
| Canonical.TextsAgree | engine/contextrail/canonical.py:64-65 | canonical texts agree exactly when the normal forms do, and a value without one has none |
| Canonical.InstantTextIsInjective | engine/contextrail/canonical.py:43-46 | different moments have different texts |
| Canonical.ParamsPrintApart | engine/contextrail/canonical.py:72-74 | different action parameters have different texts to hash |
| Canonical.TriplesPrintApart | engine/contextrail/canonical.py:77-84 | different (run, action, params hash) triples have different texts to hash |
| Canonical.KeysStandForActions | engine/contextrail/canonical.py:77-84 | two idempotency keys agree only for the same run, action and parameters, or the hash confused two texts that are named |
| AuditChain.VerifyChain | engine/contextrail/audit/chain.py:39-50 | accepts exactly the linked chains; on rejection the rows before the reported one are an accepted chain, that row breaks it, and the reason is the one that holds |
| AuditChain.AcceptedIsBuilt | engine/contextrail/audit/chain.py:39-50 | the accepted row sequences are exactly those that appending builds |
| AuditChain.AuditTable.Append | engine/contextrail/repo.py:125-138 | outside a transaction nothing is written; inside, one row extends the chain, which stays accepted |
| AuditChain.MessageSplits | engine/contextrail/audit/chain.py:26-28 | previous hash and body split in one way only |
| AuditChain.ChainsAgree | engine/contextrail/audit/chain.py:26-50 | two accepted chains that end in the same hash have the same length, events, payloads, times and hashes, or the hash confused two messages that are named |
| AuditChain.EditsAreFound | engine/contextrail/audit/chain.py:39-50 | an edit in a chain that kept its last hash is rejected |
| AuditChain.RunAndSeqAreNotCovered | engine/contextrail/audit/chain.py:26-28 | the run id and the sequence number are not covered: changing them changes no verdict |
| AuditChain.TruncationIsAccepted | engine/contextrail/audit/chain.py:39-50 | a chain cut short is still accepted |
| Budget.Cost | engine/contextrail/llm/pricing.py:52-57 | the least whole number of microdollars that is not below the exact cost |
| Budget.ReserveIsLeastBound | engine/contextrail/llm/router.py:361-369 | the reserve is the least amount that no token split within the byte bound can exceed |
| Budget.PricesAre | engine/contextrail/llm/pricing.py:39-57 | millions of tokens cost exactly the listed dollars |
| Budget.RunLock | engine/contextrail/llm/ledger.py:39 | a run's lock key is never the Bedrock key |
| Budget.SpendIsCapped | engine/contextrail/llm/router.py:333-387 | over every interleaving of calls and crashes the recorded spend of a run stays within its budget and that of Bedrock within the cap |
| Budget.NoDeadlock | engine/contextrail/llm/ledger.py:38-54 | no set of calls waits only for locks held among them |
| Budget.SomeCallCanStep | engine/contextrail/llm/ledger.py:38-54 | while a call is unfinished some call can take a step |
| Budget.GuardsExclude | engine/contextrail/llm/ledger.py:30-54 | two calls past their spend checks never share a run, nor both use Bedrock |
| LoneCall.CallIsARun | engine/contextrail/llm/router.py:306-359 | a whole model call that nothing interrupts is one of the interleavings the caps are proved for: the same rows, no lock left, every other caller untouched |
| Router.ModelRouter.Attempt | engine/contextrail/llm/router.py:389-411 | the in-place retry loop leaves the rows and the outcome that the specification of an attempt gives |
| Router.AttemptMeans | engine/contextrail/llm/router.py:145-169 | an attempt serves, fails over or fails for good exactly by the status codes of its one or two answers: a connection error, a 5xx, a 402, a billing error, a 400 about the credit balance or a second 429 fail over |
| Router.ModelRouter.Call | engine/contextrail/llm/router.py:306-359 | the in-place loop over tiers, breakers and ledger does what the specification of a call says |
| Router.CallMeans | engine/contextrail/llm/router.py:333-359 | the first tier that a call cannot get past (cooling, over a budget, failing over) decides it: answered if it serves, failed if it raises anything else, replayed or missed by a replay tier; past all tiers, the budget or no tier is reported |
| Router.CallFailsOnly | engine/contextrail/llm/router.py:145-169 | a call fails for good only at a tier that raised something no other tier could mend, given as status codes |
| Router.CallRows | engine/contextrail/llm/router.py:333-411 | past rows stay, at most two rows are added per tier, and one more `ok` row exactly when there is an answer |
| Router.CallDecides | engine/contextrail/llm/router.py:333-359 | an answer comes from a tier that served and closes its breaker; only tiers that failed over are tripped; a replay tier always ends the chain |
| Router.CallKeepsCaps | engine/contextrail/llm/router.py:371-387 | a call keeps both caps through whatever tiers it passes |
| Router.CircuitBreaker.Trip | engine/contextrail/llm/router.py:202-207 | the tier is skipped at exactly the moments before the trip plus the cooldown, and every other tier is open when it was |
| Router.CircuitBreaker.Reset | engine/contextrail/llm/router.py:202-210 | the tier may be called at every moment, and every other tier is open when it was |
| RateLimit.LimitsFor | engine/contextrail/connectors/ratelimit.py:25-30 | a bucket exists exactly for a positive rate and a burst of at least one; the burst is a quarter of the rate, and at least one, unless given |
| RateLimit.TokenBucket.Refill | engine/contextrail/connectors/ratelimit.py:37-40 | tokens grow with time, up to the burst |
| RateLimit.TokenBucket.Acquire | engine/contextrail/connectors/ratelimit.py:42-49 | the wait loop takes one token after the sleeps the specification counts, each as long as it asks, or none if it never woke |
| RateLimit.WindowBound | engine/contextrail/connectors/ratelimit.py:21-49 | the number of acquires that complete in any closed 60 seconds is at most rate + burst, for every schedule with a clock that does not run backwards, despite the epsilon |
| RateLimit.WaitIsExact | engine/contextrail/connectors/ratelimit.py:47 | the wait that is asked for ends exactly when a whole token is there |
| RateLimit.RefillIsTheRate | engine/contextrail/connectors/ratelimit.py:37-40 | a minute refills exactly the rate, up to the burst |
| RateLimit.SleepsAtMostOnce | engine/contextrail/connectors/ratelimit.py:45-49 | if sleeps last as long as asked, an acquire sleeps at most once and then has its token |
| Jobs.DelaysDouble | engine/contextrail/jobs.py:77-79 | each retry delay is twice the one before, from 5 seconds up to ten minutes |
| Jobs.AttemptsAreBounded | engine/contextrail/repo.py:155-180 | whatever crashes and however late anyone is, a job is claimed at most max_attempts times, is done only after a handler returned, and dedupe keys are unique |
| Jobs.DoneIsFinal | engine/contextrail/repo.py:171-173 | a done job stays done and is never claimed again |
| Jobs.SettledMayBeClaimed | engine/contextrail/jobs.py:117-134 | a settled job may be claimed again exactly after a raise with attempts left, from the moment its retry delay is over; its lease ends in every case |
| Jobs.EnqueuedOnce | engine/contextrail/repo.py:143-152 | a job is added unless its deduplication key was ever used, and is ready from its time on |
| Jobs.OneWorkerPerJob | engine/contextrail/jobs.py:90-134 | if claim, handler and settle fit in the lease, no job is run by two workers at once |
| Jobs.LeaseIsEnoughExactly | engine/contextrail/jobs.py:90-134 | for every lease and bound: all schedules with claim to settle within the bound keep one worker per job if and only if the bound is within the lease |
| Jobs.TimeoutIsEnoughExactly | engine/contextrail/jobs.py:93-96 | for every lease and timeout: all schedules whose handlers end within the timeout keep one handler per job if and only if the timeout is within the lease and below the shortest retry delay of 5 seconds |
| Jobs.LateSettleBreaksIt | engine/contextrail/jobs.py:9 | for every lease and every timeout of 5 seconds or more, a handler timeout below the lease is not enough: a late settle clears another worker's lease and two handlers work on one job |
| Jobs.Queue.ClaimNext | engine/contextrail/repo.py:155-168 | claims the ready job that is due first, lowest id on ties, or finds none ready |
| Jobs.Queue.RunOnce | engine/contextrail/jobs.py:102-134 | one claim, one run, one settle; the attempts left go down |
| Jobs.Queue.Drain | engine/contextrail/worker.py:43-48 | draining ends within the attempts that were left, when nothing is ready |
| Policy.VerdictIsStrictest | engine/contextrail/policy/engine.py:96-111 | the verdict is the strictest outcome of the rules that fired; a refusal by default when none did |
| Policy.QuotedRule | engine/contextrail/policy/engine.py:96-111 | which rule is quoted: terminal refusals first, then the lowest id; the most senior approver of a hold, then the lowest id; the lowest id of an allowance |
| Policy.FiredExactly | engine/contextrail/policy/engine.py:68-91 | an outcome fired exactly when an enabled rule concerns the action and holds, with the verdict and role of its escalation if it escalates and its own otherwise, or does not hold and has an else-verdict, which names no role |
| Policy.RuleIsHeard | engine/contextrail/policy/engine.py:68-111 | over the whole decision: every enabled rule that concerns the action makes the verdict at least as strict as its escalation, its own verdict or its else-verdict, whichever applies, and a hold that quotes it asks for the role it came to |
| Policy.SilentRule | engine/contextrail/policy/engine.py:87-91 | a rule that is disabled, concerns something else, or neither holds nor has an else-verdict can be removed without changing the decision |
| Policy.VerdictIsWritten | engine/contextrail/policy/engine.py:96-124 | every verdict quotes a loaded rule that fired with it, word for word, and offers its alternative; without one it is the default refusal |
| Policy.GrantIsBoxed | engine/contextrail/policy/engine.py:127-134 | what is granted is time-boxed by the shortest limit of any rule that fired without refusing, and unlimited exactly when none has one |
| Policy.RuleOrderIsForgotten | engine/contextrail/policy/engine.py:79-94 | a decision does not depend on the order in which rules with distinct ids are loaded |
| Policy.ShortestIsLeast | engine/contextrail/policy/engine.py:127-134 | the time box is the shortest among all rules that allowed or held |
| Policy.DecisionIsWellFormed | engine/contextrail/policy/engine.py:83-134 | every decision's verdict may exist; no alternative when allowed, no time box when refused, and a hold never names the requester as its resolved approver |
| Policy.FirstOtherIsFirst | engine/contextrail/policy/approvers.py:28-34 | the approver is the first candidate who is somebody and not the requester |
| Policy.ApproverIsFound | engine/contextrail/policy/approvers.py:28-34 | a hold asks the first candidate who is somebody and not the requester, and the bare role only when there is none |
| Policy.SeniorityIsTheList | engine/contextrail/policy/engine.py:102-105 | an approver outranks another exactly when it is later in the list of roles, where unknown roles and none come below all |
| Policy.NeverTheRequester | engine/contextrail/policy/approvers.py:28-34 | an approver who was resolved is never the requester |
| Policy.NegatedOrder | engine/contextrail/policy/engine.py:137-139 | on ids of one length the negated tie-break is the reverse order of strings |
| Policy.ApplyDecision | engine/contextrail/policy/engine.py:142-150 | a decision is stamped once with its time box; a naive time raises first |
| Policy.EngineDecides | engine/contextrail/rail/govern.py:52-61 | the engine gives every action a verdict that may exist, which is all the plan relies on |
| Studio.SimulateHoldOut | engine/contextrail/policy/studio.py:90-111 | one row per action, an unknown rule is reported, and the totals of every report balance |
| Studio.HoldOut | engine/contextrail/policy/engine.py:83-111 | holding a rule out tightens a verdict exactly when it alone had fired and had not refused, never turns an allowance into a hold, and changes nothing if it had not fired |
| Studio.LoosensExactly | engine/contextrail/policy/engine.py:83-111 | it loosens a verdict exactly when another rule fired and no other rule is as strict as the verdict |
| Studio.DiffMeans | engine/contextrail/policy/studio.py:119-125 | what each change in a report says about the rules that fired |
| Studio.HeldOutIsDeleted | engine/contextrail/policy/studio.py:99-103 | holding a rule out decides every action as if the rule had been deleted from the policy |
| Studio.DriftMeans | engine/contextrail/policy/studio.py:104-108 | a row drifts exactly when the verdict, rule or approver on record is not what today's rules come to |
| Studio.CountIs | engine/contextrail/policy/studio.py:140-148 | each total is the number of the rows it is about |
| Studio.RowsBalance | engine/contextrail/policy/studio.py:139-175 | tightened is newly refused, loosened is unblocked plus released, changed is the sum of the three kinds |
| Studio.TallyOf | engine/contextrail/policy/studio.py:128-132 | one counter per verdict, adding up to the outcomes |
| Base64.RoundTrip | engine/contextrail/surfaces/decision_link.py:71-76 | base64url without padding decodes to the original bytes, for every length |
| Base64.EncodeShape | engine/contextrail/surfaces/decision_link.py:71-72 | only characters of the alphabet, never a dot, and the length |
| Base64.DecodesExactly | engine/contextrail/surfaces/decision_link.py:75-76 | any text over the alphabets decodes, to three bytes for every four characters, unless its length leaves one over |
| Links.SignedStringsDiffer | engine/contextrail/surfaces/decision_link.py:40-52 | different claims never share a signed string |
| Links.VerifySigned | engine/contextrail/surfaces/decision_link.py:89-106 | verifying a signed link gives the claims back exactly when the payload has at most 1503 characters and the link has not expired, and otherwise says which |
| Links.TokenShape | engine/contextrail/surfaces/decision_link.py:89-91 | a token has exactly one dot, and its length |
| Links.BelievedIsAuthentic | engine/contextrail/surfaces/decision_link.py:93-106 | a believed or expired link carries the MAC of exactly what it claims |
| Links.AcceptedExactly | engine/contextrail/surfaces/decision_link.py:40-49 | which claims a link can carry, character by character; any other is signed into a token that is malformed |
| Links.ReadersAreFair | engine/contextrail/surfaces/decision_link.py:97-98 | what is assumed of `loads` is what a reader of JSON does |
| Links.MacsDoNotTransfer | engine/contextrail/surfaces/decision_link.py:93-106 | the MAC of one link cannot carry another claim unless the MAC confused two signed strings |
| Links.PlainClaimsFit | engine/contextrail/surfaces/decision_link.py:94-95 | claims with printable ASCII names always fit the token limit |
| Links.AstralClaimsDoNotFit | engine/contextrail/surfaces/decision_link.py:94-95 | some accepted claims are signed into a token that verification refuses as malformed |
| Intake.FindTicketRun | engine/contextrail/intake.py:37-42 | the latest run of a ticket, or none exactly when it has none |
| Intake.HolderGoesOn | engine/contextrail/intake.py:102-116 | whoever holds a run's lock: a job runs one found in `running` and resumes one that awaits approval exactly when something in it was decided; a web pick runs one that needs input; nothing else happens |
| Tickets.OneTicketOneRun | engine/contextrail/intake.py:119-144 | over every interleaving and crash, deliveries start at most one run per ticket, and the ticket's runs are that one and one per message of the email surface |
| Tickets.OneRunExactly | engine/contextrail/surfaces/email.py:107-108 | for every number of messages: all schedules with that many keep at most one run of the ticket if and only if it is zero |
| Tickets.EmailsAddRuns | engine/contextrail/surfaces/email.py:107-108 | the email surface starts a run without the ticket lock: a delivery and then m messages leave exactly m + 1 runs |
| Tickets.CrashedRunIsContinued | engine/contextrail/intake.py:129-144 | in every world reached without messages: if a run of the ticket stands in `running` and its locks are free, the next job for the ticket comes to work on it and starts nothing, and however things go on it stays the ticket's only run |
| Tickets.TicketsRunIsUnique | engine/contextrail/intake.py:37-42 | without messages two runs of one ticket are one run, in every reachable world |
| Workers.OneLockHolder | engine/contextrail/intake.py:58-116 | over every schedule of starts, jobs, picks, decisions and the MCP tool: of any two on one run at most one came with the run lock, the other has started the run or is a Slack pick, a decision or the MCP tool, and at most one has started it |
| Workers.OneWorkerExactly | engine/contextrail/intake.py:102-144 | for every set of callers: all their schedules, from runs of any status, keep one worker per run if and only if nobody among them resumes a run or picks in Slack, no job names a run where runs are started, and no ticket's job meets the email surface |
| Workers.TwoDecisionsMeet | engine/contextrail/surfaces/door.py:199 | two held actions of a run decided at the same moment: both decisions resume it and two passes work on it, neither of them its starter |
| Workers.DecisionMeetsJob | engine/contextrail/intake.py:104-109 | a decision has set the run to running when the ticket's job is delivered again: it starts the run over beside the decision's pass |
| Workers.StarterAndJob | engine/contextrail/surfaces/door.py:115-122 | whoever starts a run, by any door, takes no run lock, and a job that names the run works on it at the same time |
| Events.EventBus.Emit | engine/contextrail/rail/events.py:54-70 | numbers the event, keeps the bounded history, and puts it in every open queue of its run and no other; queues stay gap-free |
| Events.EventBus.Subscribe | engine/contextrail/rail/events.py:33-39 | a new queue starts with the history and joins live events without a gap |
| Events.EventBus.Unsubscribe | engine/contextrail/rail/events.py:41-42 | one queue is closed and the others stay |
| Events.EventBus.FanOut | engine/contextrail/rail/events.py:63-64 | each open queue receives the event once |
| Sse.StageEvents | engine/contextrail/surfaces/sse.py:31-55 | the generator loop sends what the stream specification says |
| Sse.NothingIsLost | engine/contextrail/surfaces/sse.py:36-53 | the stage frames are exactly the events read that are newer than what the client has; unless the stream ended, all were read |
| Sse.EndIsLast | engine/contextrail/surfaces/sse.py:39-53 | `end` comes at most once, last, and with a terminal status or for a run that is gone |
| Sse.ClientSeesEventsInOrder | engine/contextrail/surfaces/sse.py:31-55 | a client sees consecutive sequence numbers up to where its reading stopped, and exactly the events read that are above its resume point |
| Sse.EndsExactly | engine/contextrail/surfaces/sse.py:36-53 | a stream ends if and only if, after some of its wakes, the replayed history was read and the run known to be over, or the event just read says that it is |
| Precedents.ComputePrecedents | engine/contextrail/knowledge/precedent.py:75-118 | a broken chain yields nothing; it fails otherwise exactly when a row lacks what is read of it: the verdicts of a govern row, the action of a decision, its params hash once rule and action are known, and the counted fields once it is attributed; else the entries are the attributed decisions of the chain, grouped, and the rest is skipped with its reason |
| Precedents.RuleIsTheLastNamed | engine/contextrail/knowledge/precedent.py:82-87 | an action's rule is the one named for it by the last govern row of its run that names any, and it has none exactly when none does |
| Precedents.BookMeans | engine/contextrail/knowledge/precedent.py:94-118 | under each key stand exactly the decisions of the chain whose action had that rule last and that entitlement, and whose parameters still hash to what was decided |
| Precedents.SkippedMeans | engine/contextrail/knowledge/precedent.py:101-106 | a decision is skipped for want of a govern row, or because its parameters changed, exactly when that is so |
| Precedents.EntriesCount | engine/contextrail/knowledge/precedent.py:112-117 | approved and refused are the numbers of such decisions in the entry, and its citations are their rows |
| Precedents.UnreadableExactly | engine/contextrail/knowledge/precedent.py:85-87 | which govern rows cannot be read |
| Precedents.CountableExactly | engine/contextrail/knowledge/precedent.py:96-109 | which decisions stop the count: each field is missed only where it is read |
| Precedents.PrecedentsAreConserved | engine/contextrail/knowledge/precedent.py:75-118 | approved plus refused over all entries, plus the number skipped, is the number of decision rows |
| Precedents.CountsAreAttributed | engine/contextrail/knowledge/precedent.py:95-108 | a counted decision's action hashes to the params hash it was bound to, under the recorded rule, and no row is counted in two entries |

## Left out

- Protocol.Do: run statuses and the locks around passes are not used, so a pass may begin or resume at any moment; every interleaving of the engine is among the modelled ones, and status transitions are stated for the runner.
- Protocol.Dispatched: how a dispatch job is delivered is not part of the model: the email handler compares its payload with the action, while Slack and Freshservice read the table and skip an action they already have a card or an approval for. The ticket surface's own dispatch jobs, under keys of their own, are left out too.
- Connector.Doc: a document lives from its seeding on. Resetting a fixture empties its ledger, and its lock is one per process; neither is part of the model, so bounds per key hold per lifetime of a document and within one process.
- Precedents.RulesIn: a govern row is read in the form the runner writes, pairs of texts; other shapes that Python would unpack are taken as failing.
- Workers.OneWorkerExactly: the hashes of tickets' and runs' lock names are taken to differ; a decision is any recorded decision on an action id of the run.
- Protocol.DoHandOver: altered capsules are not in the protocol, whose cases are loaded as saved; Rail.Runner.HandOff states what they do.
- Rail.Runner.Resume: audit rows about the run itself (created, resumed, input received, query routed) are not part of the model, and neither is the usage event.
- Protocol.Do: the concurrent tables are steps on values; update in place is captured by the class Runner, for one call at a time.
- Budget.SpendIsCapped: speaks of recorded spend. A crash between a provider's answer and its ledger row leaves a cost that no row records, and providers are assumed to bill at most one token per byte of the request plus 1024.
- Budget.Do: the lock list and the guard connection of the ledger are steps on values; the three releases of a guard are one step.
- Connector.ReadBack: verifying against an unknown repository raises in the original; it is modelled as an unreadable read-back, which no accepted write can reach.
- Holdings.RunHoldings: is about the entitlements connector only, because two GitHub entitlements of one person can share a collaborator slot; it speaks of passes that no other run's writes come between and of writes without injected faults, and a restart from Discover is a new run in it.
- GovernPlan.BuildCandidates: an action's target keeps system, repository, permission, entitlement, subject and origin; other catalogue keys and the previous team are not part of the model. Whether the request says "everything" is an input.
- Policy.FiredExactly: matching, conditions and escalation expressions are abstract facts per rule, and the rule files' contents are not part of the model; the protocol uses what POL-SOD-001 says.
- Canonical.CanonicalTextIsFaithful: floats, decimals, enums, dates without time and pydantic models are not part of the model; UUIDs are their text, and aware datetimes are the moment they denote.
- JsonReader.Parse: reads integers only; fractions and exponents do not occur in what is printed here.
- Studio.HeldOutIsDeleted: takes the rule's id to occur once, which the loader of rules enforces.
- Links.VerifySigned: claims are read back only in the form they are printed; other spellings a lenient parser would accept, and the check on the secret's strength, are not part of the model.
- Jobs.OneWorkerPerJob: waiting for a database connection or a lock counts as part of claim and settle; times are whole seconds, and retry delays are the module's own.
- Router.ModelRouter.Call: replay files, recording, prompt building and the SDK clients are inputs; the breaker's clock readings are inputs.
- RateLimit.WindowBound: arithmetic is exact, so float rounding beyond the epsilon is not part of the model.
- Tickets.OneTicketOneRun: two lock names may share a hash, which only excludes more, and a job whose two locks share one waits for itself; web, chat and voice doors start runs of other sources and have their own rules.
- Sse.StageEvents: the queue's reads and time-outs are inputs; heartbeats carry no data.
- Events.EventBus.Emit: door callbacks are left out, since a slow or failing one is isolated and changes nothing.
- Team views at handoff, evidence, constraints, receipts, billing, knowledge search, redaction and prompts decide nothing in the modelled state.
- HTTP, Slack, Teams, email, voice and MCP surfaces, and the live Freshservice, Dodo and SES connectors, are plumbing around the modelled core.
- Postgres is modelled by atomic steps, and asyncio by their interleaving.
