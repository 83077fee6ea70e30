# Verified model of wqc-node

wqc-node is a worker agent: it judges announced work, bids on it, accepts signed
dispatches, runs them one at a time, and delivers results and leaf PCS bundles
across crashes. This project models the parts of it where several functions or
processes must agree, and proves what they promise.

| component | files |
|---|---|
| admission ledger and the FIFO worker it plans for | `Ledger.dfy`, `Schedule.dfy`, `MapSums.dfy` |
| canonical JSON and float text for signing | `Decimals.dfy`, `GoFloat.dfy`, `Json.dfy`, `GoJson.dfy` |
| signed payloads | `Words.dfy`, `Bytes.dfy`, `Sorting.dfy`, `Observables.dfy`, `ObservablesJson.dfy`, `DispatchPayload.dfy`, `OpenCall.dfy` |
| announcements and bids | `Bidding.dfy` |
| task lifecycle with crashes | `Storage.dfy`, `Lifecycle.dfy`, `Durability.dfy`, `LossWindow.dfy`, `ExactlyOnce.dfy`, `Counter.dfy`, `Recovery.dfy`, `Application.dfy`, `Undisturbed.dfy` |
| leaf PCS outbox | `PcsOutbox.dfy`, `PcsCalls.dfy`, `PcsLifetime.dfy`, `PcsPrunes.dfy`, `PcsProves.dfy`, `PcsCarriers.dfy`, `PcsReproves.dfy`, `PcsNominations.dfy` |
| validation, reconnecting, memory envelope | `Validation.dfy`, `Reconnect.dfy`, `MemoryBudget.dfy` |

How to read it:

- The ledger, the database, the host loop and the application state are classes
  whose methods are tied to functions on plain values; the lemmas are about those
  functions. Loops of the original are loops here.
- The task lifecycle and the PCS outbox are state machines. One step is one
  storage, lock, channel, core or send call, so any interleaving of any number of
  handlers, the worker, the retry loops, pruning and crashes is a run. The fields
  of `Lifecycle.History` record what happened and steer nothing.
- Time is real seconds that never run backwards. Sends, core calls and the
  orchestrator's answers are free choices of the run.
- The JSON and number readers follow RFC 8259 sections 2 to 7, UTF-8 follows
  RFC 3629. They are written for this model: the original only prints.

Premises, each visible in a contract:

- `Schedule` assumes that the worker takes the next job without a pause, that no
  job runs past its share, and that whatever is accepted between a decision and
  its dispatch was counted by that decision.
- `Counter` and `LossWindow` assume that a sub-task id is accepted once
  (`Counter.Fresh`); `Durability` and `ExactlyOnce` do not.
- Storage calls succeed in `Lifecycle`; in `PcsOutbox` every storage call may fail.
- Where a lemma about the PCS outbox speaks of current reads, the writes of that one
  sub-task find the row as they read it (`PcsLifetime.Current`); current claims find
  the row with the claimed job (`PcsProves.ClaimsCurrent`). Only `PcsProves` speaks
  of current claims, which the code does not ensure; `PcsReproves` says exactly what
  happens without them. The survival lemmas and `PcsOutbox.MutualExclusion` assume
  neither.

Where an obvious claim is false the model keeps the code and states the bound:
the estimate below one millisecond (`Schedule.SchedulableFromOneMillisecond`), the
crash window (`LossWindow.LostExactlyInTheWindow`), more than 100 restored tasks
(`Recovery.RecoveryFinishesIffRowsFit`, `Recovery.SomeStartUpNeverEnds`), the budget 2^64 - 1
(`MemoryBudget.DenseWidthBrackets`), repeated ids
(`Observables.SignedTextForgetsOrderExactly`), stale writes
(`PcsLifetime.RequestSurvivesStep`), open calls over an older job
(`PcsNominations.NominationIsLostIffAnotherJobIsAround`), a bundle built twice
(`PcsReproves.BuiltAgainIffAnUnbuiltJobIsAround`), and refusals that
normalization lifts (`Validation.AcceptedExactly`).

The operations guide says that a result's outbox row is deleted on its ACK
(docs/OPERATIONS.md:149). The code deletes it after a bare stream write
(src/transport/p2p/result_delivery.rs:59); the model follows the code, so "sent"
means written to the stream. PCS bundles and bids do wait for an ACK.

## Model

| member | source | states |
|---|---|---|
| `Ledger.WorkLedger.constructor` | src/domain/work.rs:102-107 | a new ledger has announced, reserved and held nothing |
| `Ledger.WorkLedger.Queued` | src/domain/work.rs:113-137 | the loop's sum over held and reserved entries is the queue length, in whatever order a hash map yields them |
| `Ledger.WorkLedger.Decide` | src/domain/work.rs:142-167 | answer and new contents of one admission decision: refused iff queue plus own estimate passes the limit; announced entries older than six hours go only on acceptance |
| `Ledger.WorkLedger.BudgetFor` | src/domain/work.rs:170-172 | the budget announced for a parent, if any |
| `Ledger.WorkLedger.Hold` | src/domain/work.rs:176-192 | the parent's reservation ends and the sub-task is held, unstarted, with its estimate |
| `Ledger.WorkLedger.Start` | src/domain/work.rs:194-198 | only a held entry gets a start instant; nothing else changes |
| `Ledger.WorkLedger.Release` | src/domain/work.rs:200-202 | only that held entry goes |
| `Ledger.AdmittedExactly` | src/domain/work.rs:142-167 | admitted iff the counted queue, each byte and flop at its rate and the overhead stay within the margin's share of the own timeout and of the deadline; the answer carries that estimate or that total |
| `Ledger.SecondsIsTheOnlyCost` | src/domain/work.rs:47-50 | the estimate is the only cost that charges nothing for no work and each byte and flop its rate, and it adds up |
| `Ledger.GrantIsLongest` | src/domain/work.rs:62-78 | core is refused iff the deadline has passed, and otherwise gets the longest time that ends with the own timeout and with the deadline |
| `Ledger.SumValues` | src/domain/work.rs:114-129 | summing in any order gives the map's total |
| `Ledger.ReachableIsConsistent` | src/domain/work.rs:150-192 | in every reachable state each reservation has an announced budget with the same estimate and lapses 15 s after its announcement |
| `Ledger.NextKeepsConsistent` | src/domain/work.rs:150-192 | every single call keeps that invariant |
| `Ledger.HoldConserves` | src/domain/work.rs:174-192 | holding a new sub-task with its parent's live reservation leaves the queue length as it was |
| `Ledger.ReservationCountsFifteenSeconds` | src/domain/work.rs:130-167 | over any run without its dispatch, an admitted bid counts its estimate for exactly fifteen seconds |
| `Ledger.ReleaseFreesItsShare` | src/domain/work.rs:110-129 | a held sub-task counts until its release: in full while it waits or is past its estimate, for what is left while it runs |
| `Ledger.BudgetKeptSixHours` | src/domain/work.rs:157-172 | over any run of calls a budget is found for six hours unless its parent is announced again |
| `Ledger.BudgetForgottenOnAcceptance` | src/domain/work.rs:157-163 | after that it goes with the next accepted decision, and with no other call |
| `Ledger.LazyExpiryIsExact` | src/domain/work.rs:113-167 | over any run with non-decreasing time, clearing lazily answers every query like a ledger that drops each reservation at the instant it lapses |
| `Ledger.MatchingLedgersAgree` | src/domain/work.rs:113-167 | the simulation behind it, for any two ledgers that agree on what is still live |
| `Ledger.RefusalLeavesNoTrace` | src/domain/work.rs:150-156 | no later answer of any run can tell whether a refused decision was made |
| `Schedule.ApplyKeepsValid` | src/domain/work.rs:174-202 | the held entries stay exactly the queued jobs and the running one, with their estimates, over every step of ledger and worker |
| `Schedule.ReachedIsValid` | src/domain/work.rs:174-202 | so they are in every node a run from an empty one reaches |
| `Schedule.BacklogWithinHeld` | src/domain/work.rs:110-129 | the ledger never counts less than the worker still has to do |
| `Schedule.CountedBacklog` | src/domain/work.rs:130-137 | backlog plus unused reservations never grows while only counted sub-tasks are accepted |
| `Schedule.WaitingBound` | src/application/worker.rs:25-57 | a queued job starts no later than the work ahead of it, whatever is accepted behind |
| `Schedule.WaitsAtMostTheQueue` | src/domain/work.rs:110-156 | an admitted sub-task waits at most the queue counted at its admission |
| `Schedule.BudgetUnchanged` | src/domain/work.rs:157-172 | without a new announcement a parent's budget is kept or dropped, never changed |
| `Schedule.MeasuredWaitWithinAMillisecond` | src/application/worker.rs:47-51 | two clock readings cut to milliseconds overstate a wait by less than one |
| `Schedule.Schedulable` | src/domain/work.rs:62-78 | the timeout of an admitted sub-task is never `None`, covers its own estimate up to the accept's latency and one millisecond, and ends within the deadline |
| `Schedule.SchedulableFromOneMillisecond` | src/domain/work.rs:31-78 | exactly the estimates of at least one millisecond are always granted: for each smaller one a run from an empty node, with rates the node can measure, refuses a sub-task that waited exactly the counted queue |
| `GoFloat.DecimalDigitsOf` | src/domain/p2p.rs:327-345 | the text functions recover sign, core digits and first exponent of every well-formed spelling; the digits have no outer zeros |
| `GoFloat.CoreKeepsValue` | src/domain/p2p.rs:327-345 | core digits and exponent denote the same number as the text |
| `GoFloat.ReadPlain` | src/domain/p2p.rs:347-359 | the plain layout reads back as the number, whatever delimiter follows |
| `GoFloat.ReadScientific` | src/domain/p2p.rs:304-325 | the exponent layout reads back as the number, whatever delimiter follows |
| `GoFloat.FloatRoundTrip` | src/domain/p2p.rs:300-359 | the printed float, read by RFC 8259 section 6, is the number of ryu's text, signed zero included |
| `GoFloat.FloatTextCanonical` | src/domain/p2p.rs:300-359 | two floats print alike exactly when they are the same number |
| `GoFloat.LayoutExactly` | src/domain/p2p.rs:300-325 | a nonzero float has no exponent iff its first digit stands for 10^-6 to 10^20, that is from 0.000001 to below 10^21; otherwise one digit before the point, a sign, two digits if positive, no padding if negative |
| `Decimals.NormalFormUnique` | src/domain/p2p.rs:327-329 | a number has one pair of outer-zero-free digits and exponent |
| `GoJson.WriteGoJsonString` | src/domain/p2p.rs:277-298 | the character loop appends the quoted, escaped text |
| `GoJson.StringRoundTrip` | src/domain/p2p.rs:277-298 | unescaping by RFC 8259 section 7 gives every text back and stops at its closing quote |
| `GoJson.EscapesExactly` | src/domain/p2p.rs:277-298 | which characters stay, which get a two-character escape and which four lower-case hexadecimal digits |
| `GoJson.EscapedBodyIsSafe` | src/domain/p2p.rs:277-298 | the body is plain characters and escapes only: no raw quote or control character, no `<`, `>`, `&`, U+2028 or U+2029 |
| `GoJson.WriteGoJsonValue` | src/domain/p2p.rs:241-275 | the nested loops append the value's text, or report the first number that is not a float64 |
| `GoJson.WriteItems` | src/domain/p2p.rs:251-260 | an array's items, comma-separated, or the first failing number |
| `GoJson.WriteFields` | src/domain/p2p.rs:261-272 | an object's members, comma-separated, or the first failing number |
| `GoJson.ValueRoundTrip` | src/domain/p2p.rs:239-275 | for every nested value, a reader of RFC 8259 sections 2 to 7 returns exactly that value and whatever delimited text follows |
| `GoJson.SameMeaningSameText` | src/domain/p2p.rs:239-275 | values with equal float64 numbers print alike |
| `GoJson.CircuitSigningJson` | src/domain/p2p.rs:221-237 | the gate loop writes the circuit's text, or reports the first failing number |
| `GoJson.GateTextIsValueText` | src/domain/p2p.rs:228-233 | the hand-written gate text is the text of an object with `type` and `params` |
| `GoJson.CircuitRoundTrip` | src/domain/p2p.rs:221-237 | the signing text reads back as the circuit, gate by gate |
| `GoJson.CircuitTextCanonical` | src/domain/p2p.rs:221-325 | two circuits have the same signing text exactly when they are equal with numbers as float64 |
| `DispatchPayload.SerializeDispatchPayload` | src/domain/p2p.rs:161-219 | the pushes give the documented layout, or the circuit's error |
| `DispatchPayload.PayloadRoundTrip` | src/domain/p2p.rs:179-218 | from the circuit length on, the payload decodes to every field, the optional split and the optional tree |
| `DispatchPayload.SuffixRoundTrip` | src/domain/p2p.rs:205-216 | split and tree are told apart: four bytes, a brace as fifth byte, or a length's top byte below it |
| `DispatchPayload.PlainPayloadIsPrefix` | src/domain/p2p.rs:205-216 | without split and tree the payload is a prefix of the one with them |
| `DispatchPayload.SamePayloadSameWork` | src/domain/p2p.rs:161-219 | equal payloads with equal id parts mean the same circuit, numbers, observables text, site order, split and tree |
| `Bytes.Take64Of` | src/domain/p2p.rs:194-196 | eight big-endian bytes give the number back |
| `Bytes.TakeFieldOf` | src/domain/p2p.rs:180-181 | a field shorter than 2^32 bytes is read back from behind its length |
| `Bytes.Utf8Injective` | src/domain/p2p.rs:164-167 | different texts have different bytes |
| `Observables.FormatObservableSpec` | src/domain/p2p.rs:375-400 | the loops print the sorted observables, each with its sorted terms |
| `Observables.FormatObservablesWireJson` | src/domain/p2p.rs:361-373 | printing the envelope and stripping it leaves the list's text, also for the empty list |
| `Observables.ObservablesTextForgetsOrder` | src/domain/p2p.rs:362-400 | shuffling observables and terms changes nothing when ids and labels decide their entries |
| `Observables.SignedTextForgetsOrderExactly` | src/domain/p2p.rs:362-400 | for ids and labels without quotes the signed text is the same for all permutations exactly when observables that share an id print alike |
| `Observables.ObservablesTextInjective` | src/domain/p2p.rs:362-400 | for such lists equal signed texts mean equal sorted observable texts, one by one |
| `Observables.DuplicateIdsKeepTheirOrder` | src/domain/p2p.rs:376-377 | two observables with one id where the order does show |
| `ObservablesJson.ObservablesRoundTrip` | src/domain/p2p.rs:361-408 | for plain ids and labels and numeric coefficients the signed text is JSON that reads back as the observables by id, each with its terms by label |
| `Sorting.SortForgetsOrder` | src/domain/p2p.rs:376-382 | a stable sort gives one result for all permutations exactly if the key decides the element |
| `Sorting.SortIsStable` | src/domain/p2p.rs:376-382 | elements with one key keep their order |
| `Sorting.TextsForgetOrderExactly` | src/domain/p2p.rs:376-399 | the sorted texts are the same for all permutations exactly if the key decides the text |
| `OpenCall.SerializeOpenCall` | src/domain/pcs.rs:190-211 | the pushes and the loop give the fixed part and the sorted, length-prefixed builders |
| `OpenCall.RefusedRoundTrip` | src/domain/pcs.rs:202-209 | the list decodes to the sorted builders, a permutation of those given |
| `OpenCall.RefusedBytesCanonical` | src/domain/pcs.rs:202-209 | two lists give the same bytes exactly when one is a permutation of the other |
| `OpenCall.OpenCallRoundTrip` | src/domain/pcs.rs:190-211 | with the lengths of the text parts given, the bytes decode to those parts, the proof size, both instants and the builders |
| `Bidding.PayloadV1Fixes` | src/domain/p2p.rs:86-96 | the v1 payload determines every v1 field |
| `Bidding.PayloadV2Fixes` | src/domain/p2p.rs:98-107 | the v2 payload determines the whole announcement |
| `Bidding.SerializeAnnouncement` | src/domain/p2p.rs:86-96 | the pushes give the v1 payload |
| `Bidding.SerializeAnnouncementV2` | src/domain/p2p.rs:98-107 | the pushes give the v2 payload, and none without work or deadline |
| `Bidding.AnnouncementRoundTrip` | src/domain/p2p.rs:86-107 | behind the task id the signed bytes decode, in order, to the five numbers, the deadline and the work |
| `Bidding.VerifiedExactly` | src/domain/p2p.rs:119-150 | accepted iff the signature over what is used checks: v2 with work and deadline, or v1 with neither work nor bit 4 |
| `Bidding.FeaturesFromGates` | src/domain/features.rs:13-34 | the loop collects exactly the features of the listed gates |
| `Bidding.WorkBitNeedsRates` | src/domain/features.rs:36-49 | a requirement is met iff the gates meet it without bit 4 and bit 4, when asked, comes from rates |
| `Bidding.SendBid` | src/transport/p2p/bid_client.rs:94-127 | at most three attempts, stopping at the first acknowledged one |
| `Bidding.SubmitBid` | src/transport/p2p/bid_client.rs:34-135 | skipped exactly when the node is not willing; the ledger changes only by the decision; sent iff willing, mined and acknowledged |
| `Bidding.WillingExactly` | src/transport/p2p/bid_client.rs:39-77 | the node gets to sending iff it has ten qubits, offers something and every required bit, and judged work fits margin, timeout and announced deadline; stated on the announcement's and the node's own fields |
| `Bidding.WorkIsBidOnOnlyIfAdmitted` | src/transport/p2p/bid_client.rs:49-77 | work announced under bit 4 is bid on only after the ledger admitted it, with its reservation on record |
| `Bidding.VerifiedWorkIsBidOnOnlyIfAdmitted` | src/domain/p2p.rs:119-150 | what an accepted announcement makes the node bid on is work under a checked v2 signature that the ledger has admitted |
| `Storage.Database.constructor` | src/infra/storage.rs:30-94 | a new file starts with empty tables, an existing one keeps its rows |
| `Storage.Database.Save` | src/infra/storage.rs:96-106 | inserts a pending row, or is refused by the UNIQUE key and changes nothing |
| `Storage.Database.SetStatus` | src/infra/storage.rs:125-137 | changes one row's status and no other row |
| `Storage.Database.Prune` | src/infra/storage.rs:159-176 | a row goes iff it is terminal, older than the cutoff and without an outbox row; the others stay as they are, and the deleted are counted |
| `Storage.Database.UpsertPendingResult` | src/infra/storage.rs:202-220 | replaces wire and attempts, keeps the row id |
| `Storage.Database.DeletePendingResult` | src/infra/storage.rs:222-233 | deletes that row only |
| `Storage.Database.CountResultAttempt` | src/infra/storage.rs:265-272 | counts an attempt on the rows with that row id |
| `Storage.Database.UpsertPendingPcs` | src/infra/storage.rs:274-294 | a second insert keeps creation time and row id |
| `Storage.Database.DeletePendingPcs` | src/infra/storage.rs:296-307 | deletes that row only |
| `Storage.CountAttemptTouchesOneRow` | src/infra/storage.rs:265-272 | as row ids are handed out once, one row counts the attempt |
| `Durability.EveryRunIsDurable` | src/application/worker.rs:95-116 | over every interleaving with crashes anywhere, each accepted task is pending, in the outbox, sent, in the worker's window, or was there at a crash |
| `Durability.StepKeepsDurable` | src/application/result_outbox.rs:11-88 | every storage call, send, prune, retry, crash and recovery step keeps that invariant |
| `Durability.NoLossOutsideTheWindow` | src/application/worker.rs:105-116 | without a crash in that window no accepted task is ever lost |
| `LossWindow.LostExactlyInTheWindow` | src/application/worker.rs:105-116 | if ids are accepted once, an accepted task is lost for good exactly if a crash caught it between status update and outbox write |
| `LossWindow.CrashLosesTheWindow` | src/application/result_outbox.rs:19-23 | a crash loses a task exactly if it is in the window at that instant |
| `LossWindow.SomeRunLosesATask` | src/application/worker.rs:105-116 | a run that gets into the window and loses its task there |
| `LossWindow.RunKeepsAllWell` | src/infra/storage.rs:96-233 | the joint invariant: early tasks have pending rows and no stored result, stored ones are terminal |
| `ExactlyOnce.ExactlyOneHandlerAccepts` | src/application/accept_task.rs:108-155 | any number of racing handlers insert one row and enqueue it at most once, unless the row is pruned; the others answer Duplicate iff the stored task is theirs but for budget and accept time |
| `ExactlyOnce.StepKeepsOnce` | src/application/accept_task.rs:123-136 | one insert and one owner survive every step of every process |
| `ExactlyOnce.RedispatchIsIdempotent` | src/application/accept_task.rs:108-121 | a whole repeated dispatch leaves nothing behind but its answer, Duplicate iff the stored task is the same but for budget and accept time |
| `Counter.CounterMatchesLedger` | src/application/accept_task.rs:138-153 | if ids are accepted once, the counter is the number of counted tasks, never underflows, and differs from the held entries only by tasks inside a two-step gap or being restored |
| `Counter.QuietCounterIsHeld` | src/application/worker.rs:118-119 | with no process in a gap the counter is the number of held entries |
| `Counter.StepKeepsAccounted` | src/main.rs:77-100 | each live task is in one place, counted and held as its place says, through every step including crash and recovery |
| `Recovery.RecoveryFinishesIffRowsFit` | src/main.rs:77-105 | some run, of whatever steps, crashes and restarts, brings the node up exactly if at most 100 rows are pending |
| `Recovery.SomeStartUpNeverEnds` | src/application/accept_task.rs:123-154 | a run from the start, with more inserts than the channel has slots and then a crash, ends in a node that never comes up again |
| `Recovery.AnyNumberOfRowsIsReached` | src/application/accept_task.rs:123-154 | handlers insert before they queue, so a crash can leave any number of pending rows |
| `Recovery.QueueNeverOverflows` | src/main.rs:77-100 | over every run at most a hundred tasks are in the channel |
| `Recovery.RecoveryRestoresEverything` | src/main.rs:92-100 | a finished recovery has queued and held every pending row, oldest first, and counts them |
| `Application.Admit` | src/application/accept_task.rs:80-98 | the limit by output mode, validation, normalization: an admitted circuit is normalized and still valid, a refused one untouched |
| `Application.AppState.AcceptTask` | src/application/accept_task.rs:108-156 | the four answers of an undisturbed dispatch, Duplicate iff the stored task is the same but for budget and accept time, and everything each leaves behind, the whole ledger included |
| `Application.AppState.DeliverResult` | src/application/result_outbox.rs:11-88 | outbox row, status, send, and the row's deletion only after a send; sent iff there is a wire body and the send succeeds |
| `Application.AppState.ProcessTask` | src/application/worker.rs:37-121 | one task from start to release, with core asked only inside the deadline: counter, ledger and tables |
| `Application.CoreIsAskedWithinTheDeadline` | src/application/worker.rs:47-63 | by the two clock readings: core's answer is used iff there is no budget or its deadline has not passed, else the failure spells the whole seconds waited |
| `Application.WaitIsMeasured` | src/application/worker.rs:47-51 | that wait is the one the plan is made with: both clocks cut to milliseconds |
| `Application.ProcessedTaskIsAccountedFor` | src/application/worker.rs:95-121 | a processed task is terminal and its result is sent or in the outbox with the right wire body; no other row changes |
| `Application.WireBodyExactly` | src/transport/p2p/result_delivery.rs:7-40 | a wire body needs a success with both parts or a failure, whose reason defaults; the error names the missing part |
| `Application.RetryRound` | src/application/result_outbox.rs:106-179 | a round over the listed rows removes the delivered ones and counts one attempt on each other |
| `Undisturbed.DispatchAlone` | src/application/accept_task.rs:108-156 | the state machine's handler, stepped alone, leaves exactly what `AcceptTask` leaves for a new task, with the worker there or gone |
| `Undisturbed.WorkAlone` | src/application/worker.rs:37-121 | its worker, stepped alone, leaves what `ProcessTask` leaves: tables, counter and ledger |
| `Undisturbed.RoundAlone` | src/application/result_outbox.rs:106-179 | its retry loop, stepped alone, leaves what `RetryRound` leaves, and rests |
| `PcsOutbox.MutualExclusion` | src/application/pcs_outbox.rs:79-87 | under every interleaving of the four entry points, with failing calls and crashes: one process per sub-task between claim and release, the in-flight set is exactly theirs, and each works on a requested job |
| `PcsOutbox.MutualExclusionFromStart` | src/application/pcs_outbox.rs:71-87 | so it is in every state a run from the start reaches |
| `PcsOutbox.OnlyTheClaimantReleases` | src/application/pcs_outbox.rs:84-87 | an id leaves the in-flight set only by its own claimant, or in a crash |
| `PcsOutbox.EveryExitReleases` | src/application/pcs_outbox.rs:338-432 | whatever storage, core and sends answer, a claimant reaches its release in a bounded number of its own steps |
| `PcsCalls.RetainAlone` | src/application/pcs_outbox.rs:95-143 | an undisturbed retain, with each storage answer: request, bundle and open call of the row are kept, and what is requested goes on to its claim |
| `PcsCalls.RequestAlone` | src/application/pcs_outbox.rs:147-222 | an undisturbed request that finds its row marks it, unless it is marked, and goes on to its claim |
| `PcsCalls.RequestGivesUpAfterTenLooks` | src/application/pcs_outbox.rs:157-198 | a request that finds no row looks ten times and changes nothing |
| `PcsCalls.OpenCallAlone` | src/application/pcs_outbox.rs:224-288 | an open call is stored for the announced leaf proof only, which must be named, and goes on to its claim |
| `PcsCalls.PrepareAlone` | src/application/pcs_outbox.rs:338-411 | from a free claim, for every answer of core and storage: cached or built and cached bundle to be sent, refusal to be sent, deferral, or failure |
| `PcsCalls.SendAlone` | src/application/pcs_outbox.rs:413-428 | for every answer: the row goes iff send and delete succeed, with the announced open call after a refusal or for an open-call job; else the attempt failed |
| `PcsCalls.ReleaseAlone` | src/application/pcs_outbox.rs:430-432 | the release frees the id; the retry loop alone counts a failed attempt, and turns to its next entry |
| `PcsPrunes.OnlyAgedRowsArePruned` | src/application/pcs_outbox.rs:529-558 | over every run: the row a prune takes is one a round had listed, unrequested and at least as old as the limit |
| `PcsPrunes.EveryAgedRowIsPruned` | src/application/pcs_outbox.rs:515-558 | a round that ends without a crash has come to the prune of every row that was unrequested and old enough when it began |
| `PcsPrunes.EveryRoundEnds` | src/application/pcs_outbox.rs:515-611 | each own step, whatever the calls answer, brings a round closer to its end |
| `PcsPrunes.NotingCountsOneAttempt` | src/application/pcs_outbox.rs:594-608 | a counted attempt changes one number in the row that was listed, and nothing if that is gone |
| `PcsLifetime.GoodSurvivesStep` | src/application/pcs_outbox.rs:106-125 | whatever is asked of a job, a step leaves it in its row exactly if it neither writes a job without it, nor prunes the row, nor deletes it after a send; row id and creation time never change |
| `PcsLifetime.RequestSurvivesStep` | src/application/pcs_outbox.rs:106-125 | a request survives a step exactly if it is no stale retain, no prune of the row and no deletion after a send |
| `PcsLifetime.RequestSurvivesRun` | src/application/pcs_outbox.rs:543-558 | over a whole run a request stays exactly if none of these three ever hits it |
| `PcsLifetime.GoodUntilAcknowledged` | src/application/pcs_outbox.rs:399-432 | what is not overridden stays in its row until a send is acknowledged during the run, or its delete was already ahead |
| `PcsLifetime.RequestedUntilAcknowledged` | src/application/pcs_outbox.rs:200-213 | with current reads a request stays, in the same row, until a bundle or refusal is acknowledged from then on |
| `PcsLifetime.BundleUntilAcknowledged` | src/application/pcs_outbox.rs:399-417 | with current reads so does a cached bundle, unless an open call overwrites the job |
| `PcsProves.NoSecondProve` | src/application/pcs_outbox.rs:349-404 | with current reads and claims two proves of one id are separated by an open-call overwrite, a failed cache write, a crash before the cache write, or a deletion of the row |
| `PcsProves.ProverHasItsRow` | src/application/pcs_outbox.rs:349-397 | with current reads and claims whoever proves has a requested row without a bundle in the table |
| `PcsReproves.BuiltAgainIffAnUnbuiltJobIsAround` | src/application/pcs_outbox.rs:349-404 | with current reads alone: what has been built can, in every reachable state, be built again without such an event exactly if its row does not hold the bundle or a job without it is about to be proved, at its claim, or in the retry loop's list |
| `PcsCarriers.NoNewWaiter` | src/application/pcs_outbox.rs:515-566 | while a row is good, no step with a current write brings a bad job of that id to a claim or into the retry loop's list |
| `PcsCarriers.WaiterBuilds` | src/application/pcs_outbox.rs:337-350 | whatever job waits at a claim or in the retry loop's list, some run of failing calls lets the lock holder out and brings that job to be built |
| `PcsNominations.NominationSurvivesStep` | src/application/pcs_outbox.rs:252-286 | a nomination survives a step with a current write exactly if it is not dropped by another job, superseded by a later open call, or served |
| `PcsNominations.NominationIsLostIffAnotherJobIsAround` | src/application/pcs_outbox.rs:252-286 | with current reads, and in every reachable state: a nomination can be lost unserved exactly while another job of that sub-task is being worked on short of its release, stands at its claim, or is an entry the retry loop has still to look at |
| `PcsNominations.SomeNominationIsThreatened` | src/application/pcs_outbox.rs:252-286 | a run from the start in which an open call overwrites a job being built |
| `PcsNominations.SomeNominationIsThreatenedFromAClaim` | src/application/pcs_outbox.rs:252-286 | a run from the start in which the older job only stands at its claim |
| `PcsLifetime.StaleRetainRevertsRequest` | src/application/pcs_outbox.rs:106-125 | a run from the start in which a retain written over its stale read takes a request back |
| `Validation.ValidateCircuitLogic` | src/domain/validation.rs:29-38 | accepts iff every gate is accepted, and otherwise reports the first failure |
| `Validation.NormalizeGateParams` | src/domain/validation.rs:4-27 | every gate of the array is normalized in place |
| `Validation.AcceptedExactly` | src/domain/validation.rs:10-66 | a gate is accepted exactly if its normal form is and it was not wrapped once too often: acceptance survives normalization at any IF depth, and only rewrapped gates are repaired |
| `Validation.CircuitAcceptedExactly` | src/domain/validation.rs:4-38 | the same for circuits |
| `Validation.NestedIsUnwrapped` | src/domain/validation.rs:4-27 | at any IF depth the innermost params are unwrapped once, if they are a one-element array, and nothing around them changes |
| `Validation.OnlyNestedParamsChange` | src/domain/validation.rs:4-27 | every other member of an object and of the gate in it keeps its name, place and value |
| `Validation.NormalizationCanRepair` | src/domain/validation.rs:10-16 | a refused rotation and a refused IF whose normal forms are accepted |
| `Validation.AcceptedMeansInRange` | src/domain/validation.rs:40-138 | accepted iff the IF nesting is well formed, all kinds are supported, and every qubit of the innermost gate is below the count |
| `Validation.AnglesOnlyForRotations` | src/domain/validation.rs:98-140 | a second parameter that is no qubit index is accepted exactly for RX, RY and RZ |
| `Validation.CheckMeansGoodPaths` | src/domain/validation.rs:111-131 | the recursive check accepts iff every number and every `qubit` field at the end of an array path is in range |
| `Reconnect.HostLoop.constructor` | src/transport/p2p/host.rs:272-282 | a redial is due from the start |
| `Reconnect.HostLoop.ScheduleRedial` | src/transport/p2p/host.rs:124-132 | the timer is set to the attempt's delay |
| `Reconnect.HostLoop.EnsureSubscription` | src/transport/p2p/host.rs:69-106 | one forced resubscribe per reconnect, none for a second transport |
| `Reconnect.HostLoop.HandleEvent` | src/transport/p2p/host.rs:290-436 | what each event leaves in the loop's variables |
| `Reconnect.DelayIsCappedPower` | src/transport/p2p/host.rs:31-38 | the delay is min(2^attempt, 60) s for every attempt number |
| `Reconnect.NthRedialWaitsTwoToTheN` | src/transport/p2p/host.rs:301-322 | in every run from the start the timer, after n redials since the last connection, is set to 2^n seconds or a minute |
| `Reconnect.OneConnectionComesAndGoes` | src/transport/p2p/host.rs:398-433 | one run with redials, two transports and their end, event by event |
| `Reconnect.EveryRunIsSound` | src/transport/p2p/host.rs:290-436 | disconnected means a redial is scheduled, live means connected and subscribed, and delays only grow between connections, over every event sequence |
| `Reconnect.EveryRunFromStartIsSound` | src/transport/p2p/host.rs:272-324 | so it is in every state the loop can reach from its start |
| `Reconnect.NoCutWhileLive` | src/transport/p2p/host.rs:62-106 | no unsubscribe while the flag stays live |
| `Reconnect.LiveEndsWithTheLastTransport` | src/transport/p2p/host.rs:411-422 | the flag goes down exactly with the last transport |
| `MemoryBudget.MaxQubitsFromDense` | src/memory_budget.rs:72-82 | the counting loop returns 0 below one amplitude and otherwise the bracketed width |
| `MemoryBudget.DenseWidthBrackets` | src/memory_budget.rs:72-82 | the loop's width fits and one more qubit does not, exactly for budgets below 2^64 - 1 |
| `MemoryBudget.DenseWidthGrows` | src/memory_budget.rs:72-82 | a larger budget never advertises fewer qubits |
| `MemoryBudget.MpsWidthFits` | src/memory_budget.rs:59-70 | the MPS width fits, is the widest below the 32-bit cap, and is monotone |
| `MemoryBudget.CapKeepsReserve` | src/memory_budget.rs:34-57 | the host cap leaves the reserve free and never reaches the budget the loop gets wrong |
| `MemoryBudget.HostKeepsItsReserve` | src/memory_budget.rs:34-57 | two GiB stay free from sixteen on, one below, and a budget is never under one GiB |
| `MemoryBudget.BudgetIsLargest` | src/memory_budget.rs:84-92 | the effective budget is the largest number of bytes within the host cap and the request |
| `MemoryBudget.AdapterKeepsItsReserve` | src/memory_budget.rs:114-122 | VRAM counts but for one GiB, and never below one amplitude |
| `MemoryBudget.AdvertisedWidthsFit` | src/memory_budget.rs:84-134 | for every request, host and adapter both advertised widths fit request, cap and usable VRAM, and each is the widest that fits the smallest |

## Left out

- Schedule.Schedulable: the time between reading the clock and holding the sub-task is a premise (`acceptedAt`), because the code reads the clock before its storage calls.
- DispatchPayload.PayloadRoundTrip: makes no claim about the id fields and slice assignments before the circuit length, because they carry no length prefixes; `noise_model` is not in the payload.
- DispatchPayload.SerializeDispatchPayload: takes the contraction tree as its own JSON text; serde_json's marshalling of it, which cannot fail for this type, is not modelled.
- ExactlyOnce.ExactlyOneHandlerAccepts: one orchestrator key, so rows and held entries are named by the sub-task id alone; the ledger's held map ignores the key in the code too.
- Observables.SignedTextForgetsOrderExactly: for ids or labels with quotes only the half that deciding keys suffice is proved; such texts are no JSON, and different lists can print alike.
- Validation.NormalizeGateParams: the array of gates is updated in place, the nested JSON inside a gate is rewritten as a value.
- Application.AppState.AcceptTask: one undisturbed call; the interleavings are in `ExactlyOnce` and `Counter`.
- f64 rounding in the ledger and in the memory envelope: exact reals stand for it. The 1e-6 and 1e21 bounds of the float layout are compared with the exact decimal.
- Overflow of the i32 exponent sum in `decimal_digits`: only texts no ryu output has could reach it.
- ryu, serde_json parsing, SHA-256, Ed25519, base64: library code. ryu's text is the input of the float printer; a signature check is any function.
- `format_go_float` for observable coefficients: Rust's own float display; coefficients come as text.
- `TnRates::from_sysinfo`: bounds on measured rates.
- Matching of error messages in the PCS outbox: the error kinds are a choice of the run. Corrupt stored jobs are not modelled.
- HTTP to core, CAS download, libp2p streams and gossip, GeoIP, bootstrap discovery, environment parsing, token amounts, HKDF, lottery mining, metrics and the banner.
- The PCS request and bid payloads: fixed concatenations without length prefixes.
- The prune loop's and retry loops' timing: they may run at any time.
