# Tenant exit: a verified model

This project models two backends that wind up a tenancy, and proves what they promise. The property service
(`runs/A2`) takes an exit from the tenant's draft through inspection, damage review and settlement to a payout
at an external provider and a certificate. The escrow service (`runs/A1`) does the same with immutable damage
reports and two payment legs through a gateway. Both write their certificate as a PDF file by hand, relay events
from an outbox, and rest on a few small algorithms.

Each service that works by changing fields is a class whose methods realise a function on values; the
properties are lemmas about those functions, over every run of requests and every interleaving of steps. Amounts
are whole fils; times are integers, or exact reals where the source uses floats; a byte is written as the
character with its code. `dafny verify dfyconfig.toml` checks everything.

| modules | what they hold |
|---|---|
| `Outcomes`, `Texts`, `Decimals` | results and refusals, whitespace, decimal numerals |
| `ExitStates`, `ExitCase`, `ExitInvariants`, `ExitServices` | the property service's exit: table, commands, invariant, services in place |
| `ExitTheorems`, `ExitCharges`, `ExitChoices` | its theorems: runs and figures, what is charged, who may do what and what the parties choose |
| `InspectionSlots` | its appointment windows |
| `PayoutProtocol`, `PayoutSafety`, `PayoutReturns`, `PayoutLimits` | the payout protocol with its provider, safety, returned payouts, exact limits |
| `PayoutCompletion`, `PayoutHooks`, `PayoutReturnRuns`, `PayoutSweep`, `PayoutServices` | which payments can complete, post-commit hooks, returns and late reports, the sweep for stuck payouts, the imperative parts |
| `EscrowCase`, `EscrowSafety`, `EscrowFigures`, `EscrowSuperseded`, `EscrowServices` | the escrow service's exit, its figures and conditions, and what becomes of superseded figures |
| `PdfFile`, `PdfWriters`, `PdfStrings` | file format and reader, the two writers, literal strings (ISO 32000-1:2008, sections 7.3.4.2, 7.5.4, 7.5.5) |
| `LineWrap`, `PropertyWrap`, `WholeWords` | word wrap of both services, and what both leave whole |
| `PageLayout`, `PageGeometry` | pagination of the escrow certificate, its heights and distances |
| `Outbox`, `Relay`, `RelayDrainAll` | event relays of the two services, and when "drain all" drains everything |
| `RateLimit`, `KeysetPaging`, `Idempotency`, `Money` | sliding-window limiter, cursor paging, idempotency keys, rounding and display of money |

## What the provider and the database are assumed to do

The payout results hold for a provider that answers a known key with the original payout or a retryable error,
registers nothing when it answers with a non-retryable error, never revives a failed payout, and tells the state a
payout has when its word arrives, or that it is in flight (`Honest`, `Possible`). It may return a payout that had
succeeded, at any time. `ExactIffUnderstood` shows which status words such a provider may use and what a return costs;
`LateSuccessIff` shows what a success report costs that arrives after the return. A request runs under a row lock and
commits or rolls back as a whole; the unique indexes on the provider key and on (key, endpoint) hold.

## Where the code and its own words differ

The model follows the code. Each difference is a lemma.

- "Payout failed; owner may retry" (`runs/A2/app/domain/state_machine.py:144`): a retry reuses the bound key and finds
  the failed payout again (`CompletableIff`, `RetryInVain`).
- The webhook knows "RETURNED" and "REVERSED" as failures (`runs/A2/app/api/v1/webhooks.py:23`) and answers "failed" to
  them, but nothing about a paid settlement changes: it stays paid and certified with nothing moved (`StillMovedIff`,
  `ReturnedAfterPaid`).
- A sweep for stuck payouts takes fifty in no stated order and can miss any of more (`SweepReachesIff`,
  `StarvationReached`).
- The webhook takes "SETTLED" for a success, the gateway takes it for a rejection (`SettledIsNotUnderstood`).
- Re-proposing windows is said to keep parties from choosing a stale slot (`runs/A2/app/services/inspection.py:168`); a
  re-inspection leaves the old windows on offer (`StaleOfferIff`, `StaleBookingIff`, `StaleBookingReached`).
- "Void the settlement drafted from the superseded report before re-inspecting"
  (`runs/A1/app/services/inspection_service.py:501`): a plain request for a visit during review voids nothing, and a
  dispute after the repeated visit brings the figures back either way (`SupersededIff`, `VoidIff`,
  `SupersededPayableReached`).
- The report's "replaces the previous assessment" loop and the escrow settlement's "no longer editable" refusal are never
  reached (`ReportsNeverReplace`, `ReportAcceptedIff`); nor is the wrapper's empty-result fallback (`WrapNeverEmpty`).
- The escrow wrapper does not return for a column of negative width (`SplitStopsIff`); the property wrapper leaves
  an over-wide word whole when it follows another (`LinesFitIff`).
- Carriage returns are not escaped and read back as line feeds (`LiteralExactIff`).
- "Drain all" stops with the first batch that holds a failed delivery (`DrainAllTriesIff`, `DrainAllClearsIff`,
  `UntriedRowLeft`).
- The idempotency endpoint is a path template without the workflow's identifier, so the same key and body sent for
  another exit is answered with the first exit's response (`AnsweredForAnotherIff`, `AnotherExitsResponse`); clients
  that keep keys apart are safe (`KeysApartOwnAnswers`).

## Model

| member | source | states |
|---|---|---|
| `ExitServices.ExitRecord.Transition` | runs/A2/app/services/workflow_engine.py:99-201 | realises the one move every service goes through: closed cases and missing edges are refused, the row is appended, the closing time is stamped exactly on entering a terminal state; a refusal changes nothing |
| `ExitServices.ExitRecord.OwnerApprove` | runs/A2/app/services/exit_workflow.py:341-388 | owner approval, with an optional corrected deposit that only owner or administrator may give, opens the inspection once |
| `ExitServices.ExitRecord.CompleteWorkflow` | runs/A2/app/services/exit_workflow.py:427-466 | completion is accepted only once the certificate is out |
| `ExitServices.ExitRecord.SubmitReport` | runs/A2/app/services/inspection.py:314-402 | a report replaces the items of its own round only, totals its estimates, and opens the review in the same transaction |
| `ExitServices.DropRound` | runs/A2/app/services/inspection.py:345-349 | removing the items of a round in place keeps all others, in order |
| `ExitServices.ExitRecord.AddItems` | runs/A2/app/services/inspection.py:351-375 | reported items get fresh identifiers in report order and the total is the sum of their estimates |
| `ExitServices.ExitRecord.AdjustDamageItem` | runs/A2/app/services/inspection.py:434-507 | an approved cost above the estimate is refused; nothing else of the item changes |
| `ExitServices.ExitRecord.RaiseDispute` | runs/A2/app/services/inspection.py:509-578 | a dispute needs the review open, the window not over, and an item never disputed before |
| `ExitServices.ExitRecord.ResolveDispute` | runs/A2/app/services/inspection.py:580-653 | a raised dispute is upheld, with a charge within the estimate, or rejected; once |
| `ExitServices.ExitRecord.OrderReinspection` | runs/A2/app/services/inspection.py:655-709 | a new round starts, the report is no longer current and the review is closed |
| `ExitServices.ExitRecord.CollectLines` | runs/A2/app/services/settlement.py:492-513 | the lines are exactly the chargeable items of the current round, in item order |
| `ExitServices.ExitRecord.FinaliseSettlement` | runs/A2/app/services/settlement.py:142-271 | freezes collected and manual lines, their sum and the split; refuses without a report, with an open dispute, with an unexpected refund, or when the row is no longer editable |
| `ExitServices.ExitRecord.ReopenDamageReview` | runs/A2/app/services/settlement.py:273-296 | only figures awaiting approval can be reopened; they become a draft again |
| `ExitServices.ExitRecord.PayDeposit` | runs/A2/app/services/settlement.py:298-390 | binds the provider key on the first attempt only, counts the attempt, and either starts the transfer and asks for its dispatch after the commit or, with nothing to refund, completes and certifies at once |
| `ExitServices.ExitRecord.ConfirmSettlement` | runs/A2/app/services/settlement.py:392-446 | a success is recorded once; a repeated one changes nothing; the certificate is issued in the same transaction |
| `ExitServices.ExitRecord.FailSettlement` | runs/A2/app/services/settlement.py:448-489 | a failure returns the settlement to the owner exactly while it is processing |
| `ExitServices.ExitRecord.IssueCertificate` | runs/A2/app/services/noc.py:57-172 | an existing certificate is kept; otherwise one is issued only from a completed settlement |
| `ExitServices.ExitRecord.RevokeCertificate` | runs/A2/app/services/noc.py:265-298 | revocation, by an administrator only, touches the certificate and nothing else |
| `ExitServices.ExitRecord.HandleRequest` | runs/A2/app/api/deps.py:47-64 | one request is one transaction: it realises the whole command or, on any refusal, restores every field; the invariant of committed cases is kept either way; a dispatch is asked for exactly by an accepted payment with something to transfer |
| `ExitInvariants.RunKeeps` | runs/A2/app/services/settlement.py:142-489 | every committed case of every run satisfies the case invariant |
| `ExitInvariants.FinaliseKeeps` | runs/A2/app/services/settlement.py:142-271 | finalising freezes figures that agree with a recomputation |
| `ExitInvariants.ConfirmKeeps` | runs/A2/app/services/settlement.py:392-446 | recording a success, from whatever state it arrives in, keeps state, settlement and certificate coupled |
| `ExitInvariants.PayKeeps` | runs/A2/app/services/settlement.py:298-390 | paying keeps the coupling, on the transfer and on the offset path |
| `ExitTheorems.CoupledInEveryRun` | runs/A2/app/services/settlement.py:193-489 | in every committed state of every run: pending iff awaiting approval, processing iff under payment, certified iff paid iff a certificate exists, otherwise a draft or nothing; the two intermediate states are never committed |
| `ExitTheorems.FrozenFiguresAgree` | runs/A2/app/services/settlement.py:150-240 | from pending on, no dispute of any round is open, the frozen lines start with exactly those a recomputation gives now, their sum is within the assessed total, and refund less liability is deposit less deductions with one of them zero |
| `ExitCharges.FinaliseCharges` | runs/A2/app/services/settlement.py:150-240 | an accepted finalisation charges, in item order, exactly the liable items of the current round with a non-zero amount, for the approved cost or else the estimate, then the manual charges; refund less liability is the deposit less all of them |
| `ExitCharges.ChargesInEveryRun` | runs/A2/app/services/settlement.py:492-513 | in every run, from pending on, that is what the frozen lines charge |
| `ExitCharges.FinaliseAcceptedIff` | runs/A2/app/services/settlement.py:150-240 | accepted exactly for owner or administrator, during the review, with no dispute of any round open, amounts in range and the expected refund, if one is given, right |
| `ExitCharges.ManualCounts` | runs/A2/app/services/settlement.py:150-240 | a manual charge of x raises the deductions by exactly x |
| `ExitCharges.AdjustMoves` | runs/A2/app/models/inspection.py:211-222 | an accepted adjustment moves what is collected by exactly the change of its item: setting the cost of a liable item of the round to x moves it by x less the former amount |
| `ExitCharges.ResolveMoves` | runs/A2/app/models/inspection.py:211-222 | an upheld dispute makes its item count for the resolved charge, or nothing when none is given; a rejected one changes nothing |
| `ExitCharges.WithoutRoundExact` | runs/A2/app/services/inspection.py:345-349 | removing the items of a round removes just those and keeps the order of the others |
| `ExitCharges.NothingAssessed` | runs/A2/app/services/inspection.py:351-402 | a report without entries assesses nothing |
| `ExitCharges.EntryCounts` | runs/A2/app/services/inspection.py:351-402 | one more entry in a report raises the assessed total by exactly its estimate |
| `ExitChoices.MoveAcceptedIff` | runs/A2/app/domain/state_machine.py:46-169 | requests that only move the exit are accepted exactly in these states and for these roles |
| `ExitChoices.ReportAcceptedIff` | runs/A2/app/services/inspection.py:314-345 | a report is accepted exactly for a booked visit that lies in the past, from agency or administrator |
| `ExitChoices.AdjustAcceptedIff` | runs/A2/app/services/inspection.py:434-507 | an item can be adjusted exactly during the review, by owner or administrator, to a cost within the estimate |
| `ExitChoices.DisputeAcceptedIff` | runs/A2/app/services/inspection.py:509-578 | an item can be disputed exactly during the review, by tenant or administrator, once, within five days of the report |
| `ExitChoices.DisputeOpens` | runs/A2/app/services/inspection.py:509-578 | an accepted dispute opens one and changes nothing else |
| `ExitChoices.ResolutionCloses` | runs/A2/app/services/inspection.py:580-653 | a resolution closes it as upheld, with a charge, or as rejected, with everything as it was |
| `ExitChoices.AdjustmentChanges` | runs/A2/app/services/inspection.py:434-507 | an adjustment changes cost and liability where they are given, and nothing else |
| `ExitChoices.ReportedItems` | runs/A2/app/services/inspection.py:351-375 | a reported item starts undisputed, without approved cost, as described, behind the items there were |
| `ExitChoices.ReinspectionStarts` | runs/A2/app/services/inspection.py:655-709 | a re-inspection starts the next round without a report and keeps all items |
| `ExitChoices.NoItemRefused` | runs/A2/app/services/inspection.py:434-653 | nothing can be done to an item there is none of |
| `ExitChoices.ResolveAcceptedIff` | runs/A2/app/services/inspection.py:580-653 | a dispute can be resolved exactly while raised, by owner or administrator, to a charge within the estimate |
| `ExitChoices.PayAcceptedIff` | runs/A2/app/services/settlement.py:298-345 | figures awaiting it are paid exactly by owner or administrator, by transfer if there is something to refund and by offset if not |
| `ExitChoices.ChoicesStep` | runs/A2/app/services/exit_workflow.py:341-388 | only an accepted approval with a corrected deposit changes the deposit, to just that, and only an accepted payment binds a key |
| `ExitChoices.KeyOfFirstPayment` | runs/A2/app/services/settlement.py:334-345 | after every run the provider key is the one the first accepted payment asked for, or the default, whatever later payments asked for |
| `ExitChoices.RequestStamps` | runs/A2/app/services/inspection.py:377-402 | the closing time is that of the request that ended the exit; the dispute window opens with the report and is withdrawn by a re-inspection |
| `ExitTheorems.HistoryReplays` | runs/A2/app/services/workflow_engine.py:99-201 | replaying the recorded rows from the draft yields the current state; the closing time is set iff the state is terminal |
| `ExitTheorems.CompletedPassedMilestones` | runs/A2/app/domain/state_machine.py:46-169 | a completed exit contains the eleven prescribed actions in order as a subsequence of its history, whatever loops it took |
| `ExitTheorems.TerminalForever` | runs/A2/app/domain/state_machine.py:192-215 | once terminal, no run of requests or outcomes changes anything but the certificate's revocation |
| `ExitTheorems.PreviewPredictsFinalise` | runs/A2/app/services/settlement.py:102-136 | the preview says "can finalise" iff finalising without manual charges succeeds, and then the figures are the previewed ones |
| `ExitTheorems.ReportsNeverReplace` | runs/A2/app/services/inspection.py:345-349 | in every run a report finds no earlier items of its round: the replacement loop never removes anything |
| `ExitTheorems.ItemsEvolveOverRuns` | runs/A2/app/services/inspection.py:314-653 | over every run items are never dropped, estimates never change, and a resolved dispute stays resolved |
| `ExitTheorems.CountersMatchHistory` | runs/A2/app/services/settlement.py:334-345 | the payment counter and the round number equal the number of payments and re-inspections in the history |
| `ExitStates.EdgeProgress` | runs/A2/app/domain/state_machine.py:46-169 | along every edge the milestones passed either shrink to a prefix or grow by exactly the action taken |
| `ExitStates.MilestonesStep` | runs/A2/app/domain/state_machine.py:46-169 | appending a legal row keeps the milestones of the new state embedded in the history |
| `InspectionSlots.SlotBook.ProposeWindows` | runs/A2/app/services/inspection.py:149-226 | a proposal with only future windows replaces the whole earlier offer and drops the appointment |
| `InspectionSlots.SlotBook.SelectWindow` | runs/A2/app/services/inspection.py:228-285 | selecting a future slot makes it the only selected one and the appointment |
| `InspectionSlots.SlotBook.ClearSelection` | runs/A2/app/repositories/support.py:112-120 | every slot is unselected, nothing else changes |
| `InspectionSlots.SlotBook.DeleteUnselected` | runs/A2/app/repositories/support.py:122-128 | exactly the selected slots remain |
| `InspectionSlots.RunKeeps` | runs/A2/app/services/inspection.py:149-312 | over every run at most one slot is selected, it is the appointment, none is selected before a visit is booked and one is from then on |
| `InspectionSlots.ProposeKeeps` | runs/A2/app/services/inspection.py:168-200 | clearing before deleting leaves exactly the new windows on offer, each with its times, for the current round, unselected |
| `InspectionSlots.StaleOfferIff` | runs/A2/app/services/inspection.py:663-672 | false promise, exact condition: after any run something of an earlier round is on offer iff a re-inspection was accepted and no proposal has been accepted since |
| `InspectionSlots.StaleBookingIff` | runs/A2/app/services/inspection.py:168-182 | after any run, the booking an accepted selection makes is of an earlier round iff a re-inspection was accepted and no proposal since |
| `InspectionSlots.StaleBookingReached` | runs/A2/app/services/inspection.py:228-251 | a run of requests that ends with a stale slot as the appointment |
| `InspectionSlots.AcceptedIff` | runs/A2/app/services/inspection.py:149-182 | a proposal, a selection and a re-inspection are accepted exactly by state and by the times of the windows |
| `InspectionSlots.StaleSlotBooked` | runs/A2/app/services/inspection.py:228-251 | from every case in review, each still future window of the earlier round can be booked for the new one |
| `PayoutServices.UnitOfWork.DoCommit` | runs/A2/app/services/unit_of_work.py:34-51 | a commit runs the queued effects in order and empties the queue |
| `PayoutServices.RanMeansCommitted` | runs/A2/app/services/unit_of_work.py:31-51 | an effect ran iff it was queued in a transaction that then committed; one queued before a rollback never runs |
| `PayoutServices.RunInOrder` | runs/A2/app/services/unit_of_work.py:31-51 | effects run in the order they were queued, each queue call at most once |
| `PayoutHooks.EveryStartQueuesOne` | runs/A2/app/services/settlement.py:366-390 | in every run the hooks of a settlement that wait, and those run or lost, are together as many as the times its status became processing |
| `PayoutHooks.TransferStarts` | runs/A2/app/services/settlement.py:366-390 | the handler asks for a dispatch exactly when its request makes the settlement processing |
| `PayoutHooks.HookWaits` | runs/A2/app/services/settlement.py:366-390 | so the hook of a payment under way waits until it is run or lost |
| `PayoutHooks.HookCompletes` | runs/A2/app/services/payout_dispatch.py:46-109 | run, and answered with a success, the hook pays and certifies |
| `PayoutHooks.HookAloneCompletes` | runs/A2/app/services/payout_dispatch.py:46-109 | a run without redrive and without report in which the payment is completed by its own hook |
| `PayoutServices.NullPaymentGateway.InitiatePayout` | runs/A2/app/adapters/payments.py:37-52 | the gateway registers a key once and answers it with the original payout ever after |
| `PayoutServices.DispatchPayout` | runs/A2/app/services/payout_dispatch.py:46-109 | the dispatcher leaves the case as the protocol's dispatch step does, for every ending of the provider call |
| `PayoutServices.DispatchStepMatches` | runs/A2/app/services/payout_dispatch.py:46-109 | a committed dispatch step of the protocol changes its case as the dispatcher does and no other case |
| `PayoutSafety.AtMostOnePayout` | runs/A2/app/services/payout_dispatch.py:46-130 | over every interleaving, and whatever words the provider uses, the provider holds at most one payout per settlement |
| `PayoutSafety.ExactPayouts` | runs/A2/app/services/settlement.py:298-489 | over every interleaving of requests, lost hooks, dispatches dying before their commit, redrives, failures, returned payouts, re-finalised figures and repeated reports: every payout that has not failed is for exactly the refund its settlement shows, and for every settlement recorded as paid a payout had succeeded for exactly its refund |
| `PayoutSafety.NextPays` | runs/A2/app/services/settlement.py:392-446 | a settlement becomes paid, with something to pay, only in a step after which a payout of it stands as succeeded |
| `PayoutSafety.PaidStays` | runs/A2/app/services/settlement.py:401-409 | a settlement recorded as paid keeps its record in every step |
| `PayoutSafety.ReportKeepsPaid` | runs/A2/app/services/settlement.py:458-459 | no report changes a settlement recorded as paid: a returned payout is not noticed |
| `PayoutReturns.StillMovedIff` | runs/A2/app/api/v1/webhooks.py:22-23 | settlements recorded as paid have still moved exactly their refund iff no step of the run returned a succeeded payout of one of them |
| `PayoutReturns.ReversedIffReturned` | runs/A2/app/api/v1/webhooks.py:22-23 | at the end of every run a paid settlement has a failed payout iff some step of the run returned one |
| `PayoutReturnRuns.ReturnedAfterPaid` | runs/A2/app/services/settlement.py:458-459 | a run with mapped words in which a payment succeeds, is returned and the return is reported: the report changes nothing and the exit stays paid and certified with nothing moved |
| `PayoutReturnRuns.LateSuccessIff` | runs/A2/app/api/v1/webhooks.py:80-86 | reports out of order: after any run, a report of a success that was since lost makes a settlement paid with nothing moved iff the settlement is under payment, and changes nothing otherwise |
| `PayoutReturnRuns.LateSuccessReached` | runs/A2/app/api/v1/webhooks.py:80-86 | a run that gets there: a success that was true once arrives after the return and after the second payment |
| `PayoutSafety.RequestKeepsMoney` | runs/A2/app/services/settlement.py:142-390 | while a payment is under way or done no request changes key, refund or status; a bound key is never rebound |
| `PayoutSafety.AnswerKeepsMoney` | runs/A2/app/services/payout_dispatch.py:88-109 | what each answer of the provider does to the settlement |
| `PayoutSafety.MovedOnce` | runs/A2/app/services/payout_dispatch.py:111-130 | with one payout per case, what was moved is that payout's amount |
| `PayoutLimits.ExactIffUnderstood` | runs/A2/app/adapters/payments.py:141-165 | the vocabulary is one whose every word is read no further than the payout has got iff in every run amounts are exact just when no step returned the payout of a settlement recorded as paid: both directions, with a failing run built for every other word |
| `PayoutLimits.MappedWordsAreSafe` | runs/A2/app/adapters/payments.py:143-153 | with the nine mapped words amounts are always those shown, paid settlements had been paid, and still are iff none was returned |
| `PayoutLimits.InterpretIsMapped` | runs/A2/app/adapters/payments.py:141-165 | every word is read as the map has it, and no other word is read at all |
| `PayoutLimits.AnswerCompletesIff` | runs/A2/app/services/payout_dispatch.py:88-109 | an answer in a mapped word completes the payment under way iff the word means success |
| `PayoutLimits.RefusalReturns` | runs/A2/app/services/payout_dispatch.py:68-86 | a non-retryable refusal returns the settlement to the owner with its key |
| `PayoutLimits.SettledIsNotUnderstood` | runs/A2/app/api/v1/webhooks.py:22-23 | "SETTLED", a success word of the webhook that the gateway does not map, does not: a run pays an amount the settlement no longer shows |
| `PayoutLimits.FailedPayoutIsFinal` | runs/A2/app/services/payout_dispatch.py:46-109 | once the provider failed a settlement's payout, nothing moves any more and no continuation turns it into a paid one, because the retry reuses the key |
| `PayoutLimits.RedriveCompletes` | runs/A2/app/workers/reconciler.py:132-163 | a lost hook strands nothing: one redrive answered with a success completes the payment and issues the certificate |
| `PayoutCompletion.CompletableIff` | runs/A2/app/domain/state_machine.py:139-145 | "owner may retry", exact condition: for a settlement under payment some feasible continuation pays its refund iff the provider has not failed a payout of it |
| `PayoutCompletion.RetryInVain` | runs/A2/app/domain/state_machine.py:139-145 | a run in which the payout fails, the owner pays again, and no continuation ever pays the refund |
| `PayoutCompletion.CompletionExists` | runs/A2/app/services/payout_dispatch.py:46-109 | whatever words the provider uses for a payout that has not failed, a redrive and at most one report complete the payment |
| `PayoutLimits.RunEvolvesLedger` | runs/A2/app/ports/payments.py:38-42 | over every run the ledger only grows and a payout keeps its key, case and amount, the original result of the key; that states turn only as assumed of the provider carries over from steps to runs |
| `PayoutSweep.SweepReachesIff` | runs/A2/app/workers/reconciler.py:146-153 | a sweep is sure to pick a stuck settlement iff at most fifty are stuck |
| `PayoutSweep.SweepRecovers` | runs/A2/app/workers/reconciler.py:146-161 | with at most fifty stuck, after any run one sweep pays every settlement the provider answers a success for, however the other dispatches end |
| `PayoutSweep.SweepStarves` | runs/A2/app/workers/reconciler.py:146-161 | with more than fifty stuck, any one may be left out by every sweep for ever: fifty others whose provider is unreachable stay a legal choice |
| `PayoutSweep.StarvationReached` | runs/A2/app/workers/reconciler.py:146-153 | a run with fifty-one payments under way, one of which no number of such sweeps reaches |
| `EscrowServices.EscrowRecord.Transition` | runs/A1/app/services/workflow_service.py:63-92 | realises the move along the table: history appended, activity flag mirrored |
| `EscrowServices.EscrowRecord.AssignAgency` | runs/A1/app/services/inspection_service.py:80-115 | an active agency gets a new assignment and scheduling starts over |
| `EscrowServices.EscrowRecord.SubmitDamageReport` | runs/A1/app/services/inspection_service.py:269-365 | one report per assignment; the visit is taken as done when still booked; negative amounts refuse the whole report; figures are computed in the same transaction |
| `EscrowServices.EscrowRecord.RepeatInspection` | runs/A1/app/services/inspection_service.py:487-509 | from review only: the figures are voided, then an agency is assigned |
| `EscrowServices.EscrowRecord.ComputeSettlement` | runs/A1/app/services/settlement_service.py:65-124 | the row is reused when draft or void and refused otherwise; every figure and mark is recomputed from the report |
| `EscrowServices.EscrowRecord.AcceptFigures` | runs/A1/app/services/settlement_service.py:157-233 | draft figures become payable, a leg of nothing is satisfied at once, and with no leg left the settlement closes |
| `EscrowServices.EscrowRecord.RaiseDispute` | runs/A1/app/services/settlement_service.py:235-260 | the figures go back to draft with all marks cleared unless a payment succeeded |
| `EscrowServices.EscrowRecord.PayLegNow` | runs/A1/app/services/settlement_service.py:264-415 | a known key is answered first, for the same leg only; otherwise the one outstanding leg is paid; a declined payment is raised |
| `EscrowServices.EscrowRecord.CloseSettlement` | runs/A1/app/services/settlement_service.py:419-453 | with no leg outstanding the settlement closes and the certificate is issued with it |
| `EscrowServices.EscrowRecord.IssueCertificate` | runs/A1/app/services/noc_service.py:41-83 | only for a closed settlement, once, with the figures as they are |
| `EscrowServices.EscrowRecord.DownloadCertificate` | runs/A1/app/services/noc_service.py:127-159 | the first download completes the exit, later ones only count |
| `EscrowServices.EscrowRecord.HandleRequest` | runs/A1/app/db.py:76-90 | one request is one transaction: on a refusal everything is restored, the failed payment row included |
| `EscrowSafety.RunKeeps` | runs/A1/app/services/settlement_service.py:65-453 | every committed case of every run satisfies the invariant: coupling, marks, derived figures, linked reports, recorded history |
| `EscrowFigures.ItemCounts` | runs/A1/app/domain/settlement.py:69-90 | one more damage item of amount x, anywhere in a report, raises the deductions by exactly x and lowers refund less balance by exactly x |
| `EscrowFigures.SumConcat` | runs/A1/app/domain/settlement.py:69-90 | nothing adds up to nothing, one amount to itself, parts together |
| `EscrowFigures.NothingFound` | runs/A1/app/domain/settlement.py:69-90 | a report without items leaves the whole deposit to refund |
| `EscrowFigures.ReportEndsVisit` | runs/A1/app/services/inspection_service.py:269-365 | a report ends its own visit and no other |
| `EscrowFigures.OffersAdd` | runs/A1/app/services/inspection_service.py:184-267 | windows offered add to those of the same visit |
| `EscrowFigures.AcceptedIff` | runs/A1/app/services/workflow_service.py:63-92 | after every run each request but a report, a dispute or a payment is accepted exactly under these conditions |
| `EscrowFigures.DownloadsCounted` | runs/A1/app/services/noc_service.py:127-159 | after every run the certificate counts exactly the downloads accepted, and the exit is completed from the first one on |
| `EscrowSafety.Conservation` | runs/A1/app/services/settlement_service.py:264-453 | over every run: certified iff closed iff the state is "NOC issued" or "completed"; then owner payments less tenant payments are the deposit less the latest report's damage, only one side paid, and the certificate shows exactly what moved; before that no payment exists; a payment is pending only for payable figures with exactly one leg outstanding, and "settled" is never committed |
| `EscrowSafety.ApproveSettlementKeeps` | runs/A1/app/services/settlement_service.py:157-233 | approval keeps the invariant, in particular exactly one leg outstanding while payment is pending |
| `EscrowSafety.ReportKeeps` | runs/A1/app/services/inspection_service.py:269-365 | a report keeps reports and assignments naming each other one to one |
| `EscrowSafety.ReportAcceptedIff` | runs/A1/app/services/settlement_service.py:92-96 | a report is accepted iff its own checks pass: the "no longer editable" refusal is unreachable |
| `EscrowSafety.DisputeAcceptedIff` | runs/A1/app/services/settlement_service.py:243-248 | a dispute is accepted iff payment is pending, or a repeated visit is done and a report exists: the check for completed payments never decides |
| `EscrowSafety.PaymentAcceptedIff` | runs/A1/app/services/settlement_service.py:264-320 | a payment is accepted iff it repeats a recorded key and leg, or settles the outstanding leg with an accepting gateway; it always certifies |
| `EscrowSafety.PaidOnce` | runs/A1/app/services/settlement_service.py:284-297 | repeating an accepted payment, after any run, succeeds and changes nothing; another key or leg is refused for ever |
| `EscrowSafety.NothingIsRewritten` | runs/A1/app/services/noc_service.py:162-188 | over every run reports, payments and history only grow, a certificate keeps its figures, a terminal case keeps everything but its download counter |
| `EscrowSuperseded.SupersededIff` | runs/A1/app/services/inspection_service.py:153-164 | for every run that ends in review or awaiting a payment: the figures are those of a report after which another visit was ordered, with voiding or without, iff a repeated visit was disputed since that report |
| `EscrowSuperseded.VoidIff` | runs/A1/app/services/inspection_service.py:501-507 | after any run the figures are void iff a re-inspection was ordered and no report filed and no dispute accepted since; a plain request for a visit voids nothing |
| `EscrowSuperseded.VoidRevivedIff` | runs/A1/app/services/settlement_service.py:98-110 | the same for one request on void figures; neither it nor any other makes them payable or closed at once |
| `EscrowSuperseded.AcceptedIff` | runs/A1/app/services/inspection_service.py:493-509 | the orders, reports and disputes these conditions speak of are exactly the accepted ones |
| `EscrowSuperseded.SupersededBecomePayable` | runs/A1/app/services/inspection_service.py:153-164 | from every reviewed case with money at stake, on both ways of ordering another visit, the superseded figures can become payable without any second report |
| `EscrowSuperseded.SupersededPayableReached` | runs/A1/app/services/inspection_service.py:495-509 | a run from the start, for each of the two ways, that gets there with a single report |
| `PdfWriters.RenderPdf` | runs/A1/app/domain/pdf.py:292-349 | the escrow writer produces exactly the file format's bytes for its numbering |
| `PdfWriters.Build` | runs/A2/app/adapters/pdf.py:296-367 | the property writer produces exactly the file format's bytes for its numbering, whatever the identifier function |
| `PdfWriters.WriteBody` | runs/A1/app/domain/pdf.py:333-344 | header, objects and table are written with every offset noted where its object starts |
| `PdfWriters.WriteTable` | runs/A1/app/domain/pdf.py:340-344 | the table has one entry per object, with the noted offsets |
| `PdfWriters.NumberNoc` | runs/A1/app/domain/pdf.py:294-335 | catalog 1, page tree 2, fonts, information 5, pages 6, 8, ... each with its content next, no number missing |
| `PdfWriters.NumberExit` | runs/A2/app/adapters/pdf.py:303-345 | reserved slots are filled with catalog and page tree; content then page, the information last |
| `PdfWriters.NocReadsBack` | runs/A1/app/domain/pdf.py:292-349 | from pages to pages: reading the escrow certificate from its end gives every page's operators, in order, iff every page has some and none holds a line feed |
| `PdfWriters.ExitReadsBack` | runs/A2/app/adapters/pdf.py:296-367 | the same for the property certificate |
| `PdfWriters.OperatorsBackIff` | runs/A1/app/domain/pdf.py:322-322 | joining operators by line feeds and splitting them again gives them back iff there are some and none holds a line feed |
| `PdfWriters.NocResourcesFound` | runs/A1/app/domain/pdf.py:294-310 | the fonts the pages name are found as objects 3 and 4, and the trailer names the information object |
| `PdfWriters.ExitResourcesFound` | runs/A2/app/adapters/pdf.py:303-345 | the four fonts are found as objects 3 to 6, and the trailer names the last object for the information |
| `PdfWriters.IdEntryReads` | runs/A2/app/adapters/pdf.py:346-367 | the file identifier stands in the trailer twice |
| `PdfWriters.PagesHaveNoKey` | runs/A1/app/domain/pdf.py:316-320 | the attributes both writers put before a page's /Contents do not contain the key's first letter, so that the reader's search finds the key itself |
| `PdfFile.ReaderAgrees` | runs/A1/app/domain/pdf.py:333-349 | for every document whose last object starts below 10^10: the header, startxref, 20-byte entries, trailer, catalog, page tree, the /Contents key of each page and stream lengths lead a reader to exactly the written streams |
| `PdfFile.ObjectFound` | runs/A1/app/domain/pdf.py:335-344 | each entry of the table leads to "n 0 obj" followed by exactly the body of its object |
| `PdfFile.TableFound` | runs/A1/app/domain/pdf.py:339-348 | the last startxref of the file is the written one and leads to the table |
| `PdfFile.TrailerFound` | runs/A1/app/domain/pdf.py:345-348 | 20 bytes per entry further on, the trailer names size, catalog and information, and carries what was added |
| `PdfFile.TableAlignedIff` | runs/A1/app/domain/pdf.py:343-344 | the table has 20 bytes per object iff the last object starts below 10^10 |
| `PdfFile.EntryReadBack` | runs/A1/app/domain/pdf.py:344-344 | an entry below 10^10 is 20 bytes long and reads back as its offset |
| `PdfFile.RefsReadBack` | runs/A1/app/domain/pdf.py:328-331 | the list of page references reads back as the page numbers |
| `PdfStrings.ReplacingIsEscaping` | runs/A1/app/domain/pdf.py:103-107 | the three successive replacements are one per-byte escape |
| `PdfStrings.LiteralReadsBack` | runs/A2/app/adapters/pdf.py:80-84 | a section 7.3.4.2 parser reads the escaped string back up to its own closing parenthesis, with line ends normalised |
| `PdfStrings.LiteralExactIff` | runs/A1/app/domain/pdf.py:103-107 | it reads back unchanged iff the string holds no carriage return |
| `Decimals.ReadBack` | runs/A1/app/domain/pdf.py:337-337 | a written number reads back, whatever non-digit follows |
| `Decimals.DecLength` | runs/A1/app/domain/pdf.py:344-344 | a number has at most k digits iff it is below 10^k |
| `LineWrap.WrapText` | runs/A1/app/domain/pdf.py:75-100 | the wrapper returns, and with exactly the wrapped lines, for every text and column of non-negative width |
| `LineWrap.ChopWord` | runs/A1/app/domain/pdf.py:90-97 | the hard split takes the longest fitting prefix, or one character, off an over-wide word until the rest fits |
| `LineWrap.SplitStopsIff` | runs/A1/app/domain/pdf.py:91-96 | the hard-split loop ends iff the column width is not negative |
| `LineWrap.LinesFit` | runs/A1/app/domain/pdf.py:75-100 | every line fits or is a single character |
| `LineWrap.NothingLost` | runs/A1/app/domain/pdf.py:75-100 | the non-whitespace characters of the lines, in order, are those of the text |
| `LineWrap.WrapIsOptimal` | runs/A1/app/domain/pdf.py:81-99 | for a paragraph whose words each fit, the lines are an order-preserving division of its words that fits, and no such division has fewer lines |
| `WholeWords.TidyIsOneLine` | runs/A1/app/domain/pdf.py:75-100 | a text of words with single blanks between them that fits the column comes back as that one line, from both wrappers |
| `WholeWords.WordsStandWhole` | runs/A1/app/domain/pdf.py:82-100 | every maximal run without whitespace that fits the column stands unbroken in one line |
| `WholeWords.WordsStandWholeEither` | runs/A2/app/adapters/pdf.py:99-123 | so it does in the property wrapper, for every width |
| `WholeWords.BreaksKept` | runs/A1/app/domain/pdf.py:77-81 | a line feed always ends a line: what is before it and what is behind are wrapped by themselves |
| `WholeWords.BlankIsEmptyLine` | runs/A1/app/domain/pdf.py:77-81 | a blank line becomes one empty line |
| `LineWrap.ParagraphsJoin` | runs/A1/app/domain/pdf.py:77-77 | splitting at line feeds and joining again gives the text back, and no part holds a line feed |
| `Texts.SpaceCodes` | runs/A1/app/domain/pdf.py:80-83 | the whitespace the wrappers split and strip at, by its codes |
| `LineWrap.WidthIsSum` | runs/A1/app/domain/pdf.py:57-72 | a text is as wide as its characters together |
| `LineWrap.GreedyAhead` | runs/A1/app/domain/pdf.py:81-99 | greedy wrapping stays ahead of every division, word by word |
| `LineWrap.WrapNeverEmpty` | runs/A1/app/domain/pdf.py:100-100 | the fallback for an empty result is never taken |
| `LineWrap.LimitDecides` | runs/A1/app/domain/pdf.py:65-72 | comparing scaled widths with the limit is comparing points with the column width |
| `PropertyWrap.WrapLines` | runs/A2/app/adapters/pdf.py:99-123 | the property wrapper returns its lines for every width |
| `PropertyWrap.LinesFitIff` | runs/A2/app/adapters/pdf.py:100-123 | "over-long words are hard-split" holds iff no over-wide word follows another word of its paragraph |
| `PropertyWrap.NothingLostEither` | runs/A2/app/adapters/pdf.py:99-123 | it loses, adds and reorders nothing but whitespace |
| `PageLayout.Layout` | runs/A1/app/domain/pdf.py:231-269 | laying out blocks on a canvas gives exactly the specified pages |
| `PageLayout.Canvas.DrawLine` | runs/A1/app/domain/pdf.py:180-196 | a line is placed one size below the cursor, on a new page when it does not fit, and the cursor moves to its baseline |
| `PageLayout.Canvas.DrawKeyValue` | runs/A1/app/domain/pdf.py:256-268 | room for all value lines is asked for once; label and first line share a baseline; the cursor ends below the last line |
| `PageLayout.MarginsKept` | runs/A1/app/domain/pdf.py:164-269 | when every indivisible piece fits a page, no text of any page leaves the margins and the cursor stays between them after every block |
| `PageLayout.KeyValueFitsIff` | runs/A1/app/domain/pdf.py:256-268 | a key-value row keeps the bottom margin iff its lines together fit an empty page |
| `PageLayout.AllShownInOrder` | runs/A1/app/domain/pdf.py:231-269 | read page after page, the document shows exactly the lines of its blocks in block order, each in the size and face and at the place across the page its block asks for |
| `PageLayout.CentredInTheMiddle` | runs/A1/app/domain/pdf.py:180-186 | a centred line leaves equal room on both sides, any other starts at the margin |
| `PageGeometry.NothingOverlaps` | runs/A1/app/domain/pdf.py:164-269 | however blocks are wrapped and pages broken, each text of a page is below the ones before it or on the very baseline of a label |
| `PageGeometry.BlockMoves` | runs/A1/app/domain/pdf.py:231-269 | a block for which there is room starts no page and moves the cursor down by exactly its height |
| `PageGeometry.HeadingBetweenSides` | runs/A1/app/domain/pdf.py:240-245 | every line of a heading is printed between the side margins, in bold, or is a single character |
| `PageGeometry.ParagraphBetweenSides` | runs/A1/app/domain/pdf.py:246-254 | so is every line of a paragraph, in its face |
| `PageGeometry.ValueBetweenSides` | runs/A1/app/domain/pdf.py:255-268 | so is every line of a value, right of its label |
| `PageGeometry.HeightIsProduct` | runs/A1/app/domain/pdf.py:231-269 | that height is lines times step and the space around; a row is lines times size |
| `PageGeometry.StepIsFactor` | runs/A1/app/domain/pdf.py:238-254 | lines are 1.35 sizes apart in a heading and leading times the size in a paragraph |
| `PageLayout.DocumentKeepsInk` | runs/A1/app/domain/pdf.py:231-269 | from blocks through wrapping and pagination no visible character is lost, added or moved |
| `PageLayout.LineBetweenSides` | runs/A1/app/domain/pdf.py:180-186 | a line that fits its column starts and ends between the side margins, centred or not |
| `Outbox.RunKeeps` | runs/A2/app/workers/outbox_dispatcher.py:70-114 | over every interleaving of replicas, crashes and purges: batches held at once are disjoint, attempts count committed failures and are the maximum iff dead-lettered, a failed row is due exactly one backoff after its last failure, a published row was delivered |
| `Outbox.FinalForever` | runs/A2/app/workers/outbox_dispatcher.py:84-113 | published rows and dead letters never change again; only published ones may be purged |
| `Outbox.ExactlyOnce` | runs/A2/app/workers/outbox_dispatcher.py:70-114 | without crashes and unheard acknowledgements a row is delivered once when published and not before |
| `Outbox.RetryWaits` | runs/A2/app/repositories/support.py:241-260 | a failed row is never claimed before its last failure plus backoff |
| `Outbox.BackoffSchedule` | runs/A2/app/workers/outbox_dispatcher.py:26-31 | the waits after the first eight failures, and one hour from then on |
| `Outbox.LongestDueFirst` | runs/A2/app/repositories/support.py:241-260 | no row is passed over for one that became due later |
| `Outbox.PublishedStamped` | runs/A2/app/workers/outbox_dispatcher.py:84-95 | a row is published only by a commit of the batch that held it, and stamped with that batch's time |
| `Outbox.KeptUntilPurged` | runs/A2/app/repositories/support.py:262-268 | a published row stays as it is until a purge of what was published before some later time |
| `Outbox.WorkedExact` | runs/A2/app/workers/outbox_dispatcher.py:84-113 | exactly the claimed rows change, each by the outcome of its own attempt |
| `Outbox.AcceptedCount` | runs/A2/app/workers/outbox_dispatcher.py:84-113 | the count is of the accepted ones, each for one |
| `Outbox.Dispatcher.RunOnce` | runs/A2/app/workers/outbox_dispatcher.py:70-114 | one batch: every claimed row gets the outcome of its one attempt, the others stay, and the result counts the accepted ones |
| `Outbox.RunOnceIsSteps` | runs/A2/app/workers/outbox_dispatcher.py:70-114 | that loop changes the table as the steps of one replica do |
| `Relay.OutboxRelay.DrainOnce` | runs/A1/app/ports/outbox.py:104-143 | the first deliverable unlocked rows are tried once each; the result is the number newly published |
| `Relay.OutboxRelay.DrainAll` | runs/A1/app/ports/outbox.py:152-159 | drains follow each other until one publishes less than a batch; the total is exactly the number newly published |
| `Relay.DrainProgresses` | runs/A1/app/ports/outbox.py:104-143 | every non-empty committed drain strictly uses up remaining attempts |
| `Relay.DrainsSettle` | runs/A1/app/ports/outbox.py:104-159 | whatever other relays lock meanwhile: after more unhindered drains than attempts remained every row is published or at exactly ten attempts |
| `Relay.AttemptsBounded` | runs/A1/app/ports/outbox.py:109-131 | no committed drain, by any relay, counts a row beyond ten attempts |
| `Relay.PublishedOnce` | runs/A1/app/ports/outbox.py:109-142 | no row is published by two committed drains, whatever was locked |
| `Relay.OverlapIsSerial` | runs/A1/app/ports/outbox.py:113-118 | what a drain selected before others committed, under locks they respected, is what a drain at its commit selects when exactly the other rows are locked |
| `Relay.FinishedStays` | runs/A1/app/ports/outbox.py:109-142 | from any point of a run on, under any locks, a published row or one out of attempts is never selected or changed again |
| `Relay.ContinuesIff` | runs/A1/app/ports/outbox.py:152-159 | a drain publishes a full batch, so that the loop goes on, iff it found a full batch and every delivery succeeded, whatever was locked |
| `Relay.DeliverableIff` | runs/A1/app/ports/outbox.py:109-116 | a row is deliverable iff it is unpublished and has had fewer than ten attempts |
| `RelayDrainAll.DrainAllTriesIff` | runs/A1/app/ports/outbox.py:152-159 | "drain all", exact condition: with nothing locked and batches enough, every deliverable row is tried iff no delivery fails in a batch that more of the backlog follows |
| `RelayDrainAll.DrainAllClearsIff` | runs/A1/app/ports/outbox.py:152-159 | nothing is left deliverable iff, besides, every failed delivery was its row's last attempt |
| `RelayDrainAll.UntriedRowLeft` | runs/A1/app/ports/outbox.py:152-159 | an outbox of two rows that "drain all" leaves with one of them never tried, whatever the number of batches |
| `RateLimit.SlidingWindowLimiter.Check` | runs/A2/app/api/rate_limit.py:32-47 | one request: bucket created (dropping the oldest when full), pruned, and accepted iff fewer than the limit remain |
| `RateLimit.PruningChangesNothing` | runs/A2/app/api/rate_limit.py:25-47 | over every run with non-decreasing times the pruned queue gives the verdicts of a limiter that forgets nothing and counts accepted times in the closed window ending now |
| `RateLimit.WindowsHold` | runs/A2/app/api/rate_limit.py:25-47 | no closed window holds more than the limit of a living bucket's accepted hits; at most 10,000 clients are tracked |
| `RateLimit.OthersUntouched` | runs/A2/app/api/rate_limit.py:32-47 | a request touches no other client's queue, except that a new client, at ten thousand, replaces the one whose queue is oldest |
| `RateLimit.LineKept` | runs/A2/app/api/rate_limit.py:35-41 | known clients keep their places, a new one joins at the end |
| `RateLimit.FirstAccepted` | runs/A2/app/api/rate_limit.py:35-47 | a new client starts afresh |
| `KeysetPaging.PageShape` | runs/A2/app/repositories/exit_workflow.py:127-141 | a page holds the first rows beyond the cursor and says "more" iff some are left |
| `KeysetPaging.WalkComplete` | runs/A2/app/repositories/exit_workflow.py:127-141 | from any cursor, following cursors ends and returns exactly the rows beyond it in order |
| `KeysetPaging.WalkListsTable` | runs/A2/app/repositories/exit_workflow.py:91-141 | a walk over a table that does not change returns every row once, newest first |
| `KeysetPaging.WalkThroughExact` | runs/A2/app/repositories/exit_workflow.py:127-141 | with rows inserted or removed between pages no row comes twice, the order is kept, and a finished walk has every row that was there throughout |
| `KeysetPaging.NewestFirst` | runs/A2/app/repositories/exit_workflow.py:127-141 | a walk lists newer rows first, and rows of one time by descending identifier |
| `Idempotency.IdempotencyGuard.BeginRequest` | runs/A2/app/api/idempotency.py:37-100 | short or missing keys are refused, a new key is reserved, a known one is answered from its record |
| `Idempotency.IdempotencyGuard.Complete` | runs/A2/app/api/idempotency.py:102-108 | the response is stored under the reservation and nowhere else |
| `Idempotency.AtMostOneExecution` | runs/A2/app/api/idempotency.py:37-108 | over every run of begin, complete, commit, rollback and purge: between purges a key and endpoint execute at most once, and every replay returns the stored response of that execution, which had the same body |
| `Idempotency.StartDecides` | runs/A2/app/api/idempotency.py:75-98 | at the end of any run a request executes iff nothing is remembered, is replayed iff the remembered body is the same and answered, and is refused otherwise |
| `Idempotency.AnsweredForAnotherIff` | runs/A2/app/api/v1/settlement.py:101-113 | the endpoint is a path template: at the end of any run a request is answered with another exit's response iff the remembered execution of its key and endpoint ran for another exit, with the same body, and stored a response |
| `Idempotency.AnotherExitsResponse` | runs/A2/app/api/v1/settlement.py:101-113 | a run in which the second exit's payment is answered with the first exit's response and never executes |
| `Idempotency.KeysApartOwnAnswers` | runs/A2/app/api/idempotency.py:75-98 | in every run whose clients never share a key between exits, every replay is of an execution for the same exit |
| `Idempotency.NeverInFlight` | runs/A2/app/api/idempotency.py:90-95 | "still being processed" is never answered when responses are stored before the commit |
| `Idempotency.ExpiresAfterADay` | runs/A2/app/api/idempotency.py:65-80 | in every run a record expires one day after the request that made it |
| `Idempotency.ForgottenIff` | runs/A2/app/repositories/support.py:286-291 | a purge forgets exactly the expired records, and nothing else forgets any |
| `Idempotency.MalformedIff` | runs/A2/app/api/idempotency.py:52-64 | refused as malformed exactly when the key has fewer than eight characters, or is missing where one is required |
| `Money.FormatAed` | runs/A2/app/core/money.py:69-80 | the grouping loop produces exactly the grouped text |
| `Money.FormattedReadsBack` | runs/A2/app/core/money.py:69-80 | dropping sign, currency and commas and reading the number yields the amount rounded to fils |
| `Money.GroupSizes` | runs/A2/app/core/money.py:75-79 | the first group has one to three digits and every later one exactly three |
| `Money.FilsNearest` | runs/A2/app/core/money.py:22-30 | rounding errs by at most half a fils and ties go away from zero |
| `Money.TotalExact` | runs/A2/app/core/money.py:47-49 | amounts of whole fils add up exactly |
| `Money.SettledConserves` | runs/A2/app/core/money.py:52-66 | refund less liability is deposit less deductions, one of them is zero, and amounts out of range are refused |
| `Money.SettledInFils` | runs/A2/app/core/money.py:52-66 | on whole fils the split is the one the exit case uses |
| `Money.NegativeZeroIff` | runs/A2/app/core/money.py:69-80 | a text shows a sign and reads zero iff the amount is negative and less than half a fils |

## Left out

- ExitCase: party identity, document and photograph checks, notice periods, notification and audit texts, and the totals mirrored onto the workflow row are not modelled; roles are.
- ExitCase: line descriptions and categories are left out of settlement lines; the "failed" and "cancelled" settlement statuses are declared as in the source, which never assigns them.
- ExitServices.ExitRecord.ScheduleInspection: moves the state only; the appointment windows are modelled apart, in InspectionSlots, against the same table but without roles.
- InspectionSlots.SlotBook.ProposeWindows: the request schema's limit of ten windows and its check for overlaps are not modelled.
- PayoutSweep: a sweep is a sequence of dispatches over the settlements its query picked; the time a payment began is a parameter.
- PayoutProtocol: draft expiry and automatic completion are the system's commands.
- PayoutServices.UnitOfWork.DoCommit: an effect is a number and an effect that raises is not distinguished, since the loop goes on either way.
- EscrowCase: who may act or pay, document kinds and move-out dates are not modelled; keys used by other settlements enter as a parameter of the payment.
- EscrowServices.EscrowRecord.ProposeSlots: windows are counted, not listed, so the checks of single windows and the unique index over them are not modelled.
- PdfWriters: the page dictionary's fixed attributes, the font objects and the information object are parameters, of which the attributes must not hold a capital C (`PagesHaveNoKey`); character encoding, `_num` and `_pdf_date` formatting are not modelled.
- PdfWriters.Build: the file identifier is any function of the bytes before the trailer.
- LineWrap, PropertyWrap: glyph widths are any table of natural numbers, compared exactly instead of in floating point; transliteration happens before.
- PageLayout: lengths are exact reals; the property certificate's page cursor is not modelled.
- Outbox: the poll loop, event contents and headers, and strict order per partition are not modelled; the source gives no such order under retries.
- RateLimit.SlidingWindowLimiter.Check: the retry-after value is not returned; a limit of zero, where the source fails on an empty queue, is outside the theorems; times taken before the lock could be out of order, which the theorems exclude.
- KeysetPaging: filters appear only as the set of rows that satisfy them; the cursor's text encoding is not modelled.
- Idempotency: the body hash is compared as a text and taken to tell bodies apart.
- Money: the currency must not start with a minus sign for the text to read back; a negative zero as input has no counterpart among reals.
- HTTP routing, authentication, webhook signatures, storage, messaging and e-mail adapters, logging and migrations, and the repository's other implementations, are left out: plumbing, or variants that would add only easy members.
