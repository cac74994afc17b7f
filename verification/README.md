# Verification of the pod agent's delivery, admission, transfer and compilation logic

This Dafny project models the hard core of the pod agent and proves what that code is for. Everything is checked with
`dafny verify dfyconfig.toml`. Each file holds one module of the same name.

## What is modelled

**The durable event stream** (`podagent/event_stream.py`). The agent and its server share one channel. Frames wait in
a disk outbox; the head leaves on the server's verdict: retired, buried in a dead-letter list, or dropped if it is a
reopen report. Jobs arrive over the same channel into a durable inbox, get a receipt, and are handed to claimers; an
admission latch closes when the stream's voice is in doubt.

- `Frames` frames, keys, the verdict table. `Admission` the latch, and the two-layer machine it implements.
- `StreamState` the lock-held transitions on values. `EventStream` the class itself, its file and its socket: every
  method is proved to perform its transition, including the roll-backs of failed writes.
- `SenderCycle` one cycle of the sender. `StreamRuns` whole runs: any interleaving of appends, head-inserts,
  deliveries, verdicts, settlements, claims, crashes and restarts, an adversarial server and disk. A crash inside a
  transition is a run in which its remaining writes fail, followed by a restart.
- `Outcomes`, `ClaimQueue` and `CycleOutcome` say what an append, a delivery, a new connection, a restart, a claim and a
  cycle of the sender leave, in terms of frames, queue entries and statuses instead of the transition functions.
- `Soundness` the invariant of every durable state. On it rest `Conservation`, `Claims`, `QueueMoves`, `Jobs`,
  `HandoutCounts`, `OutboxOrder`, `LoadedFiles`, `Termination`, `AttemptCap`. `Refinement` shows that a bounded `claim` and a reconnect are runs of
  those steps.
- `IntakeBarrier` the ordering of receipts and acknowledgement events, over connections that come and go.

A log of every frame ever appended, with its fate, is carried as history; it decides nothing.

**The GPU ledger** (`podagent/ops/gpu_admission.py`): `GpuLedger` (the ledger as a class, proved against transitions
on values), `GpuRuns` (every interleaving of its callers), `GpuDeadline` (runs with time), `GpuFull` (what fits
together is admitted together).

**Transfers.** `Download` and `DownloadSafety` model the resuming single-stream download of `podagent/cp.py`, the
file updated in place by a loop over adversarial answers. `Ranges` and `RangedFetch` model the four-stream fetch of
`podagent/driver_userspace.py`: workers writing one file in any interleaving, and their supervisor; `RangedSuccess`
shows that every object has a successful run.

**Algorithms and small compilers.** `OpChain` (the soundness check of op chains in `podagent/models.py`), `Captions`
(`podagent/captions.py`), `Keyframes`, `KeyframeTies` and `CropBuilders` (`podagent/render.py`; real arithmetic,
cosine a parameter with value 1 at 0 and within [-1, 1]), `Pads` and `PadChains` (`podagent/accents.py`, `podagent/render_onepass.py`),
`OriginCache` (`podagent/infer_cliprank.py`).

## What the proofs found

Each is a lemma with a concrete or parametric run, next to the condition under which the property does hold.

- A download over an existing file can splice foreign bytes into the result when its first attempt fails before it
  opens the file: attempt 1 then resumes after bytes this call never wrote, against the comment at
  `podagent/cp.py:843`. It is safe against every fair server exactly when the file is absent or empty, or the first
  answer is not such a failure (`DownloadSafety.CleanStartDecides`).
- A 206 that runs past its declared span is refused only if it ends cleanly; if it then drops, the excess stays in
  the file. One answer is safe against every server that could have sent it exactly when it keeps no excess
  (`DownloadSafety.AttemptSafeExactly`), and so are the rest of a download and, after a dropped 200, a whole one
  (`DownloadSafety.ExcessDecides`, `DownloadSafety.SecondAnswerDecides`).
- `reserve` reads the GPU budget before it takes the lock. A refresh in between can leave more reserved than the cached
  budget (`GpuRuns.RacedQuoteOverbooks`); a self-sizing request stays within it exactly when its quote is no larger
  (`GpuRuns.WholeBudgetNeedsAFreshQuote`).
- The priced park deadline suffices exactly for up to four operations ahead: because of its cap it does not for any
  larger number (`GpuDeadline.PricedDeadlineSuffices`, `GpuDeadline.LongerParksTimeOut`).
- A frame the server has accepted can be dead-lettered as undeliverable when it waits, with its attempts spent, behind
  a reopen report that gets no answer (`AttemptCap.AcceptedFrameBuried`, a run from an empty volume for any frame). A
  cycle charges a frame that has a verdict exactly when it waits behind reports to drop
  (`AttemptCap.ChargedDespiteVerdictExactly`).
- A job released while its entry is still queued, and then delivered again, is handed out twice
  (`HandoutCounts.ReleasedJobsRunTwice`). The step that breaks the rule is exactly the one that takes a job as new
  while an entry for it is still queued or held (`HandoutCounts.OneChanceExactly`, `HandoutCounts.RedeliveryDecides`).
- An acknowledgement is settled before the receipt of an earlier job when the connection is lost while the intake is
  behind (`IntakeBarrier.LossReleasesEarly`); and even on a live connection when the reader of a lost one still takes
  in a job, because the connections share their counters (`IntakeBarrier.LateReadReleasesEarly`). The order of one
  settlement holds for good exactly when no job read before its acknowledgement still waits
  (`IntakeBarrier.SettlementOrderedExactly`).
- Start-up accepts files that no run writes: it takes on trust that identities are unique over outbox and dead-letter
  together, that a correlation has one result, and that dead-letter rows carry their verdict
  (`LoadedFiles.AcceptedFilesExactly`, `LoadedFiles.LoadableIsNotEnough`).
- The number-valued twin of the punch curve sorts its breakpoints and takes the first of a tie, the compiled expression
  does neither. For breakpoints in time order they agree exactly when each tie is level (`KeyframeTies.TwinsAgreeExactly`);
  for two punches in any order, exactly when the times increase or the values are equal (`Keyframes.TwinsNeedTheOrder`).

## Model

| member | source | states |
|---|---|---|
| Frames.JudgeIsPermanentOnlyOnContentStatuses | podagent/event_stream.py:106-120 | Exactly which status and text accept a frame, refuse it alone, refuse the worker, or decide nothing |
| Admission.OpenExactlyWhenBothLayersAre | podagent/event_stream.py:410-441 | The latch with its storage overlay is open exactly when storage is up and no verdict stands |
| Admission.LatchRefines | podagent/event_stream.py:430-441 | Latching moves only the layer it is about, and an ambiguous fault never replaces a standing one |
| Admission.RecoverRefines | podagent/event_stream.py:414-428 | A durable write brings storage back, keeps a permanent verdict, and drops an ambiguous one only on an empty outbox |
| Admission.ClearRefines | podagent/event_stream.py:902-904 | Settling or opening clears only an ambiguous verdict, and only with nothing left to deliver |
| EventStream.EventStream.Boot | podagent/event_stream.py:236-275 | Start-up loads the file or refuses it, drops inherited boot frames durably, and hands the whole inbox out again under a fresh stream id |
| EventStream.EventStream.PersistLocked | podagent/event_stream.py:386-428 | A durable write stores all containers at once and is where storage recovers; a failed one changes nothing |
| EventStream.EventStream.LatchLocked | podagent/event_stream.py:430-441 | The latch transition, waking claimers when admission closes or storage fails |
| EventStream.EventStream.Append | podagent/event_stream.py:451-513 | Refused payload, storage probe, duplicate result, or a durable append; the whole new state in each case |
| EventStream.EventStream.AppendRecovered | podagent/event_stream.py:468-513 | A failed write of an append leaves the state as it was, including the popped inbox entry |
| EventStream.EventStream.AppendBootstrapHead | podagent/event_stream.py:515-539 | A bootstrap frame goes in at the head, or nothing changes |
| EventStream.EventStream.Settle | podagent/event_stream.py:853-948 | The settlement of one frame: pop only if it is still the head, undo on a failed write, latch what its verdict means |
| EventStream.EventStream.SettleAccepted | podagent/event_stream.py:877-904 | Retiring a frame, and for a result appending its acknowledgement event in the same write |
| EventStream.EventStream.SettleRefused | podagent/event_stream.py:905-948 | Burying a frame with its verdict, and the latch or job release that follows |
| EventStream.EventStream.ReleaseReassignedJobLocked | podagent/event_stream.py:950-969 | An unclaimed job named by a refused receipt leaves the inbox; its queue entries stay |
| EventStream.EventStream.DrainKnown | podagent/event_stream.py:740-753 | The loop that settles the head for as long as its verdict is known |
| EventStream.EventStream.SpendAttempt | podagent/event_stream.py:765-787 | A fruitless cycle charges the head one attempt and buries it past the cap |
| EventStream.EventStream.SenderCycle | podagent/event_stream.py:698-803 | One cycle of the sender, whatever the server answers and whichever write fails |
| EventStream.EventStream.AcceptJob | podagent/event_stream.py:1246-1336 | A delivered job: replay, conflict, already answered, or a new inbox entry with its receipt before it is queued |
| EventStream.EventStream.AcceptNew | podagent/event_stream.py:1312-1336 | The inbox write and the receipt precede the hand-out; a failed inbox write takes the job back out |
| EventStream.EventStream.ResolveClaim | podagent/event_stream.py:1613-1634 | What one queue item means to a claimer |
| EventStream.EventStream.Claim | podagent/event_stream.py:1602-1634 | One bounded claim, with the whole new state: refused under a standing fault, over the queue on a connection that is up or comes up, and otherwise a latched ambiguity |
| EventStream.EventStream.EnsureOpen | podagent/event_stream.py:1459-1511 | A new connection clears an ambiguous latch, then puts readiness and the report of the last close at the head |
| EventStream.EventStream.InstallReport | podagent/event_stream.py:1513-1536 | The report of the last close is inserted once and marked pending |
| Outcomes.AppendedAtTheTail | podagent/event_stream.py:451-513 | Exactly when an append succeeds; the frame is then the last of the outbox, in memory and on disk, under the next number; a failed append stores nothing |
| Outcomes.InsertedAtTheHead | podagent/event_stream.py:515-539 | The same of a head insert, whose frame is the first |
| Outcomes.DeliveriesAreReceipted | podagent/event_stream.py:1279-1336 | Every delivery not refused gets a receipt at the tail, also one for a job already answered and one delivered again; the newest delivery is kept, new work is stored and queued once |
| Outcomes.RefusedDeliveriesStoreNothing | podagent/event_stream.py:1286-1316 | A delivery with other content or another attempt, or new work under a permanent fault, changes no stored byte; the first two close admission for good |
| Outcomes.OpeningCarriesReadiness | podagent/event_stream.py:1484-1536 | Exactly when a connection stays up; readiness is then pending, at the head unless it waited already, with the report of the last close in front of it |
| Outcomes.RestartedState | podagent/event_stream.py:236-275 | A restart drops the boot frames and nothing else, and admits work exactly when nothing is left to deliver |
| Outcomes.LastAcknowledgementReopens | podagent/event_stream.py:877-904 | When the last frame is acknowledged an ambiguous verdict is over and work is admitted |
| Outcomes.ClosingWakes | podagent/event_stream.py:430-441 | Every step that closes admission queues a wake-up for the claimers |
| ClaimQueue.ClaimTakesTheFirst | podagent/event_stream.py:1613-1634 | Under open admission the first interrupt or entry of an inbox job decides: the job is returned with its content and marked claimed, and only the entries up to it leave the queue |
| ClaimQueue.ClaimReturnsExactly | podagent/event_stream.py:1613-1634 | Which job a claim returns, and when it returns nothing, if and only if, by the queue's content |
| ClaimQueue.ClosedClaimRefuses | podagent/event_stream.py:1621-1628 | Under a standing fault a claim reports the fault and puts the entry it took back |
| ClaimQueue.ConnectedClaim | podagent/event_stream.py:1602-1612 | So on a connection that is up; one that cannot be opened closes admission and leaves jobs and queue alone |
| ClaimQueue.DeliveredJobIsClaimed | podagent/event_stream.py:1312-1336 | New work delivered under open admission is what the next claim returns |
| Soundness.SoundFilesLoad | podagent/event_stream.py:322-384 | Every durable state a run can write is one start-up accepts |
| LoadedFiles.AcceptedFilesExactly | podagent/event_stream.py:322-384 | A file could have been written by a sound state if and only if start-up accepts it and it meets three conditions start-up does not check |
| LoadedFiles.LoadableIsNotEnough | podagent/event_stream.py:347-353 | For every valid frame, a file that has it waiting and buried at once is accepted |
| Soundness.ResultAckedIsValid | podagent/event_stream.py:830-851 | The event a retired result leaves behind is always a valid frame |
| Soundness.AppendKeeps | podagent/event_stream.py:451-513 | Appending keeps the invariant: unique keys, one result per job, inbox apart from results |
| Soundness.AppendHeadKeeps | podagent/event_stream.py:515-539 | So does a head-insert |
| Soundness.HeadIsTheFrame | podagent/event_stream.py:877-881 | The head that settles is the very frame the sender read, whatever was inserted in between |
| Soundness.SettleKeeps | podagent/event_stream.py:853-948 | So does a settlement, on every branch and with failing writes |
| Soundness.ReleaseKeeps | podagent/event_stream.py:950-969 | So does the release of a reassigned job, also when its write fails and the file stays ahead |
| Soundness.AcceptJobKeeps | podagent/event_stream.py:1246-1336 | So does the arrival of a job, on every branch |
| StreamRuns.BootKeeps | podagent/event_stream.py:236-275 | So does a restart from any such file with a fresh stream id |
| StreamRuns.StateStep | podagent/event_stream.py:158-1634 | Every step keeps the state sound and moves frames only in the allowed ways |
| StreamRuns.SenderStep | podagent/event_stream.py:698-803 | Every step keeps what the sender remembers true of the frames it remembers |
| StreamRuns.Run | podagent/event_stream.py:158-1634 | Both invariants hold after every run |
| Conservation.EveryRunConserves | podagent/event_stream.py:236-948 | After every run, crashes included, each frame ever appended is in exactly one place and for a reason; memory and file hold the same frames; the file loads |
| Conservation.LeavingIsForever | podagent/event_stream.py:877-948 | The log never forgets a frame, and a frame that left never returns |
| Conservation.OnlyTheHeadLeaves | podagent/event_stream.py:877-948 | Outside a restart only the head leaves, by a settlement of that very frame, retired only if accepted |
| Conservation.SettleTouchesOnly | podagent/event_stream.py:853-948 | A settlement seals the fate of no other frame |
| Conservation.SettleElsewhere | podagent/event_stream.py:877-881 | A settlement whose frame is no longer the head changes no fate |
| Conservation.RetiredResultLeavesOneEvent | podagent/event_stream.py:877-896 | A retired result is replaced, in the same write, by exactly one acknowledgement event at the tail |
| Conservation.OrderIsKept | podagent/event_stream.py:526-539 | Two frames that wait together never swap, over every run, restarts included |
| OutboxOrder.WaitingStandsInOrder | podagent/event_stream.py:486-513 | From any restart on, over every run: what waits and was not put in front stands in the order of its numbers, behind all inherited frames |
| OutboxOrder.ReceiptStandsAhead | podagent/event_stream.py:1317-1335 | The receipt of a new job stands ahead of every frame appended after it, for as long as both wait |
| Claims.PermanentVerdictsStick | podagent/event_stream.py:414-441 | Once a permanent verdict stands, no later mix of storage faults, recoveries, settlements, reconnects or ambiguous faults lets that incarnation hand out a job |
| Claims.PermanentVerdictsAreLatched | podagent/event_stream.py:927-930 | What raises one: refused input, a refusal of the worker's identity when read, and the same refusal when settled |
| Claims.NoHandOutUnderVerdict | podagent/event_stream.py:1613-1634 | A standing verdict stops every hand-out |
| Claims.ReplayBeforeWork | podagent/event_stream.py:258-259 | After a restart with unacknowledged frames nothing is handed out before the outbox has been empty once |
| Jobs.NoJobIsLost | podagent/event_stream.py:950-969 | In every reachable state each inbox job is claimed, queued or in a claimer's hand, and claimed jobs are inbox jobs |
| Jobs.RestartRequeuesTheInbox | podagent/event_stream.py:272-275 | A restart queues exactly the inbox on file, each job once, nothing claimed |
| Jobs.ClaimsAreHonest | podagent/event_stream.py:1613-1634 | A claim returns a durable, unanswered inbox job under open admission |
| Jobs.JobsLeaveOnlyAnswered | podagent/event_stream.py:493-511 | A job leaves the inbox only with its own durable result, or unclaimed when the server names another owner |
| Jobs.EveryRunLosesNoJob | podagent/event_stream.py:950-969 | The same, after every run from an empty volume, crashes and restarts included |
| Jobs.ReceiptComesFirst | podagent/event_stream.py:1317-1335 | When a job's receipt persists nobody has claimed the job, and every frame this incarnation appends later carries a larger number than the receipt |
| Jobs.NumbersGrow | podagent/event_stream.py:468-513 | Within one incarnation every frame that is added carries the stream's own id and a number from the counter on |
| HandoutCounts.OneChanceExactly | podagent/event_stream.py:1246-1336 | A step leaves every inbox job with at most one entry or claim if and only if it does not take a job as new whose old entry is still queued or held; a job handed out was not claimed |
| HandoutCounts.RunsHandOutOnce | podagent/event_stream.py:1602-1634 | So over a whole run: one chance throughout exactly when nothing is so redelivered, and then no job is handed out while claimed |
| HandoutCounts.EveryRunHandsOutOnce | podagent/event_stream.py:1602-1634 | From an empty volume, crashes and restarts included, without a redelivery no job runs twice |
| HandoutCounts.RedeliveryDecides | podagent/event_stream.py:1312-1336 | Under open admission a step leaves all later runs without redelivery free of double hand-outs if and only if it is none itself |
| HandoutCounts.TwoChancesTwoHandouts | podagent/event_stream.py:1602-1634 | From every state with open admission and two chances for a job there is a run that hands it out twice |
| HandoutCounts.ReleasedJobsRunTwice | podagent/event_stream.py:961-964 | From every state with an unclaimed queued job whose receipt heads the outbox, a release and a second delivery lead to two hand-outs |
| Termination.CycleIsARun | podagent/event_stream.py:698-803 | A cycle of the sender is a run of the steps above |
| Termination.CycleCostsWork | podagent/event_stream.py:740-787 | Every cycle on a non-empty outbox removes its head or spends one attempt of the frame then in front, and the work left falls |
| Termination.OutboxIsEmptiedInTime | podagent/event_stream.py:57 | With no new appends and successful writes, e other frames and r results are gone after at most 121 * (e + 2r) cycles, whatever the server answers |
| CycleOutcome.CycleSettlesTheDecided | podagent/event_stream.py:698-787 | The leading frames that are decided, by a remembered verdict or an answer in the window under their own key, leave in this cycle, each with exactly the fate its status gives; no answer ends any other frame |
| CycleOutcome.OtherAnswersChangeNothing | podagent/event_stream.py:735-753 | Answers under another key, outside the window or with a status that decides nothing have no effect on the cycle |
| CycleOutcome.UnansweredHeadClosesAdmission | podagent/event_stream.py:765-786 | A head without a verdict spends one attempt, stays, and closes admission |
| CycleOutcome.FailedWriteClosesAdmission | podagent/event_stream.py:788-803 | A cycle that ends in a failed write keeps its frame, marks storage as down and closes admission |
| Refinement.ClaimIsARun | podagent/event_stream.py:1602-1634 | A bounded claim is a run of take and resolve steps |
| Refinement.BoundedClaimIsARun | podagent/event_stream.py:1602-1634 | So is the whole bounded claim, with the reconnect it may need and the latch of a stream that cannot be opened; it returns a job exactly when the run hands one out |
| Refinement.OpeningIsARun | podagent/event_stream.py:1459-1536 | A reconnect is a run of a clear, head-inserts and marks |
| AttemptCap.DrainStopsAtTheUnknown | podagent/event_stream.py:740-753 | Draining ends at a head without a verdict |
| AttemptCap.ChargedDespiteVerdictExactly | podagent/event_stream.py:740-787 | A cycle charges a frame with a known verdict if and only if, behind the frames it settles, reports to drop stand in front of a dispatched frame with a verdict; the condition is about the outbox before the cycle |
| AttemptCap.ChargedAtTheCapIsBuried | podagent/event_stream.py:773-787 | The charge past the cap puts the head in the dead-letter |
| AttemptCap.AcceptedFrameBuried | podagent/event_stream.py:755-787 | It happens: for any frame and any acceptance there is a run from an empty volume that dead-letters the frame while the sender holds its acceptance |
| IntakeBarrier.SettlementOrderedExactly | podagent/event_stream.py:1391-1395 | The event of a settled acknowledgement keeps a larger number than every receipt, then or later, of a job read before it on its connection if and only if no such job still waits for the intake |
| IntakeBarrier.CountIsEnough | podagent/event_stream.py:1391-1395 | While the connection lives, the count the sender waits for means that no such job waits, although other connections' jobs are in the same count |
| IntakeBarrier.ReceiptsPrecedeLaterAcks | podagent/event_stream.py:1354-1422 | Over every run from the start in which jobs are read from the live connection only, that order holds for every acknowledgement let through by the count on its live connection |
| IntakeBarrier.LossReleasesEarly | podagent/event_stream.py:1393 | From every state with a live connection and a working intake there is a run in which a loss lets an acknowledgement settle ahead of the receipt of an earlier job |
| IntakeBarrier.LateReadReleasesEarly | podagent/event_stream.py:187-188 | Without the hypothesis on reads the order fails: a job read late on a lost connection is counted, and an acknowledgement of the live one passes too early |
| IntakeBarrier.ReceiptsAreFinal | podagent/event_stream.py:1354-1389 | A job once dealt with keeps its receipt, or its lack of one |
| IntakeBarrier.BarrierOpens | podagent/event_stream.py:1391-1395 | The barrier never holds the sender forever: the intakes alone open it, on however many connections their jobs are |
| GpuLedger.Ledger.BudgetMib | podagent/ops/gpu_admission.py:123-133 | The first measurement wins; afterwards the cached budget is returned |
| GpuLedger.Ledger.MayRefresh | podagent/ops/gpu_admission.py:136-144 | A busy or pinned ledger answers from its cache |
| GpuLedger.Ledger.FinishRefresh | podagent/ops/gpu_admission.py:145-153 | A re-read is cached only if the ledger is still idle and not pinned; an unreadable card keeps the cache |
| GpuLedger.Ledger.Join | podagent/ops/gpu_admission.py:173-192 | Refused outside the quoted budget, then when eight are parked; otherwise last in the queue with its deadline fixed |
| GpuLedger.Ledger.Turn | podagent/ops/gpu_admission.py:197-210 | One turn of the wait loop: admitted at the head when it fits, timed out, or still parked |
| GpuLedger.Ledger.Remove | podagent/ops/gpu_admission.py:211-219 | Any unwind takes exactly the waiter's own token out |
| GpuLedger.Ledger.GiveBack | podagent/ops/gpu_admission.py:227-231 | Releasing returns a reservation once and is otherwise without effect |
| GpuRuns.EveryRunIsFairAndFits | podagent/ops/gpu_admission.py:166-231 | In every interleaving: prefix sums within each reservation's priced budget, at most eight parked, admission in arrival order, an empty ledger admits its head |
| GpuRuns.CarefulRunsNeverOverbook | podagent/ops/gpu_admission.py:136-153 | With no quote above the cached budget, the total stays within it and a whole-budget reservation is alone |
| GpuRuns.WholeBudgetNeedsAFreshQuote | podagent/ops/gpu_admission.py:173-192 | On an idle ledger a self-sizing request stays within the cached budget exactly when its quote is no larger |
| GpuRuns.RacedQuoteOverbooks | podagent/ops/gpu_admission.py:173-174 | For any two readings, a refresh between quote and entry leaves the older one reserved |
| GpuRuns.OneSessionIsNeverTooMuch | podagent/ops/gpu_admission.py:116-120 | A measured ledger refuses one session only because eight are parked |
| GpuFull.TurnDecides | podagent/ops/gpu_admission.py:197-224 | A turn admits exactly the head, exactly when its need and the live ones sum up to at most its budget; otherwise it times out exactly from its deadline on |
| GpuFull.WholeBudgetCanBeUsed | podagent/ops/gpu_admission.py:166-224 | Any number of needs whose sum is at most what a reading leaves after the reserve are live together after a run without a tick |
| GpuFull.ParkedTogetherAdmittedTogether | podagent/ops/gpu_admission.py:166-224 | So are up to eight that have all parked before the first turn |
| GpuFull.RefreshFollowsTheCard | podagent/ops/gpu_admission.py:136-153 | What a refresh caches on an idle, busy, pinned or unreadable card |
| GpuDeadline.DeadlineIsEnough | podagent/ops/gpu_admission.py:161-163 | A waiter priced behind at most four whose deadline has come can be admitted |
| GpuDeadline.PricedDeadlineSuffices | podagent/ops/gpu_admission.py:161-211 | Operations within their ceiling and eager admission: such a waiter never times out and is admitted no later than its deadline, whatever the needs and whoever withdraws |
| GpuDeadline.LongerParksTimeOut | podagent/ops/gpu_admission.py:70-77 | For every number of operations ahead from five on there is such a run in which the waiter times out |
| Download.ResumeRange | podagent/cp.py:627-656 | An accepted Content-Range starts at the byte asked for, within the total it states, which is the pinned one if there is one |
| Download.File.Pump | podagent/cp.py:566-580 | Every chunk is appended, and what is counted is what was written |
| Download.Resuming | podagent/cp.py:878-902 | The branch that appends a 206, with its pins and its refusals |
| Download.Restarting | podagent/cp.py:908-940 | The branch that starts over, with fresh pins and the check of the length |
| Download.Fetch | podagent/cp.py:838-959 | The three attempts: result, file and pins for every sequence of answers |
| DownloadSafety.AttemptKeeps | podagent/cp.py:868-947 | After every attempt the file is a prefix of the pinned version, of pinned length |
| DownloadSafety.ResumedDownloadNeverSplices | podagent/cp.py:828-959 | From a clean start, over any drops, short answers, restarts, 416s and tag changes, as long as no dropped answer leaves bytes past its span: what is left is a prefix of one version, and a return with a pinned length leaves exactly that version |
| DownloadSafety.DropsCostOnlyTheRest | podagent/cp.py:828-959 | For every cut point, a drop, then a second drop or a short answer, then the rest give the whole object, whatever the file held before |
| DownloadSafety.FailuresCostOnlyTheRest | podagent/cp.py:868-947 | So between a drop and the rest, or before the drop of a fresh file, does a failed request or any 4xx or 5xx but 416 |
| DownloadSafety.RestartsExactly | podagent/cp.py:868-912 | Exactly which answers to a resumption make the download forget file and pins, by status, encoding, tag, range and length |
| DownloadSafety.DistrustCostsOneAttempt | podagent/cp.py:868-947 | After any of them, or a torn full answer, nothing is left of the file and the next attempt can still return the whole object |
| DownloadSafety.CleanStartDecides | podagent/cp.py:843-844 | That holds against every fair server if and only if the start is clean |
| DownloadSafety.AttemptSafeExactly | podagent/cp.py:868-947 | One attempt keeps the file right for every object its server could have, 200 or 206, if and only if it keeps no bytes past its span |
| DownloadSafety.ExcessDecides | podagent/cp.py:828-959 | From any pinned state the rest of the download is safe, whatever comes later, if and only if the next answer keeps no excess |
| DownloadSafety.SecondAnswerDecides | podagent/cp.py:828-959 | After a dropped 200 a whole download is safe against every server if and only if the second answer keeps no excess |
| DownloadSafety.DroppedExcessIsKept | podagent/cp.py:893-902 | A dropped 206 keeps its excess, and the completed file is right exactly when the excess happened to be the object's bytes |
| Ranges.OnePartEach | podagent/cp.py:693-695 | In a partition every byte has exactly one part |
| Ranges.RangeBoundsPartition | podagent/cp.py:693-695 | The bounds are at most `width` non-empty consecutive parts that cover the object, all of the rounded-up size but the last |
| Ranges.StreamsPartition | podagent/driver_userspace.py:375-377 | The four parts partition the object exactly when it has at least four bytes |
| Ranges.StreamsAreEven | podagent/driver_userspace.py:375-377 | No part has more than one byte more than another |
| RangedFetch.ConnectsExactly | podagent/driver_userspace.py:283-293 | A worker goes on exactly with an unencoded 206 whose declared start, end and total are those it asked for and whose length, if given, is that of the range; any other answer fails the fetch unread |
| RangedFetch.PwriteAll | podagent/driver_userspace.py:264-270 | With short writes: everything is written at its offset, or a prefix of it and an error; nothing else changes |
| RangedFetch.WriteStaysInside | podagent/driver_userspace.py:277-311 | In every interleaving a write changes bytes of its worker's own part only |
| RangedFetch.SuccessIsTheWholeFile | podagent/driver_userspace.py:335-410 | In every interleaving, success means the file is the four verified bodies in order, and progress adds up to its length |
| RangedFetch.SuccessIsTheObject | podagent/driver_userspace.py:335-410 | With a server whose plain 206 answers carry the object's bytes from the start they themselves declare, success means the file is the object, whatever length was probed |
| RangedSuccess.EveryObjectCanBeFetched | podagent/driver_userspace.py:335-410 | Every object of at least four bytes has such a run that succeeds |
| OpChain.Sort | podagent/models.py:886-895 | The layered loop ends; the steps it is stuck on are exactly those that reach a real cycle, and otherwise there is a topological order |
| OpChain.Check | podagent/models.py:872-904 | Each refusal is raised exactly when it is true, in this order |
| OpChain.OrderedReachesNoCycle | podagent/models.py:886-895 | Nothing in a topological order reaches a cycle |
| OpChain.LeftoversAreCyclic | podagent/models.py:886-893 | Steps that all wait for each other are exactly those that reach a cycle |
| OpChain.ReadersFollowWriters | podagent/models.py:897-904 | In an accepted chain every producer read from is a listed need and comes earlier |
| Captions.WrapLines | podagent/captions.py:192-208 | Lines join to the block, several words on a line fit, no line breaks early, and no legal split is shorter |
| Captions.GreedyIsOptimal | podagent/captions.py:192-208 | No legal split into consecutive lines beats the greedy one |
| Captions.GreedyIsUnique | podagent/captions.py:192-208 | The greedy layout is the only one with these properties |
| Captions.WrapDecides | podagent/captions.py:218 | Its number of lines decides whether any legal split into two lines exists |
| Captions.GroupBlocks | podagent/captions.py:211-223 | Blocks join to the words, each has a legal split into two lines and no pause inside, each break is justified |
| Captions.GroupingIsUnique | podagent/captions.py:211-223 | Only one grouping has these properties |
| Keyframes.EasedStays | podagent/render.py:62-74 | Every easing starts at 0 and stays within [0, 1] |
| Keyframes.EasingsHaveTheirShapes | podagent/render.py:62-74 | Ease-in lies below the straight line and ease-out above it, mirrors of each other; ease-in-out below it up to the middle and symmetric; the cosine ramp mirrors as the cosine does |
| Keyframes.EasingsEnd | podagent/render.py:62-74 | Every easing ends at one |
| Keyframes.Piecewise | podagent/render.py:150-163 | The loop that builds the chain of conditionals from the last keyframe back |
| Keyframes.CompiledMeansTheCurve | podagent/render.py:77-96 | For increasing times the expression evaluates to the clamped, eased curve at every time |
| Keyframes.CurveHitsAndStays | podagent/render.py:77-96 | The curve hits every keyframe, is held outside, and stays between neighbours |
| Keyframes.CurveFollowsTheEasing | podagent/render.py:77-96 | Between two keyframes the compiled value is the one value plus the eased share of the difference, at the fraction of time passed |
| Keyframes.CompiledIsDefined | podagent/render.py:88-95 | For any times at all the expression never divides by zero |
| Keyframes.BumpValueAt | podagent/render.py:210-228 | The loop over the sorted breakpoints returns the value of the first pair that holds the time |
| Keyframes.TwinsAgree | podagent/render.py:166-228 | For increasing times the twin equals the evaluated expression at every time |
| Keyframes.TwinsNeedTheOrder | podagent/render.py:221-228 | For two breakpoints in any order the twins agree at every time if and only if the times increase or the values are equal |
| KeyframeTies.TwinsAgreeExactly | podagent/render.py:210-228 | For any number of breakpoints in time order, ties included, they agree at every time if and only if each tied group but a final one ends at its first value and a tie at the start is level |
| CropBuilders.AnimationPassesThroughKeyframes | podagent/render.py:77-110 | The animated crop is each keyframe's rectangle at its time, scaled to pixels |
| CropBuilders.MotionCropsAgree | podagent/render.py:99-120 | Up to the first keyframe's time the animated crop is the static one |
| CropBuilders.CropsAgree | podagent/render.py:190-244 | The CPU crop is the GPU crop at the first keyframe's time |
| CropBuilders.ZoomHasAFloor | podagent/render.py:178-183 | The zoom never falls below 1.001 |
| CropBuilders.ZoomMeans | podagent/render.py:178-183 | The zoom is the larger of 1.001 and the ramp raised by the punch, at every time |
| CropBuilders.CropFramesTheHead | podagent/render.py:190-207 | At every time the head and the eyes are at their shares of the window, and the window is the visible side divided by the zoom |
| CropBuilders.CropIsDefined | podagent/render.py:190-207 | No crop expression ever divides by zero |
| Pads.LexLosesNothing | podagent/accents.py:524 | Splitting a graph into pads and other text loses nothing |
| Pads.SubstitutionIsSimultaneous | podagent/accents.py:528-532 | The result, read back, is the old graph with every pad resolved once and all other text as it was |
| Pads.TaggingIsInjective | podagent/accents.py:548 | With underscore-free tags, equal tagged names have equal names and tags |
| Pads.OrphansAreErrors | podagent/render_onepass.py:80-83 | The error is raised exactly when an input pad was not allocated |
| Pads.MergedPadsAreTagged | podagent/render_onepass.py:79-85 | Every inner pad of the result comes from an inner pad of the fragment with the tag |
| Pads.MergedFragmentsShareNothing | podagent/render_onepass.py:75-85 | Fragments with different underscore-free tags share no inner pad, and none equals a merged name without a double underscore |
| PadChains.BuildChain | podagent/accents.py:552-563 | The loop that wires each accent to the one before it |
| PadChains.Compose | podagent/accents.py:556-563 | Two single-use graphs sharing only their link make a single-use graph |
| PadChains.PartSingleUse | podagent/accents.py:539-549 | Renaming keeps single use, between the given ends |
| PadChains.ChainsKeepSingleUse | podagent/accents.py:552-563 | Accents that use every pad once as output and once as input chain to such a graph |
| OriginCache.Cache.Lookup | podagent/infer_cliprank.py:317-322 | A hit returns the bytes of the url's latest put that fitted and makes it the most recent |
| OriginCache.Cache.Evict | podagent/infer_cliprank.py:333-335 | The loop keeps exactly the longest most recent part that fits |
| OriginCache.Cache.Store | podagent/infer_cliprank.py:324-335 | A put keeps exactly the longest most recent part that fits, with the exact byte count; an oversized one changes nothing |
| OriginCache.UseKeeps | podagent/infer_cliprank.py:317-335 | The items stay ordered by last use, each with the bytes of its latest put that fitted |

## Left out

- Field validation, job content, redaction, clock samples and timing fields of frames: a payload keeps its kind, its
  correlation and attempt ids and its boot and reopen flags.
- WebSocket, HTTP, TLS and threads themselves: which verdict or answer arrives, and which write succeeds, are inputs.
- A fault after the rename of the outbox file (`podagent/event_stream.py:403`): a write that raises is taken to have
  left the file unchanged, as the code's roll-backs assume.
- Waiters, delivery deadlines and retry sleeps: no wait appears in the model, only what a wake-up may find.
- The freshness of a random stream id: a restart picks an id not used before.
- `_reject_invalid_job`: its effects are the appends and the latch that `StreamRuns` already allows at any time.
- The acknowledgement-free test door of `_accept_job` beyond its flag.
- EventStream.EventStream.Requeue: leaves open in which order the inbox is handed out again.
- Grouping of fields: the four durable containers are one field of the class, the four latch variables another, and a
  parked GPU request is kept with the local values of its call.
- IntakeBarrier.ReceiptsPrecedeLaterAcks: assumes that jobs are read from the live connection only; a job that the
  reader of a lost connection takes in late breaks the order, as IntakeBarrier.LateReadReleasesEarly shows.
- IntakeBarrier: a job of one connection and an acknowledgement of another are not compared.
- CycleOutcome.CycleSettlesTheDecided: states a cycle into which nobody else appends or inserts; a cycle interleaved with
  other threads is a run of `StreamRuns`, for which the invariants hold but this exact outcome need not.
- RangedSuccess.EveryObjectCanBeFetched: gives runs in which each worker is sent its part in one chunk and writes it at
  once.
- The reader and intake threads of a connection and the four range workers are steps on values: their interleaving is
  modelled, not the updating of their local variables in place.
- The re-entrancy guard of `admission` and the reset used by tests.
- Waiting time between reading the clock and taking the ledger's lock: a request enters at the time it reads.
- Text of headers: a Content-Range is modelled as parsed, and an empty entity tag as a missing one.
- Downloads without a declared length, file copies, the multi-threaded ranged mode of `podagent/cp.py` (its failure is
  an input of the model), and exceptions other than request errors, which leave `download` without a return.
- DownloadSafety.DroppedExcessIsKept: follows three answers to their end; the exact conditions are those of
  DownloadSafety.AttemptSafeExactly, DownloadSafety.ExcessDecides and DownloadSafety.SecondAnswerDecides.
- The stall window and wall clock of the four-stream fetch: they may strike at any poll.
- Captions.WrapLines: measured widths are inputs, and optimality is stated for widths and gap that are not negative.
- Floating-point rounding: times, widths, memory and expression values are reals.
- The printed text of expressions and its parentheses: expressions are trees.
- Keyframes.TwinsNeedTheOrder: covers two breakpoints; of longer lists only those in time order have their exact
  condition, in KeyframeTies.TwinsAgreeExactly.
- Unicode letters and digits in pad names; the text of each accent, whose pads are taken to be properly written.
- The other op-chain validators (ports, retention), which check one step at a time.
