# Trainer verification

A Dafny model of the FfDL trainer, with proofs. The trainer keeps training jobs in Mongo: one record per job, a queue per
GPU type, a lease per queue, and a status history. Several trainer processes share them. Jobs that the rate limiter lets
pass are sent to LCM. `dafny verify dfyconfig.toml` checks everything.

The model has two levels.

* **Fine steps** (`Protocol` and the modules built on it). One action is one database operation, one clock tick or one
  call to LCM. Any number of trainers, creates, deletes and updates interleave; a crashed trainer takes no further step.
  `Homes`, `NoLoss`, `Losses`, `Leases`, `AtMostOnce`, `SoftDeletes`, `DatastoreSafety`, `Fifo`, `Overtaking`, `Admission`
  and `PullRounds` prove properties of every run, from an arbitrary well-formed database. `Counterexamples` gives concrete
  runs for what does not hold; `Steering` has the pieces that such runs are put together from.
* **Atomic requests** (`TrainerOps`, `TrainerRuns` and what follows). The code updates records by unlocked
  read-modify-write, so properties of records, history and gauge are stated with each request as one step.
  `TrainerResults`, `UsageGauge`, `PullTicks` and `TickProgress` prove properties of every run of such steps;
  `CreatedRecords` and `RecordFields` say, field by field, what one request leaves in records and history.
  `TrainerExamples` gives concrete requests for the conditions they need.

`Trainer`, `JobQueue` and `Repository` hold the classes: a service, queues and repositories that are updated in place, as
in the Go code. Every method is proved to do exactly what a specification function says; the results above are about those
functions. `Refinement` proves that each atomic request is a run of the fine-step protocol, and `RefinedRuns` that every run
of requests is one behaviour of the protocol from its initial state, so that the protocol's guarantees carry over.

`GpuLimits` and `Numerals`, `CreateRequests`, `Logs`, `DataFeed` and `Partitioning` model the limit setting, the validation
of creates, log streaming, and the two data feeding scripts.

What Mongo, LCM, the rate limiter and the training data service answer, random generators and clocks are parameters. Every
proof by induction is written out; automatic induction is switched off.

## What the code does not guarantee

The model follows the code where it differs from its comments or from what one would expect.

* **A job can be sent to LCM twice.** It depends on the stores of PENDING by pulls alone. Such a store is safe when its
  job has not been sent and no other goroutine has stored it as PENDING and is about to send it; a store that is not
  safe, and only such a store, lets the calls under way send a job twice (`AtMostOnce.StoreDeploysOnceIff`,
  `AtMostOnce.RunDeploysOnceIff`). A store that comes while its own lease is still there is safe
  (`AtMostOnce.FencedRunIsSafe`), and there are two ways for a trainer to see to that: no delete locks a queue and each
  store comes before its lease expires, or each store and each unlock does (`AtMostOnce.PullersDeployOnce`,
  `AtMostOnce.TimelyRunsDeployOnce`). Stores in time are not enough with deletes: the owner of a lease is a queue
  object, not a goroutine (trainer/queue.go:101, 273), so a delete that overran its lease can unlock a pull of the same
  trainer, and another trainer gets in (`Counterexamples.LateSiblingUnlockDeploysTwice`). Without deletes, a late store
  can send a job twice (`Counterexamples.LateStoreDeploysTwice`).
* **A QUEUED job can be lost**, in exactly three ways: a pull looks for its record between the create's enqueue and its
  store, in vain, and drops the entry; a trainer that dequeued it by mistake cannot put it back (the fallback at
  trainer/trainer_impl.go:638 tests `err != nil` where it needs the record); a delete takes its entry and then cannot
  delete the record. `Losses.QueuedJobLostIff` proves that these and only these lose a job, and
  `Losses.StrandedNeverSubmitted` that a lost job which no pull has in view is not submitted in any continuation: it can
  still be updated or deleted, but it does not run. Each way has a concrete run:
  `Counterexamples.PullInCreateGapLosesJob`, `Counterexamples.FailedReenqueueLosesJob`,
  `Counterexamples.FailedDeleteLosesJob`.
* **A create can be overtaken** by another create for its queue that checks the size between its own check and its
  insert, or its call to LCM: `Counterexamples.InterruptedCreateOvertaken`. While sections keep to their leases, all
  read one clock and size queries succeed, no other interruption does harm. `Fifo.NoOvertaking` proves the order for
  runs in which no create checks a queue while another for that queue is pending, and `Overtaking.CreateKeepsOrderIff`
  that each check that breaks this rule makes it possible to send two jobs in the wrong order.
* **A deleted record can come back**, by a pull that stores PENDING or an update that stores a record, both having read
  it before the delete; and by nothing else (`SoftDeletes.StaysDeletedIff`). A deleted job can still be sent exactly if
  a goroutine has it in hand at that moment (`SoftDeletes.SettledSentIff`). `Counterexamples.DeletedJobIsSent` is such a
  run, with every section in its lease.
* **A delete can look in the wrong queue.** Create picks the queue before GPU defaults are applied, delete after.
  `CreateRequests.DeleteCleansQueueIff` says exactly when the entry is left behind, and
  `CreateRequests.ZeroGpuRequestSwitchesQueue` is such a request.
* **A failed deployment is not retried.** The job is left PENDING, its entry is dropped at the next pull
  (`PullTicks.FailedDeployNotRetried`), and it is never QUEUED and never sent again
  (`TrainerResults.FailedDeployNeverRetried`).
* **A soft delete keeps the image location** of a job that had no terminal update (`TrainerResults.DeleteErasesIff`,
  `TrainerExamples.DeleteKeepsImage`), although the comment at trainer/repository.go:222 speaks of non-sensitive details
  only.
* **The status history misses a status** whose update stored its record and could not read it back, and a later update
  with the same status does not mend that (`TrainerResults.HistoryCompleteIff`,
  `TrainerExamples.FailedReadBackLeavesGap`).
* **The usage gauge** counts one learner on create and all of them on a terminal update, which is reported before the
  record is stored, and it does not count a create that fails after leaving a record
  (`TrainerExamples.TwoLearnersLeaveGaugeOff`). `UsageGauge.GaugeShowsOutstanding` says exactly which requests make it
  wrong. Jobs deleted without a terminal update stay in it.
* The comment at trainer/trainer_impl.go:1003 says a repeated halt returns an error; the code returns neither a response
  nor an error. `TrainerOps.Update` answers `Success(None)`, and the halt request answers HALTED, even for a COMPLETED
  job (`TrainerExamples.HaltOfCompletedJob`).
* An update that carries QUEUED is accepted. `TrainerRuns.UpdateOkIff` says exactly when it leaves a record that a pull
  cannot submit.
* Somebody who follows the log of a job that has not begun is told so only when a poll comes exactly 15 seconds after the
  last report (trainer/trainer_impl.go:1595): hardly ever, and never when the polls are two seconds apart sharp
  (`Logs.SilentIff`, `Logs.SharpPollsAreSilent`).
* Peek reports no error other than an empty queue: any other failure is an empty id.
* The two readers of `gpu.limits` differ when a name occurs twice: the scan takes the first entry, the map the last
  (`GpuLimits.RepeatedNameDisagrees`).

## Model

| member | source | states |
|---|---|---|
| NoLoss.NoQueuedJobLost | trainer/trainer_impl.go:542-675 | in every reachable state of any interleaving, leases overrun or not, an undeleted QUEUED record has its id in the queue, in the hand of a trainer about to put it back, in a delete that took its entry, or among the ids stranded by one of three named steps |
| NoLoss.NoQueuedJobStranded | trainer/trainer_impl.go:586-654 | a QUEUED job that no step of the run has stranded is in the queue, in hand, or being deleted |
| Losses.QueuedJobLostIff | trainer/trainer_impl.go:586-654 | with each job queued once at the start, a live QUEUED job is abandoned (no entry, nobody about to put one back, no delete under way) if and only if a step of the run was one of the three that strand it |
| Losses.StrandedNeverSubmitted | trainer/trainer_impl.go:586-626 | a stranded job that no pull has peeked or read is not submitted in any continuation of the run, and a QUEUED one is never sent to LCM |
| Losses.LostJobNeverRuns | trainer/trainer_impl.go:586-626 | a QUEUED stranded job with nobody at work has no entry and is never sent, however the run goes on |
| Counterexamples.PullInCreateGapLosesJob | trainer/trainer_impl.go:854-880 | a concrete run from a well-formed database in which a pull between enqueue and store leaves a live QUEUED record stranded, with no entry and nobody at work |
| Counterexamples.FailedReenqueueLosesJob | trainer/trainer_impl.go:632-654 | the same through an overrun pull that dequeues the next job and cannot put it back |
| Counterexamples.FailedDeleteLosesJob | trainer/trainer_impl.go:1265-1320 | the same through a delete that takes the entry and fails to delete the record |
| AtMostOnce.StoreDeploysOnceIff | trainer/trainer_impl.go:2340-2369 | after a run of safe stores, a further store of PENDING leaves no continuation that sends a training twice, be it with further safe stores or with none, if and only if it is safe: its job has not been sent and nobody else is about to send it |
| AtMostOnce.RunDeploysOnceIff | trainer/trainer_impl.go:2340-2369 | the stores of a run are all safe if and only if at no point of it the calls under way can send a training twice |
| AtMostOnce.SafeDeploysOnce | trainer/trainer_impl.go:2340-2369 | a run of safe stores sends each training to LCM at most once, however far leases overrun |
| AtMostOnce.FencedRunIsSafe | trainer/trainer_impl.go:2340-2369 | stores that happen while the storing pull's own lease is in the lock collection are safe |
| AtMostOnce.FencedDeploysOnce | trainer/trainer_impl.go:2340-2369 | when each store of PENDING happens while the storing pull's own lease is in the lock collection, no training is sent to LCM twice, over every interleaving; Deploy, Dequeue and Unlock may overrun |
| AtMostOnce.PullersDeployOnce | trainer/trainer_impl.go:604-634 | when no delete locks a queue, it is enough that PENDING is stored before the lease expires |
| AtMostOnce.TimelyRunsDeployOnce | trainer/trainer_impl.go:551-561 | with deletes, it is enough that PENDING is stored and every queue unlocked before the lease expires |
| Counterexamples.LateSiblingUnlockDeploysTwice | trainer/queue.go:265-280 | a concrete run in which every PENDING is stored in time and a job is still sent twice, because a delete of the same trainer unlocks late |
| Counterexamples.LateStoreDeploysTwice | trainer/trainer_impl.go:2347-2369 | a concrete run of pulls alone in which a late store of PENDING sends a job twice |
| Leases.LeaseInvariant | trainer/queue.go:90-96 | the lock collection never holds two leases of one queue, in any run |
| Leases.Fencing | trainer/queue.go:265-280 | a lease disappears only by expiry or by an Unlock of its own trainer; another trainer's late Unlock never removes it |
| Leases.SectionsNeverOverlap | trainer/queue.go:232-280 | when no Unlock removes a sibling's lease, two threads between Lock and Unlock of one queue and within their leases are the same thread |
| Leases.TimelyUnlocksAreOwn | trainer/queue.go:265-280 | when every section unlocks before its lease expires, no Unlock removes another thread's lease |
| Leases.PullersUnlockTheirOwn | trainer/trainer_impl.go:498-521 | the same holds, however late the unlocks, when only the one pulling goroutine per trainer and queue takes the lock |
| Fifo.NoOvertaking | trainer/trainer_impl.go:576-634 | with sections in their leases, one clock, successful size queries, and no create checking a queue while another create for that queue is pending, jobs of one queue reach LCM in creation order, directly submitted ones included, and each once |
| Overtaking.CreateKeepsOrderIff | trainer/trainer_impl.go:822-894 | after such a run, a create's size check leaves all continuations of that kind with the jobs of each queue sent in creation order if and only if no other create for its queue is pending |
| Counterexamples.InterruptedCreateOvertaken | trainer/trainer_impl.go:822-894 | a concrete run with all sections in their leases, one clock and successful size queries, in which a younger job reaches LCM before an older one of its queue |
| Fifo.NeverDequeuesAnother | trainer/trainer_impl.go:632-654 | in the runs of `Fifo.NoOvertaking` the branch for dequeuing another job than the one submitted is never taken, although enqueues are not locked |
| PullRounds.RoundsBounded | trainer/trainer_impl.go:672-675 | without creates, one pulling goroutine submits at most as many jobs as there were QUEUED records at the start, whatever the other trainers do |
| Admission.QueueBounded | trainer/trainer_impl.go:822-857 | with limit L > 0 and at most k goroutines about to insert, the queue never holds more than max(initial size, L - 1 + k) jobs, failed size queries included |
| DatastoreSafety.SubmittedRecordsResolve | trainer/trainer_impl.go:2103-2113 | in every reachable state, the record that a pull or a create submits still has the data store its first input names |
| Homes.HomeInvariant | trainer/trainer_impl.go:822-857 | every entry, and every thread working on a job, stays with the queue its creator chose |
| Refinement.RoundRefinesProtocol | trainer/trainer_impl.go:542-675 | an atomic round of pulling is a run of the protocol with every store of PENDING fenced: same records, entries and deployments, nobody else's place changed, no lease left unless Unlock failed |
| Refinement.DeleteRefinesProtocol | trainer/trainer_impl.go:1199-1330 | so is a delete |
| Refinement.CreateRefinesProtocol | trainer/trainer_impl.go:822-894 | so is a create |
| Refinement.UpdateRefinesProtocol | trainer/trainer_impl.go:981-1138 | an update that does not carry QUEUED is at most one write of the protocol |
| RefinedRuns.RunRefinesProtocol | trainer/trainer_impl.go:542-1393 | every run of requests from a persisted database, ids never handed out twice, is one fenced behaviour of the protocol from an initial state that shows the database, to a state that shows the database after the run, with nobody at work |
| RefinedRuns.StateOfIsInitial | trainer/repository.go:123-151 | a persisted database with its entries in order and every QUEUED job queued gives an initial state of the protocol |
| RefinedRuns.RunsDeployOnce | trainer/trainer_impl.go:2340-2388 | so no run of requests sends a training to LCM twice |
| RefinedRuns.RunsKeepEntries | trainer/trainer_impl.go:586-654 | and after any run a QUEUED job has its queue entry unless a delete of it failed |
| PullTicks.TickTakesPrefix | trainer/trainer_impl.go:542-675 | the jobs one tick sends to LCM are the first k of the queue in order, each once; all were QUEUED before and none is after |
| TickProgress.TickStops | trainer/trainer_impl.go:563-675 | a tick whose last round was answered throughout, rate limiter included, ended on an empty queue, a head without a name, a head without a QUEUED record, which it drops, or one the rate limiter holds back |
| TickProgress.TickSendsFront | trainer/trainer_impl.go:542-675 | a tick in which everything answers sends exactly the longest front of the queue that has names and QUEUED records, all different, and takes it off the queue, unless the rate limiter holds one of them back; each round but the last sends one job |
| TickProgress.TickEmptiesQueue | trainer/trainer_impl.go:672-675 | so one tick sends and removes the whole queue when all of it can be sent and nothing is held back |
| RecordFields.RoundMoves | trainer/trainer_impl.go:586-675 | which rounds send the head, which take its entry off, stale or sent, and which go on, for every combination of answers |
| RecordFields.RoundSetsFields | trainer/trainer_impl.go:611-626 | the record a round stores differs from the one it read only in the status PENDING and the zone the rate limiter gave, empty if it could not be reached |
| RecordFields.RoundTellsHistory | trainer/trainer_impl.go:660-670 | a round adds PENDING, the time and the record's message and error code to the history exactly if LCM took the job |
| PullTicks.TickEnds | trainer/trainer_impl.go:672-675 | a tick has at most one round more than there are QUEUED records |
| PullTicks.RoundShrinks | trainer/trainer_impl.go:655-674 | every round that ends in the recursive call makes one QUEUED record fewer |
| PullTicks.OnlyAllowedRoundsGoOn | trainer/trainer_impl.go:613-674 | every round of a tick but the last had its job let through by the rate limiter, so while the limiter cannot be reached a tick has one round |
| PullTicks.FailedDeployNotRetried | trainer/trainer_impl.go:622-626 | a job whose deployment failed is left PENDING; the next round to see its entry removes the entry, sends nothing and leaves the job PENDING |
| TrainerResults.FailedDeployNeverRetried | trainer/trainer_impl.go:586-626 | such a job is PENDING after the round, and over any run of requests from there never QUEUED and never sent to LCM again |
| JobQueue.TrainingJobQueue.Enqueue | trainer/queue.go:110-131 | a successful insert puts the job last in its queue, stamped with the clock; other queues are untouched |
| JobQueue.TrainingJobQueue.Peek | trainer/queue.go:161-180 | the id of the first job; an error only for an empty queue, and an empty id when the query fails |
| JobQueue.TrainingJobQueue.Dequeue | trainer/queue.go:133-159 | removes and returns the first job exactly when both queries succeed and there is one; the rest keeps its order |
| JobQueue.TrainingJobQueue.Delete | trainer/queue.go:182-207 | removes one entry of the job, the first; reports whether there was one; changes nothing otherwise |
| JobQueue.TrainingJobQueue.Size | trainer/queue.go:209-224 | counting the documents of this queue's collection gives the length of the queue that Enqueue, Dequeue and Delete act on; a failed query is an error |
| JobQueue.TrainingJobQueue.Empty | trainer/queue.go:226-230 | whether there are none; a failed query is an error |
| JobQueue.TrainingJobQueue.Lock | trainer/queue.go:232-263 | on success the one lease of the queue is ours and runs for 60 seconds; failure takes 15 attempts and 75 seconds; a lease taken no later than the call, with no competitor, is taken over by the 14th attempt; a lease that has not expired is not taken away by the first attempt, nor by a later one when nobody else takes it away |
| JobQueue.TrainingJobQueue.Unlock | trainer/queue.go:265-280 | removes this trainer's lease of this queue and nobody else's; an error when there is none |
| JobQueue.TakeoverAtFourteenth | trainer/queue.go:34-40 | attempts exactly 5 seconds apart find a lease taken at the start expired from the 14th attempt on, and not before |
| JobQueue.EarliestIsFirst | trainer/queue.go:143-156 | sorting by submission time finds the entry that was inserted first |
| Repository.TrainingsRepository.Store | trainer/repository.go:123-139 | inserts a record without `_id`, replaces the document of one with `_id`, fails on an unknown `_id` |
| Repository.TrainingsRepository.Find | trainer/repository.go:141-151 | the undeleted document of the training, or not found |
| Repository.TrainingsRepository.FindTrainingStatusID | trainer/repository.go:168-185 | the status of the visible record whenever the query succeeds and there is one; not found when there is none |
| Repository.TrainingsRepository.Delete | trainer/repository.go:219-272 | replaces the visible document by its deleted remains and touches no other; fails and changes nothing when there is none; of a consistent collection the remains are spelled out field by field |
| Repository.StoreIsOneWrite | trainer/repository.go:123-139 | storing a record read before keeps one document per training and is one write of the protocol |
| Repository.DeleteIsOneWrite | trainer/repository.go:219-272 | so does a soft delete, after which the training is not found |
| Repository.FindSeesLiveQueued | trainer/repository.go:277-285 | Find returns a QUEUED record exactly when the protocol's Find does |
| Repository.JobHistoryRepository.RecordJobStatus | trainer/repository.go:300-313 | afterwards some entry agrees with the given one on the training and on all its non-empty fields; it is added, at the end, exactly if no earlier one does |
| Repository.JobHistoryRepository.GetJobStatusHistory | trainer/repository.go:315-325 | the entries of the training, or all of them for an empty id, each as often as recorded and sorted by timestamp; none when the query fails |
| Repository.HistoryIsIdempotentUpsert | trainer/repository.go:300-313 | whatever is recorded later, old entries neither change nor vanish, some entry agrees with the recorded one, and recording it again changes nothing |
| Repository.RecordTells | trainer/repository.go:300-313 | an event is appended exactly if no entry has its training and each of its timestamp, status, message and error code that is not empty; otherwise nothing changes |
| Repository.SelectedAsOften | trainer/repository.go:315-325 | an entry is selected as often as it was recorded |
| Repository.NotAfterIff | trainer/repository.go:323 | timestamps are in ascending order of strings: a beginning first, else the smaller character at the first difference |
| Repository.DeleteStrips | trainer/repository.go:219-272 | what a soft delete leaves in place of the visible document: identity, owner, job id, resources, framework, status, error code and the five times as they were; no message, metrics, zone, inputs, outputs or data stores |
| Trainer.TrainerService.constructor | trainer/trainer_impl.go:302-345 | there is a queue for each resource type with a positive limit, and the ANY queue |
| Trainer.QueueIffLimited | trainer/trainer_impl.go:302-345 | with each type limited once, there is a queue of a name exactly if a resource type with that normalised name has a positive limit |
| Trainer.TrainerService.GetTrainingJob | trainer/trainer_impl.go:919-954 | the visible record if it is the user's own; not found, permission denied or unavailable otherwise |
| Trainer.TrainerService.UpdateTrainingJob | trainer/trainer_impl.go:972-1138 | database, gauge and answer afterwards are those of `TrainerOps.Update`, for any status and every outcome of its four database calls; the records stay fit to be handled exactly if it did not store QUEUED on one whose input no longer resolves |
| Trainer.TrainerService.UpdateTrainingJobPostLock | trainer/trainer_impl.go:981-1138 | the same, for any status |
| Trainer.TrainerService.UpdateRecord | trainer/trainer_impl.go:999-1039 | the fields set in place give the record of `TrainerOps.Updated`, which `RecordFields.UpdatedSets` spells out |
| Trainer.TrainerService.ReportUpdate | trainer/trainer_impl.go:1042-1078 | a terminal update takes Gpus * max(1, Learners) off the gauge |
| Trainer.TrainerService.HaltTrainingJob | trainer/trainer_impl.go:1332-1393 | kills the job and applies a HALTED update, answering job id, user and HALTED whether or not the update was ignored; a failed kill changes nothing |
| Trainer.TrainerService.DeleteTrainingJob | trainer/trainer_impl.go:1228-1330 | entries, records and answer are those of `TrainerOps.Delete` on the queue of the stored GPU type; one Unlock for a successful Lock |
| Trainer.TrainerService.DeleteJobFromQueue | trainer/trainer_impl.go:1199-1226 | removes the job's entry under the lock; leaves no lease of this trainer unless Unlock failed |
| Trainer.TrainerService.SubmitJobToLCM | trainer/trainer_impl.go:2340-2388 | stores PENDING before it deploys, and does nothing further after the first failure |
| Trainer.TrainerService.CreateTrainingJob | trainer/trainer_impl.go:677-917 | database, gauge and answer afterwards are those of `CreateRequests.CreateJob`, which `CreatedRecords` spells out |
| Trainer.TrainerService.QueueOrSubmit | trainer/trainer_impl.go:822-917 | the same from the size check on, by way of the queue or straight to LCM |
| Trainer.TrainerService.EnqueueAndStore | trainer/trainer_impl.go:854-880 | the entry goes in before the record; a failed enqueue stores the record as FAILED |
| Trainer.TrainerService.PullRound | trainer/trainer_impl.go:542-671 | one round does what `TrainerOps.Round` says, with one Unlock for a successful Lock on every path, so that no lease of the queue is left when both succeed, also where the round ends in the recursive call; and the lock is had in a quiet database |
| Trainer.TrainerService.PullJobFromQueue | trainer/trainer_impl.go:542-675 | the whole tick ends, is a tick of `PullTicks.IsTick` with the effect of `PullTicks.Pull` for the given answers, to which the results of `TickProgress` apply; in a quiet database every Lock succeeds |
| TrainerOps.Updated | trainer/trainer_impl.go:999-1039 | an update keeps id, owner and resources; a terminal one leaves no data stores and no image location, any other leaves both alone |
| RecordFields.UpdatedSets | trainer/trainer_impl.go:1007-1039 | the record of an update: status, message and error code of the request, the one time that goes with the status, and the rest as it was but for what an end erases |
| RecordFields.UpdateSetsFields | trainer/trainer_impl.go:981-1086 | read back after the update, the record has exactly these fields and no other record is touched, if the update found a record of its user, is no halt of an ended job, and was stored; otherwise no record changes |
| RecordFields.UpdateTellsHistory | trainer/trainer_impl.go:1115-1135 | an update stored and read back tells the history its status, time, message and code if the status is new, and every time if it is PROCESSING; other updates leave the history alone |
| RecordFields.UpdateResponds | trainer/trainer_impl.go:981-1138 | not found, permission denied, unavailable, the empty answer to a halt of an ended job, or success exactly if stored and read back |
| RecordFields.HaltSetsFields | trainer/trainer_impl.go:1377-1390 | a halt that gets through leaves HALTED, the message "Halted by user", the code 0 and the time, in record and history |
| RecordFields.HaltResponds | trainer/trainer_impl.go:1332-1393 | what a halt answers in every case; a failed kill and a halt that may not be change nothing |
| RecordFields.DeleteRequestStrips | trainer/trainer_impl.go:1228-1325 | a delete succeeds exactly for the owner of a visible record with the queries answered, answers the job id, strips that record and touches no other; a failed one changes no record |
| RecordFields.DeleteTakesEntry | trainer/trainer_impl.go:1199-1275 | the delete of a QUEUED job takes one of its entries off the queue it looks in if there is one and the lock and both queries succeed, and no entry otherwise |
| TrainerOps.FindDatastore | trainer/trainer_impl.go:1983-1990 | a data store with that id, or none exactly if there is none |
| TrainerRuns.StepOk | trainer/repository.go:219-285 | every request keeps one document per training, each with the parts the handlers dereference |
| TrainerRuns.UpdateOkIff | trainer/trainer_impl.go:1007 | an update leaves every record fit to be handled if and only if it does not store QUEUED on a record whose first input has lost its data store |
| TrainerResults.DocumentsConserved | trainer/repository.go:123-151 | over any run every training keeps exactly one document, in its place, and a deleted document never changes |
| TrainerResults.DeletedForever | trainer/repository.go:219-285 | over any run of atomic requests a deleted training stays invisible and is never sent to LCM again |
| SoftDeletes.StaysDeletedIff | trainer/repository.go:123-139 | in the interleaved runs, a deleted record stays deleted from some point on if and only if no later step is a pull's store of PENDING for it or an update that stores it undeleted |
| SoftDeletes.SettledSentIff | trainer/trainer_impl.go:604-626 | a job whose record is deleted or no longer QUEUED can be sent to LCM in some continuation if and only if a pull has found it and not sent it yet, or somebody has stored it as PENDING and not sent it yet |
| Counterexamples.DeletedJobIsSent | trainer/trainer_impl.go:1199-1320 | a concrete run, every section in its lease, in which a delete that gets no lock falls between a pull's read and its store: the record comes back as PENDING and the job is sent |
| TrainerResults.DeletedRequestsFailForever | trainer/trainer_impl.go:919-1393 | after a delete, at any later time, get, update, halt and delete of the training fail and change nothing |
| TrainerResults.StaleEntriesDrain | trainer/trainer_impl.go:586-609 | however many entries at the front of a queue belong to missing, deleted or no longer QUEUED jobs, that many rounds remove exactly these, in order, and send nothing |
| TrainerResults.TerminalErasurePersists | trainer/trainer_impl.go:1013-1021 | once a COMPLETED, FAILED or HALTED update is stored, the record has neither data stores nor image location in any later state |
| TrainerResults.DeleteErasesIff | trainer/repository.go:222-266 | a soft delete always drops the data stores, and leaves no image location exactly if there was none before |
| TrainerExamples.DeleteKeepsImage | trainer/repository.go:232-252 | a concrete soft delete of a PENDING job that keeps the image location |
| TrainerResults.HistoryIsComplete | trainer/trainer_impl.go:1115-1135 | as long as no request stores a status new to the history and then fails to read the record back or to write the history, a live record in HALTED, DEPLOY, DOWNLOADING, PROCESSING, STORING or COMPLETED has a history entry with that status, although same-status updates other than PROCESSING write none |
| TrainerResults.HistoryCompleteIff | trainer/trainer_impl.go:1086-1135 | a request breaks that if and only if it is such a request |
| TrainerExamples.FailedReadBackLeavesGap | trainer/trainer_impl.go:1093-1097 | a concrete update that leaves such a gap, which the next update with the same status does not close |
| TrainerResults.HaltsOfEndedJobChangeNothing | trainer/trainer_impl.go:1003-1005 | any number of halts of an ended job leaves records, history and gauge as they are |
| TrainerExamples.HaltOfCompletedJob | trainer/trainer_impl.go:1378-1390 | a halt of a COMPLETED job answers HALTED and changes nothing |
| UsageGauge.GaugeAccounts | trainer/trainer_impl.go:911-914 | over any run the gauge of a (user, GPU type, framework, version) moves by the Gpus of successful creates less Gpus * max(1, Learners) of the terminal updates reported |
| UsageGauge.GaugeStaysExactIff | trainer/trainer_impl.go:1042-1078 | from a state in which each gauge is the sum of the Gpus of the jobs not closed, a request leads to such a state again, its reported job closed, if and only if it is neither a failed create that leaves a record of a job with GPUs nor a reported end of such a job that has several learners or is closed already |
| UsageGauge.GaugeShowsOutstanding | trainer/trainer_impl.go:1042-1078 | so over any run from such a state the gauges are exact after every request if and only if none is of these kinds |
| TrainerExamples.TwoLearnersLeaveGaugeOff | trainer/trainer_impl.go:1057-1078 | a concrete run, create and failure of a job of two learners, after which the gauge is -1 |
| CreateRequests.ValidateRequest | trainer/trainer_impl.go:1880-1981 | accepts exactly the requests with user, named model, supported framework, zip content, command, one input, and data stores that are complete and reachable for every input and output |
| CreateRequests.ValidateDatastores | trainer/trainer_impl.go:1962-1979 | true exactly if every name refers to such a data store |
| CreateRequests.Defaulted | trainer/trainer_impl.go:2264-2285 | after the defaults a job has no GPUs exactly if its type is the CPU type, and its type is not empty |
| CreateRequests.QueuesAgreeIff | trainer/trainer_impl.go:699-712 | create and delete compute the same queue exactly if an explicit condition on the request and the existing queues holds |
| CreateRequests.ZeroGpuRequestSwitchesQueue | trainer/trainer_impl.go:699-712 | a request for K80s with no GPUs is queued with the K80 jobs and deleted from the CPU queue |
| CreateRequests.DeleteCleansQueueIff | trainer/trainer_impl.go:1273 | a delete of a QUEUED job with everything answering leaves no entry behind exactly under that condition |
| CreateRequests.Built | trainer/trainer_impl.go:808-820 | an accepted request gives a QUEUED record whose input resolves; `CreatedRecords.CreateRoundTrip` says what else is in it |
| CreatedRecords.CreateRoundTrip | trainer/trainer_impl.go:708-880 | after a create the record is found with the request's owner, model, data stores, input, output, metrics, learners and submission time, its resources after defaults, and QUEUED, PENDING or FAILED with the text and code that go with it; its owner gets it and nobody else does; no other record is touched; a create that succeeds leaves a record |
| CreatedRecords.CreateResponds | trainer/trainer_impl.go:677-917 | which creates succeed, which are invalid and which find the queue full, for every combination of answers; one that is not let in changes nothing |
| CreatedRecords.CreatePlaces | trainer/trainer_impl.go:822-894 | behind other jobs a create appends one entry stamped with the present time, on an empty queue it sends the job |
| CreatedRecords.CreatedCanRun | trainer/trainer_impl.go:1880-1981 | a create leaves no record without owner or framework, with other than one input or more than one output, or with a data store that is incomplete or cannot be reached |
| CreatedRecords.TypesOffered | trainer/trainer_impl.go:695-707 | with each type limited once, a job may name no type or one whose limit is not 0; any other create is refused and changes nothing |
| GpuLimits.TransformIsIdempotent | trainer/queue.go:292-295 | normalising a resource name twice is normalising it once |
| GpuLimits.SameNameIff | trainer/queue.go:292-295 | two names are the same exactly if they differ only in case and in which of `-`, `.` and `_` they use |
| GpuLimits.UnchangedIff | trainer/queue.go:292-295 | normalising changes exactly the names with small letters, `-` or `.` |
| GpuLimits.RestIgnored | trainer/trainer_impl.go:2460-2479 | what follows a second `=` in an entry is ignored |
| Numerals.ParseIntIff | trainer/trainer_impl.go:2462 | a text reads as a number exactly if it is an optional sign, zeros and the decimal numeral of it, within 64 bits |
| GpuLimits.GetGpuLimitByType | trainer/trainer_impl.go:2457-2470 | the limit of the first entry with that normalised name, 0 if there is none or it does not parse |
| GpuLimits.GetGpuMapFromConfig | trainer/trainer_impl.go:2473-2485 | an error exactly if an entry does not parse, otherwise the map built from all entries in order |
| GpuLimits.MapHoldsLast | trainer/trainer_impl.go:2473-2485 | that map holds, for every name, the value of its last entry |
| GpuLimits.ReadersAgree | trainer/trainer_impl.go:2457-2485 | on every setting of well-formed entries with distinct normalised names both readers give each type its own limit and 0 to all others |
| GpuLimits.ReadersAgreeIff | trainer/trainer_impl.go:2457-2485 | on every setting that parses they agree on a type exactly if its first and last entry have the same value |
| GpuLimits.NamedTwice | trainer/trainer_impl.go:2457-2485 | on any setting of two entries with the same normalised name the scan gives the first limit and the map the second |
| GpuLimits.RepeatedNameDisagrees | trainer/trainer_impl.go:2457-2485 | on `K80=1,k80=2` the scan reads 1 for K80 and the map 2 |
| Logs.GetTrainedModelLogs | trainer/trainer_impl.go:1614-1692 | after the lines about waiting, what is sent is always a prefix of the growing log; without an error it is all of it; with follow it ends without error only for a finished or missing job; with reliable services the streaming fails only when the context runs out |
| Logs.WaitUntilJobStart | trainer/trainer_impl.go:1573-1612 | without follow nothing happens; with it polling, two seconds apart or more, ends with the job begun, or at the first poll after ten minutes, or when the record cannot be read; when sending works the client is told exactly by the polls that come 15 seconds after the report before |
| Logs.SilentIff | trainer/trainer_impl.go:1594-1605 | the client is told nothing unless some poll comes exactly 15 seconds after the start |
| Logs.SharpPollsAreSilent | trainer/trainer_impl.go:1594-1607 | it is told nothing when polls are two seconds apart sharp |
| Logs.StreamLogs | trainer/trainer_impl.go:1629-1691 | the streaming itself: prefix of the log, without gap or repeat, page by page |
| Logs.IsLearningFinished | trainer/trainer_impl.go:1547-1567 | whether the job is missing, COMPLETED, FAILED, HALTED or STORING |
| Logs.FinishedIff | trainer/trainer_impl.go:1547-1587 | that is a terminal status or STORING; a job that has begun and is not finished is in DEPLOY, DOWNLOADING or PROCESSING |
| DataFeed.DataSet.NextBatch | etc/examples/tf-model/input_data.py:98-120 | images and labels stay the original pairs in one common arrangement; the batch and the counters are those of the step function; with fake data the batch is copies of one example and nothing changes |
| DataFeed.NoRepeatsInEpoch | etc/examples/tf-model/input_data.py:98-120 | over any run, with any batch sizes, what one epoch has served is the beginning of a permutation, so no example comes twice |
| DataFeed.EpochsCompleted | etc/examples/tf-model/input_data.py:98-120 | with a constant batch size b <= n, k >= 1 calls complete (k - 1) div (n div b) epochs |
| Partitioning.DataPartitioner.constructor | etc/examples/pytorch-launch-dist/train_dist_launcher.py:37-52 | the partitions are the successive slices of the shuffled index list |
| Partitioning.DataPartitioner.Use | etc/examples/pytorch-launch-dist/train_dist_launcher.py:54-55 | the examples of a rank exist in the data, and no other rank reads any of them |
| Partitioning.CutsCoverList | etc/examples/pytorch-launch-dist/train_dist_launcher.py:44-52 | the partitions followed by what is left over are exactly the shuffled list, for any fractions |
| Partitioning.RanksReadDisjointData | etc/examples/pytorch-launch-dist/train_dist_launcher.py:79-103 | ranks that shuffle with the same seed read disjoint examples, all in range |
| Partitioning.PartLenTruncates | etc/examples/pytorch-launch-dist/train_dist_launcher.py:49 | a length is the exact share without its fraction, toward 0 |
| Partitioning.RanksReadTheirShares | etc/examples/pytorch-launch-dist/train_dist_launcher.py:44-55 | with fractions that are not negative and add up to at most 1, rank k reads its exact length, next after the ranks before it; when they add up to 1 no more examples are left over than there are ranks |

## Left out

- Logs.GetTrainedModelLogs: the four-minute context is a number of queries.
- CreateRequests.ValidateRequest: the zip check, the table of frameworks and the data store connections are answers, as are uploads; lower case is ASCII.
- RefinedRuns.RunRefinesProtocol: its runs carry no update to QUEUED, because `GetStatus` (client/training_status.go:112-130) never produces QUEUED.
- Fifo.NoOvertaking: assumes that no create checks a queue while another create for it is pending, because the younger one can overtake otherwise (Overtaking.CreateKeepsOrderIff).
- Losses.QueuedJobLostIff: assumes that the persisted queues hold each job once.
- DataFeed.DataSet.NextBatch: a data set constructed with fake data, which has 10000 examples whatever its images, is not part of this model.
- The sorted and limited list queries FindAll and FindCurrentlyRunningTrainings.
- All trainers read one clock, though entries and leases may be stamped with an earlier reading than their insert.
- AtMostOnce.TimelyRunsDeployOnce: asks for timely unlocks besides timely stores, because the property fails without them; `AtMostOnce.StoreDeploysOnceIff` is the exact condition.
- Partitioning.RanksReadTheirShares: fractions are exact; computed in floating point a length may differ by one. `Partitioning.RanksReadDisjointData` holds for any lengths.
- GpuLimits.TransformIsIdempotent: ASCII only.
- Gpus are exact rationals; float32 rounding is not modelled.
- The `Deleted` test after Find in pullJobFromQueue (trainer/trainer_impl.go:598-603), which Find never lets through.
- The fallback after a failed re-enqueue: its FAILED update is never reached with a record, so the model only strands the job.
- Mongo sessions, gRPC, LCM, TDS and rate limiter clients: their outcomes are parameters.
- Object storage, archives and zip streaming: library calls.
- The environment variables of a job configuration and the manifest converters: field copying.
- Counters and gauges other than the usage gauge, and the resettable metrics ticker.
- Generated code, command line, client packages, network scripts, charts and makefiles.
