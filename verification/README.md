# Durable executions of jobdb, verified

A job of jobdb is a deterministic orchestration whose every scope, task, attempt,
catch, decision, wait and sleep is a record in an append-only log. This project
models that log and what is built on it, and proves what it promises.

- **The durable log.** `Records` and `History` give one executor step by step:
  replay, the live edge, deferred records, appends that are lost or unacknowledged,
  adoption of a winner, restarts. `Executors` runs any number of them over one
  log, with crashes and external answers, for any deterministic orchestration.
  `Durability` and `Reachable` hold the invariants, `Guarantees` and `Recovery` the
  theorems. `ExecutionRun` is the mutable form, method by method.
- **A result about recovery.** Recovery of every reachable log without a fault is
  not true of the code. There are runs that leave a record where a later executor
  asks for another. A restart target may be followed by something other than its
  continuation: the attempt around it expires after `applyRestart` took effect and
  before the continuation was recorded (`MissedRestart`); a later restart further
  on keeps that history, and is refused for the older target (`OlderRestart`, with
  the resolver in `RestartPoints`). A catch handler may run out of time inside one
  of its own requests (`ExpiredHandler`). And a request may fail without a record,
  as when the output of a task cannot be stored, and the code goes on
  (`LostOutcome`). The model lets the code record anything at all after such a
  failure. `Recovery` proves when replay succeeds: if and only if every record is
  asked for where it stands, or is the timeout of an attempt around what is asked
  for, and every restart target reached is followed by its continuation; hence
  always for a job that does none of the three. `Witness` holds the steps those
  runs are made of; they also show that the hypotheses of the theorems about
  reachable states can be met.
- **Identities and the catch history.** `Identity` and `Paths` cover printing and
  parsing; `CatchHistory`, `CatchProjection` and `CatchEvidence` the projection of
  a log to facts about failed attempts; `Engine` and the modules named after it the
  writer, with its continuations, crashes and recoveries: the reader accepts
  whatever it writes, and its retry loops are bounded.
- **Budgets and choices.** `Deadlines`, `Policies` and `TaskDispatch`.
- **Lease, storage, secrets.** `LeaseSession`, `Codec`, `Secrets`.
- **Client payloads.** `Decimal`, `JsonText`, `Canonical`, `ClientPayload`.

Conventions: time is an integer with zero for "no time", "no limit"; JSON is a
datatype that keeps number text; the clock, the network, builders, workers,
providers and the backend are inputs of each step. Text is a sequence of Unicode
scalar values. SHA-256 stands for an injective function.

## Model

| member | source | states |
|---|---|---|
| Guarantees.CompactHistoryRefinesPlainLog | pkg/workflow/execution_history.go:272-296 | In every reachable state of any number of executors, the chapters an executor has passed, expanded and without engine records, plus what it keeps pending, are the records it handed to its orchestration, in order: exactly, until it adopts another executor's prefix, and then up to clock readings and activation names |
| Guarantees.ExecutorsAgree | pkg/workflow/execution_history.go:376-397 | Two executors that have passed a slot hold the same record for it, the one committed there |
| Guarantees.SlotsAreForever | pkg/workflow/execution_history.go:376-381 | No committed slot is ever replaced, whatever actions follow |
| Guarantees.TakenSlotAdoptsOrKills | pkg/workflow/execution_history.go:378-393 | One append to a taken slot writes nothing; it continues with the committed record exactly when that is the same event on the same path, and otherwise the executor is dead |
| Guarantees.ConflictSilences | pkg/workflow/execution_history.go:378-410 | An executor whose append met a conflict, in whatever action of whatever reachable system, adds no execution record to the log in any run that follows, and its fault stays |
| Guarantees.FatalIsForever | pkg/workflow/execution_history.go:118-134 | No action revives a dead executor or hands it anything, and its own actions commit no execution record: they leave the log alone or add the outcome of a job that failed as a whole |
| Guarantees.DeadOverRuns | pkg/workflow/execution_history.go:502-507 | Over every run, the first fault of an executor stays until it is gone, and what it adds to the log is at most that the job failed |
| Guarantees.InspectionNeverWrites | pkg/workflow/execution_history.go:249-261 | Over any number of calls, restart targets among them, an inspecting run changes neither the log nor its ordinal, timers or activation, nor what is pending when no restart waits |
| Guarantees.InspectingCall | pkg/workflow/execution_history.go:249-261 | An inspecting call with no restart waiting builds only scopes, tasks and attempts of an unfinished job, with no start time |
| Reachable.ActKeeps | pkg/workflow/execution_history.go:214-410 | Every action of the system (start, event, attempt timeout, handler timeout, going on after a request that failed without a record, checkpoint, activation, binding, completion, failure of the whole job, suspension, crash, external answer) keeps the log legal, headed, decodable and append-only, and every executor on it |
| Reachable.RunAll | pkg/workflow/execution_history.go:496-619 | Every run from every log a job may start from keeps these invariants and only extends the log |
| Recovery.RecoveryIsDeterministic | pkg/workflow/execution_history.go:210-245 | As long as the records are ones replay gets past: whatever a recovering orchestration would build, each request is answered with the next durable record as committed; no builder runs, nothing is written, no fault is raised, and it reaches the live edge with nothing pending exactly when the durable records are used up |
| Recovery.LiveAtTheEdge | pkg/workflow/execution_history.go:262-297 | The first request past the durable records is live: its builder runs |
| Recovery.RecoversExactlyWhen | pkg/workflow/execution_history.go:509-619 | A new executor over the log of any reachable state replays all of it without a fault if and only if every record is asked for where it stands or is the timeout of an attempt around what is asked for, and every restart target that replay reaches, of any restart, is followed by its continuation; otherwise it stops at the first record of which this is not so, with the fault of its kind, having built and written nothing |
| Recovery.PlainJobsRecover | pkg/workflow/execution_history.go:210-245 | A job that was never restarted, calls nothing from its handlers and makes no request that can fail without a record always recovers: a new executor replays the log of any reachable state whole, without a fault |
| Recovery.OversizedJobsStayEnded | pkg/workflow/execution_history.go:574-583 | A job that ended because a payload was too large is refused, and nothing is written |
| MissedRestart.ContinuationCanBeLost | pkg/workflow/execution_restart.go:54-71 | A reachable log, of a job restarted inside the first attempt of its own scope, whose restart has lost its continuation: the attempt runs out of time between the budgets being applied and being recorded |
| OlderRestart.OlderContinuationCanBeLost | pkg/workflow/execution_restart.go:19-37 | That job goes on in its second attempt and is restarted there: the log of the new job, as the resolver makes it, is refused for the older restart, although the newest one has lost nothing |
| ExpiredHandler.HandlerCanExpire | pkg/workflow/execution_scope.go:382-444 | A reachable log with no restart that no executor gets through: a catch handler ran out of time inside its own task, and the handled result stands where that task's attempt is asked for |
| LostOutcome.OutcomeCanBeLost | pkg/workflow/execution_scope.go:190-193 | A reachable log with no restart and no handler that no executor gets through: the output of a task cannot be recorded, its request fails without a record, the job's attempt fails for it and is tried again, and that failure stands where the task's result is asked for |
| RestartPoints.RestartKeepsHistoryBeforeTarget | pkg/jobdb/runtime/core/execution_protocol.go:20-103 | The history of a restarted job is the old one up to the first record that belongs to the target; when declarations ride in prefixes, as the engine writes them, nothing kept belongs to it |
| RestartPoints.RestartedLogIsLegal | pkg/jobdb/runtime/core/execution_protocol.go:20-103 | The log of a restarted job is headed, decodable and a legal run of the same orchestration, and its newest restart is the new one |
| Recovery.RecordedTimeoutUnwinds | pkg/workflow/execution_history.go:221-229 | When the next record is the timeout of attempt A, no calls below A, of any kind and in any number, record anything or move past it, and A's own completion consumes it |
| Durability.AppendKeeps | pkg/workflow/execution_history.go:311-410 | An append, delivered, unacknowledged or lost, leaves a legal log and an executor that holds what is committed |
| Durability.ReplayPosition | pkg/workflow/execution_history.go:99-107 | While it replays, an executor has been handed exactly the log so far, and peeks at the next record of it |
| ExecutionRuns.ChapterStore.PutChapter | pkg/jobdb/runtimetest/suite.go:981-1001 | The log is append-only: earlier chapters stay, at most the given one is added, and only as the next one; an acknowledged put is in its slot, a put to a taken slot changes nothing, and an undelivered acknowledgement does not undo a put |
| ExecutionRuns.Normalize | pkg/workflow/execution_history.go:828-837 | The loop blanks exactly the clock readings and activation names |
| ExecutionRuns.SameExecutionPrefix | pkg/workflow/execution_history.go:820-839 | Two prefixes are the same path if and only if they agree outside those fields |
| ExecutionRuns.ExecutionRun.LoadHistory | pkg/workflow/execution_history.go:509-573 | The loading loop fails exactly when some record does not decode, and otherwise leaves the expanded chapters, the targets of all restarts, the newest one, and the outcome the job ended with |
| ExecutionRuns.ExecutionRun.PeekLocked | pkg/workflow/execution_history.go:99-107 | The cursor stops at the next record that is not the engine's own |
| ExecutionRuns.ExecutionRun.AppendLocked | pkg/workflow/execution_history.go:311-410 | The new run state, store and answer are those of the specified append |
| ExecutionRuns.ExecutionRun.ActivateLocked | pkg/workflow/execution_history.go:299-309 | The new run state, store and answer are those of the specified activation |
| ExecutionRuns.ExecutionRun.RecordEvent | pkg/workflow/execution_history.go:214-297 | The new run state, store and answer, and whether the builder ran, are those of the specified event |
| ExecutionRuns.ExecutionRun.ReachRestart | pkg/workflow/execution_restart.go:19-58 | The target of any restart of the log, met neither at the end of history nor at its continuation, is a fault; otherwise the newest restart counts as applied if the target is its own |
| ExecutionRuns.ExecutionRun.Begin | pkg/workflow/execution_history.go:496-619 | Loading, the refusal of a job that ended oversized, the header check and the first header leave the specified state |
| Identity.BoundaryRoundTrip | pkg/workflow/catch_history.go:189-203 | For any parent text, kind, nonempty site (quotes, slashes, text like an identity) and count from one, the parser recovers parent, kind and site from the printed identity |
| Identity.BoundaryIdInjective | pkg/workflow/execution_history.go:201-204 | Equal printed identities come from the same parent, kind, site and count |
| Identity.BoundaryPartsShape | pkg/workflow/catch_history.go:175-203 | What the parser accepts has the printed shape, with the site in its quoted part |
| Identity.SplitsExactlyAttempts | pkg/workflow/catch_history.go:177-187 | The attempt parser accepts an identity as boundary and number if and only if it is that boundary's printed attempt |
| Identity.VisitsAreDistinct | pkg/workflow/execution_history.go:190-205 | No two calls made in one context, scopes, tasks, sleeps or joins, share an identity |
| Identity.CallCounters.Occurrence | pkg/workflow/execution_history.go:190-205 | A call without a site is refused; every other call gets the next visit identity of its context |
| Paths.PrintInjective | pkg/workflow/execution_scope.go:253-262 | Different places in a run (boundaries, attempts, handlers of rules without a slash) never print alike |
| CatchHistory.PartsShrink | pkg/workflow/catch_history.go:208-246 | The context around an attempt is a shorter identity, so ancestry resolution terminates |
| CatchHistory.OwnerOf | pkg/workflow/catch_history.go:323-349 | An owner of a handler context is shorter than the context |
| CatchEvidence.EvidenceIsMonotone | pkg/workflow/catch_history.go:350-486 | If a history and an extension are both accepted, the shorter one's rows are an index-aligned prefix, and every recorded original, known selection and rule, accepted result and retry decision is unchanged |
| CatchProjection.BindHandlers | pkg/workflow/catch_history.go:323-349 | Binding handlers in any map order ends with the same owners: the only candidate, or an ambiguity |
| CatchProjection.ResolveReference | pkg/workflow/catch_history.go:208-246 | The recursive resolver computes the specified reference |
| CatchProjection.BuildIndex | pkg/workflow/catch_history.go:258-322 | The first loop computes the specified index, or its first refusal |
| CatchProjection.BuildLedger | pkg/workflow/catch_history.go:350-424 | The second loop computes the specified evidence, or its first refusal |
| CatchProjection.BuildRows | pkg/workflow/catch_history.go:425-485 | The third loop computes the specified rows, or its first refusal |
| CatchProjection.ProjectCatchHistory | pkg/workflow/catch_history.go:248-487 | The whole projection is the specified one |
| Policies.DescriptorRoundTrip | pkg/workflow/execution_scope.go:15-21 | The policy and site a boundary declares are what a reader of its descriptor finds |
| EngineAccepted.CutsAreAccepted | pkg/workflow/catch_history.go:248-487 | Every history of the engine's shape, cut after any record, is accepted by the projection |
| EngineTheorems.EngineHistoriesAreAccepted | pkg/workflow/execution_scope.go:201-475 | Whatever scopes, tasks, failures, handlers, timeouts, retries, continuations, crashes and recoveries a job goes through, its durable history, cut anywhere, is accepted by the projection |
| EngineTheorems.ControlComesInOrder | pkg/workflow/execution_scope.go:315-475 | In every durable history, before every decision stand, in order, the failure, the selection and, if a rule was selected, the handled result, whose disposition the decision repeats; a predicate's failure is propagated |
| EngineTheorems.RetriesAreDecided | pkg/workflow/execution_scope.go:454-474 | In every durable history, every attempt after the first rests on an earlier decision to retry, within the limit the continuation budgets of that moment give, not after propagation or a failure recorded as non-retryable, and before the total deadline |
| EngineTheorems.AttemptsAreBounded | pkg/workflow/execution_scope.go:252-319 | In every durable history, through crashes and recoveries, a boundary starts at most its recorded maximum of attempts, or, once a continuation was applied in the body of its attempt k, at most k - 1 more |
| EngineTheorems.LimitsAfterContinuation | pkg/workflow/execution_scope.go:315-319 | After a continuation, for every later attempt of a boundary: the limit is its maximum plus k - 1, in 32 bits, if it was in the body of attempt k, one less than its maximum if it was in a handler, and its maximum if it was not running |
| EngineBudgets.ContinuationBudget | pkg/workflow/execution_history.go:721-732 | The lookup, over the map in any order, finds a budget of the same boundary if there is one, and the only one when no boundary has two |
| EngineBudgets.FreshAreOneEach | pkg/workflow/execution_restart.go:38-53 | The budgets of a continuation hold at most one entry for each boundary |
| EngineMoves.DoKeeps | pkg/workflow/execution_scope.go:201-475 | Every move of the writer, continuations included, keeps its history in shape and its open boundaries consistent with it |
| Deadlines.EarlierIsGreatest | pkg/workflow/execution_scope.go:49-60 | The earlier of two limits is the greatest limit within both, zero being none |
| Deadlines.RestartNests | pkg/workflow/execution_restart.go:38-53 | The budgets a restart computes nest along the whole chain and give no context more than its own limits from now |
| Deadlines.DeadlinesNest | pkg/workflow/execution_scope.go:251-262 | Over every run of attempts, local tasks run again, handlers, returns and restarts, each deadline is within its total deadline and its parent's deadline, and recovery rebuilds the same deadlines from the records alone, but for the fresh timer of a task it is about to run again |
| Deadlines.ContinuationRoundTrip | pkg/workflow/execution_restart.go:28-33 | Budgets read back from a recorded continuation are the budgets that were written |
| Deadlines.ComputeBudgets | pkg/workflow/execution_restart.go:38-53 | The loop computes the specified budgets, outermost first |
| Deadlines.ApplyRestart | pkg/workflow/execution_restart.go:19-71 | The contexts take the fresh or the recorded budgets; an unreadable continuation changes nothing |
| TaskDispatch.RecoveryFindsChoice | pkg/workflow/execution_external.go:17-65 | Replaying the records of any run succeeds and finds the type chosen and the due time first set |
| TaskDispatch.OnlyDeclaredTypes | pkg/workflow/execution_external.go:138-140 | Only the primary and the declared alternate are ever waited for, dispatched or run |
| TaskDispatch.AlternateIsSticky | pkg/workflow/execution_external.go:79-105 | Once the alternate is chosen, every later step of every attempt and recovery has the alternate's type |
| TaskDispatch.AlternateIsNeverEarly | pkg/workflow/execution_external.go:85-98 | Every step of the alternate's type is, or follows, a dispatch at or after the due time |
| TaskDispatch.DueNeverChanges | pkg/workflow/execution_external.go:18-35 | Every wait carries the due time the first wait set |
| TaskDispatch.TaskDispatchState.Consume | pkg/workflow/execution_external.go:32-65 | The replay loop computes the specified choice and refuses exactly the invalid records |
| LeaseSessions.HolderNeverChanges | pkg/workflow/lease_session.go:31-105 | Over every interleaving of heartbeats, mutations and cancellations, lease, job and worker stay the same, every mutation is made for them, and at most one completion or reschedule succeeds |
| LeaseSessions.ClosedForever | pkg/workflow/lease_session.go:113-121 | After a release or a detected loss nothing reaches the backend again |
| LeaseSessions.ReleaseIsLast | pkg/workflow/lease_session.go:180-218 | A terminal mutation that succeeds is the last call of its session, whatever follows |
| LeaseSessions.StartsWell | pkg/workflow/lease_session.go:54-64 | A session that starts holds the lease and job it was given, and the worker if one was named |
| LeaseSessions.LeaseSession.Beat | pkg/workflow/lease_session.go:87-104 | A heartbeat is the specified step; it goes on only with an unexpired lease in an open session |
| LeaseSessions.LeaseSession.Mutate | pkg/workflow/lease_session.go:187-242 | A mutation is the specified step, and succeeds exactly when the session is open and the backend accepts |
| Codec.TreeRoundTrip | pkg/internal/runtimecodec/execution.go:32-105 | Every JSON tree survives storage exactly, number text intact |
| Codec.ValueRoundTrip | pkg/internal/runtimecodec/execution.go:72-99 | Every stored value is the image of one tree |
| Codec.StorageReturns | pkg/internal/runtimecodec/execution.go:142-315 | Decoding an encoded record, with the records it retains, succeeds if and only if every attempt number is still positive in 32 bits, and says which record comes back |
| Codec.IdentitySurvives | pkg/internal/runtimecodec/execution.go:364-385 | The storage identity of a record is the same after encoding and decoding |
| Codec.PlainRecordsReturn | pkg/internal/runtimecodec/execution.go:224-282 | With error payloads carried as they are: a record comes back unchanged if and only if its attempt numbers fit 32 bits, its alternate time is not zero, it has no error data without an error, and it retains no empty list, itself and below |
| Codec.PrefixSurvives | pkg/internal/runtimecodec/execution.go:283-315 | A prefix of records comes back in order, each with its identity |
| Codec.ChapterMeta.Extract | pkg/internal/runtimecodec/execution.go:316-339 | Extraction takes the prefix out, encoded, and leaves the other metadata; a record that does not encode leaves everything |
| Codec.ChapterMeta.Restore | pkg/internal/runtimecodec/execution.go:340-360 | Restoring puts the decoded prefix back and leaves the other metadata |
| Codec.StoreAndLoad | pkg/internal/runtimecodec/execution.go:316-360 | Extract and restore together keep the other metadata and the identity of every record |
| Secrets.AllOrNothing | pkg/workflow/secrets.go:53-129 | A call fails and changes nothing, or publishes a cache that knows every requested name and returns that cache cut down to the request, nothing expired |
| Secrets.ExpandingReadIsCoherent | pkg/workflow/secrets.go:83-112 | An ordinary read that asks keeps every known omission and takes every available entry from the one answer |
| Secrets.KnownNamesAreServedFromCache | pkg/workflow/secrets.go:79-84 | A read of known names changes nothing, and its result is the same whatever any provider would answer |
| Secrets.FreshReadIsLocal | pkg/workflow/secrets.go:85-96 | A fresh read changes the requested names only, omissions included |
| Secrets.OmissionsStay | pkg/workflow/secrets.go:85-95 | Over every sequence of calls, known names stay known and a known omission stays one until a fresh read names it |
| Secrets.EntriesAreTraced | pkg/workflow/secrets.go:97-111 | Every available entry of a cache was in an answer to a request that named it |
| Secrets.AttemptCache.ResolveSecrets | pkg/workflow/secrets.go:53-129 | The cache and result after the call are the specified ones |
| Secrets.AttemptCache.CheckNames | pkg/workflow/secrets.go:69-82 | The validation loop accepts exactly nonempty lists of distinct nonempty names and finds those to ask for |
| Secrets.AttemptCache.TakeAnswer | pkg/workflow/secrets.go:87-111 | The refresh loop builds the specified cache in any order, or refuses an expired entry |
| Secrets.AttemptCache.CollectResult | pkg/workflow/secrets.go:117-125 | The result loop returns the request's share of the cache, or refuses an expired entry |
| Decimal.NormalNumberComplete | pkg/jobdb/clientpayload/payload.go:243-266 | Two JSON number literals have the same normal form if and only if they denote the same rational |
| Decimal.NormalNumberMeans | pkg/jobdb/clientpayload/payload.go:243-266 | A normal form denotes the number it was made from: zero is "0", anything else a signed mantissa without outer zeros and an exponent |
| Decimal.ScanLiteral | pkg/jobdb/clientpayload/payload.go:244-254 | The scan finds sign, digits and exponent of every literal of the JSON grammar |
| Decimal.StripMeans | pkg/jobdb/clientpayload/payload.go:255-265 | Stripping zeros moves them into the exponent and keeps the value |
| JsonText.UnquoteQuote | pkg/workflow/execution_history.go:203-204 | Any string survives JSON quoting and unquoting |
| JsonText.QuoteReadable | pkg/jobdb/clientpayload/payload.go:210-212 | Two texts that start with quoted strings start with the same one and continue alike |
| Canonical.CanonicalFaithful | pkg/jobdb/clientpayload/payload.go:204-241 | Two values have the same canonical text if and only if they are equal up to member order and number spelling |
| Canonical.Readable | pkg/jobdb/clientpayload/payload.go:204-241 | Canonical text is uniquely readable inside any text that continues it |
| Canonical.DigestFaithful | pkg/jobdb/clientpayload/payload.go:178-202 | Under an injective hash, digests are equal exactly for equal payloads, absence being its own |
| Canonical.EnumerationUnique | pkg/jobdb/clientpayload/payload.go:225-229 | A set of keys has one ascending enumeration |
| Canonical.SortStrings | pkg/jobdb/clientpayload/payload.go:229-229 | Sorting gives the ascending enumeration of the keys |
| Canonical.CollectKeys | pkg/jobdb/clientpayload/payload.go:225-228 | Keys collected in any map order are all of them, each once |
| Canonical.WriteCanonical | pkg/jobdb/clientpayload/payload.go:204-241 | The builder is extended by exactly the canonical text |
| ClientPayload.MergeInPlace | pkg/jobdb/clientpayload/payload.go:157-174 | Changing the target member by member, in any map order, gives the merge of section 2 of RFC 7396 |
| ClientPayload.MergeIdempotent | pkg/jobdb/clientpayload/payload.go:157-174 | Applying the same patch twice is applying it once |
| ClientPayload.MergeAtEveryPath | pkg/jobdb/clientpayload/payload.go:157-174 | At every path: unnamed members keep their value, nulls delete, other leaves replace, objects merge |
| ClientPayload.MergeStaysClean | pkg/jobdb/clientpayload/payload.go:166-171 | No null member becomes state |
| ClientPayload.MergeNesting | pkg/jobdb/clientpayload/payload.go:323-368 | Merging nests no deeper than target or patch |
| ClientPayload.PatchFailsOnlyOnSize | pkg/jobdb/clientpayload/payload.go:132-155 | A valid patch at the right revision fails only on the size of the merged text |
| ClientPayload.AcceptedInRevisionOrder | pkg/jobdb/clientpayload/payload.go:95-113 | Over every sequence of writers, the accepted updates expected consecutive revisions, and served alone they are all accepted again and give the same state |

## Left out

- Records.Acceptable: artifact keys are checked for presence, names and sizes only, blank names are blank in spaces, tabs and line ends only, and prerequisites and dependencies are not part of the record.
- ExecutionRuns.ExecutionRun.AppendLocked: artifacts are staged and uploaded elsewhere; see History.Append.
- History.Append: artifact uploads and their generated names are left out, as is the branch for execution patterns before version 2, which loading refuses anyway.
- Executors.Act: orchestrations are functions of the records they are given; which of their requests may fail without a record is part of them. They reach the target of the newest restart at the end of the history it retained, and ask for nothing else where a restart target is asked for; the events of one request stand inside the same attempts; and records that are deferred are ones storage accepts. Inspection is proved for single runs, not inside the system of executors.
- Recovery.RecoversExactlyWhen: stated for a log that has its header and did not end oversized, which `Recovery.OversizedJobsStayEnded` covers, and for requests whose context is not cancelled.
- Guarantees.InspectionNeverWrites: while the newest restart waits to be applied, a continuation of an older one may be kept pending; it is never written.
- ExecutionRuns.ExecutionRun.ReachRestart: the refusal of a restart payload without a handler is left out.
- RestartPoints.RestartAt: the handler a restart payload needs, synthetic task data and the dependencies copied into the new job are left out.
- Engine: Backoff is an arbitrary nonnegative delay, rule names have no slash, and the records that the projection ignores may be written anywhere. A continuation may be applied at any boundary about to open, which is more than the restarts of one log allow; replaying and restarting are cuts of the durable records, after which a new run goes through them again.
- CatchEvidence.EvidenceIsMonotone: parent and whole-job references are not claimed stable; with rule names that themselves look like attempts a later selection can change them.
- CatchHistory: error texts are short reasons.
- CatchProjection.ProjectCatchHistory: gaps are implied by the missing facts and not listed.
- Deadlines.DeadlinesNest: identities of nested contexts are taken to differ, which `Identity` and `Paths` prove of printed ones, and a local task that runs again makes no calls of its own; the timers themselves are left out.
- TaskDispatch: ordinals, input hashes and wake-up routes of the scheduler handoff are left out; an acquired route is an input.
- LeaseSessions: reads of secrets and configuration, which hold no lock while they wait, are left out; deadlines of backend calls are inputs.
- Codec: error payloads travel as they are instead of through their typed messages; timestamps are integers; protobuf bytes and unknown fields are left out.
- Secrets: invalid UTF-8 names cannot be written in the model; replay and missing leases, which only refuse, are left out.
- ClientPayload: the lexical part of parsing (duplicate names, surrogates, U+0000) and `Initial` are left out; a message is its size and its value.
- Canonical.Less: code point order, which is the byte order of valid UTF-8.
- Observers, logging, command line, HTTP, SQL and blob storage, goals, cells and dependency waits: plumbing around this core.
- The comment on `applyRestart` says that running before timers are armed keeps copied deadlines from expiring a continuation; fresh budgets can still expire it, and the model follows the code.
