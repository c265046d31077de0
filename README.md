# GitHub Actions annotations receiver — a Dafny model

This project models the core of an OpenTelemetry collector receiver that
turns GitHub `workflow_job` webhooks into OpenTelemetry log batches. The
core has five stages:

1. **Webhook gate.** The handler validates the payload (401: a bad
   signature, but also a bad content type or an unreadable body), parses
   the event (400), and acknowledges anything that is not a completed
   `workflow_job` event (200). For a completed job whose job and workflow
   name are present it runs the pipeline; a nil workflow name panics
   before that. It answers 500 if the pipeline fails. On success it
   writes no status.
2. **Paginated fetch.** The check-run annotations are fetched 100 per
   page by following the API's next-page cursor. The first error aborts
   the fetch and discards earlier pages.
3. **Record mapping.** One annotation plus the run and the repository
   becomes one log record:
   - the severity number is always "unspecified";
   - the timestamp is the run's completion time;
   - the trace id is derived from the run id and the run attempt;
   - ten attributes are set (the repository plus nine run attributes).
4. **Batch assembly.** One record per annotation, in order, under the
   resource attributes `service.name` and `event.dataset`. A batch
   assembled with no records is never delivered
   (`EmptyBatchSkipsDelivery`); a residue is sent as the consumer returns
   it, even when it is empty (`EmptyResidueIsDelivered`).
5. **Delivery loop.** The batch goes to the downstream consumer, with
   retries. A permanent error stops at once. A partial failure replaces
   the batch with its residue. The loop also ends when the backoff
   schedule stops or the context is done during a wait.

Files:
- `wrappers.dfy` holds `Option`, `Result` and Go error values, where
  `fmt.Errorf("…%w", e)` becomes `Wrapped(prefix, e)`.
- `model.dfy` (module `Model`) models model.go: the payload types, the
  nil-safe getters, `mapRun` and `mapRepository`.
- `logs.dfy` (module `Logs`) models logs.go. The log record is a class
  whose fields `attachData` and its helpers update in place.
- `receiver.dfy` (module `Receiver`) models receiver.go: the handlers,
  the fetch loop, batch assembly and the retry loop. Each imperative
  function is a method proved against a specification function
  (`FetchFrom`, `ProcessAnnotationsSpec`, `Deliver`,
  `ProcessWorkflowJobEventSpec`, `HandleEventSpec`). Lemmas state what
  those functions promise.

Collaborators are parameters:
- the annotation listing API: `(owner, repo, job id, ListOptions) -> Result<Response, Error>`;
- `generateTraceID`: `(Int64, Int64) -> Result<TraceId, Error>`. It is
  deterministic because it is a function;
- `generateServiceName` for the fixed configuration: `string -> string`;
- the text form of a timestamp: `Time -> string`;
- the consumer: `(attempt, Batch) -> Consumed`. `Consumed` is `Accepted`
  or `Failed(err, permanent, residue)`;
- the backoff schedule: a finite sequence of delays. The k-th
  `NextBackOff` returns the k-th delay, or `Stop` once they are used up;
- the context's cancellation: `cancelled(k)` says whether it is done
  during the k-th wait.

Payload validation and the webhook parser are oracles in `Webhook`.
The calls made to the annotation API are recorded, as a ghost sequence
of their `ListOptions`, by `GetAnnotations` and passed up to the handler.

Go panics are modelled as an `aborted` outcome, with no status written:
- logging the first message dereferences the workflow name
  (receiver.go:125, evaluated at :132);
- `mapRun` dereferences eight pointers (model.go:36-43).

Three behaviours of the code that a reader might expect otherwise:
- A failed annotation fetch does not fail the request with 500. It is
  only logged, processing goes on with no annotations, and nothing is
  delivered. The handler then writes no status, so the caller sees 200
  (`FetchFailureIsOnlyLogged`).
- Although the delivery loop handles a done context, from the handler it
  never ends cancelled: the pipeline runs inside the handler with
  `context.WithoutCancel`, whose context is never done (`NeverDone`,
  `NeverCancelledWithoutCancellation`).
- The attribute `github.workflow_run.html_url` gets the job's `RunURL`
  field, as `mapRun` copies it.

## Model

| member | source | states |
|---|---|---|
| Model.MapRun | model.go:34-46 | `ID` and `RunAttempt` are copied from `RunID` and `RunAttempt`. `URL`, `Status` and `Conclusion` are copied by dereference, and the requires names every pointer whose nil would panic. `RunStartedAt` comes from `StartedAt`; `CreatedAt` and `CompletedAt` are copied. `HeadBranch` is empty when absent. |
| Model.MapRepository | model.go:48-54 | `FullName`, `Org` (the owner's login) and `Name` come from nil-safe getters. Each is empty when the repository, the owner or the field is absent. |
| Model.MapRunIgnoresJobIdentity | model.go:34-46 | the job's own id and workflow name have no influence on the mapped run |
| Logs.ParseAnnotationToLogLine | logs.go:26-34 | the severity number is 0 whatever the level; the body is the message and the severity text the level, empty when absent; the timestamp is the given completion time |
| Logs.AttachTraceId | logs.go:36-43 | sets the trace id generated from (run id, run attempt), or returns the generator's error with the record unchanged |
| Logs.AttachRepositoryAttributes | logs.go:45-47 | puts `github.repository` = the full name and changes nothing else |
| Logs.AttachRunAttributes | logs.go:49-59 | puts all nine run attributes over the existing ones: id and attempt as ints, conclusion, status, branch, URL and three rendered timestamps as strings |
| Logs.AttachData | logs.go:11-23 | on a trace-id error, returns it with only the severity number and text changed; otherwise the record gets severity, trace id, timestamp, string body and all ten attributes |
| Logs.MapAnnotation | logs.go:11-34 | for a fresh record: fails exactly when trace-id generation fails, with that error; otherwise severity 0, the level as text, the message as body, the run's completion time, the generated trace id and the ten attributes |
| Logs.RecordAttributesComplete | logs.go:45-59 | for every run and repository, exactly ten keys are set: `github.repository` = full name, plus the nine run keys with id and attempt as ints |
| Logs.SameRunSameTraceId | logs.go:36-43 | two records built from the same run get the same trace id, whatever their annotations |
| Receiver.GetAnnotations | receiver.go:160-177 | the loop returns exactly the outcome of `FetchFrom` from page 0 with 100 per page, and the requests it sends are exactly `Requests` from that page |
| Receiver.ChainIsConcatenated | receiver.go:165-176 | for a cursor chain ending at the first `NextPage == 0`, the fetch returns the concatenation of all pages in order |
| Receiver.FetchedIsChain | receiver.go:165-176 | every successful fetch is such a chain: each next request asks for the previous `NextPage`, and the loop stops exactly at the first 0 |
| Receiver.ErrorDiscardsEarlierPages | receiver.go:166-169 | an error after any number of good pages returns only that error, wrapped as "failed to get job annotations: ", and no items |
| Receiver.FailedFetchIsChainThenFails | receiver.go:166-169 | every failed fetch is good pages followed by one failing request, whose error is returned wrapped |
| Receiver.OnlyPageSizeOfFirstRequest | receiver.go:161-174 | every request has the first request's page size: answers to other page sizes cannot change the outcome |
| Receiver.RequestsFollowChain | receiver.go:161-175 | for a chain of pages that ends, one request per page: the first for page 0, each next one for the previous response's `NextPage`, at the same page size |
| Receiver.RequestsUntilFailure | receiver.go:165-169 | a fetch that fails makes one request per good page and one more, the failing one, starting with the first page |
| Receiver.FetchBoundIrrelevant | receiver.go:165-175 | the outcome does not depend on the assumed bound on the chain's length |
| Receiver.MapAllOnePerAnnotation | receiver.go:189-195 | exactly one record per annotation, in input order; mapping fails exactly when there are annotations and the trace id cannot be generated |
| Receiver.ProcessAnnotations | receiver.go:179-208 | the loop appends the record made by `attachData` for each annotation, stops at the first error with count 0 and the wrapped error, skips delivery for an empty batch, and otherwise delivers with retries and reports the assembled count |
| Receiver.EmptyBatchSkipsDelivery | receiver.go:196-198 | zero annotations give `(0, nil)` and the consumer is never called |
| Receiver.AssembledBatch | receiver.go:180-207 | the first batch sent carries `service.name` = the generated name, `event.dataset` = "github.annotations" and one record per annotation in order; the count is that of this batch, not of any residue |
| Receiver.AttachFailureStopsBeforeDelivery | receiver.go:192-194 | a trace-id failure gives count 0 and the error wrapped as "failed to attach data to log record: ", and nothing is sent |
| Receiver.EmptyResidueIsDelivered | receiver.go:237-239 | a consumer that fails non-permanently at the first attempt with an empty residue, with a non-empty schedule and a never-done context, is sent, on the next attempt, a batch with the same resource and no records; the count reported is still the assembled one |
| Receiver.AcceptedAtOnce | receiver.go:196-207 | a consumer that accepts receives the assembled batch exactly once, and the outcome is (count, nil) |
| Receiver.ConsumeLogsWithRetry | receiver.go:210-265 | the loop returns the error of the `Deliver` verdict: nil, the permanent error, the last error when the backoff stops, or the last error wrapped as "context is cancelled or timed out " |
| Receiver.DeliveryTrace | receiver.go:222-264 | each attempt but the last failed non-permanently with no cancellation during its wait, and the next batch is the residue if the error carries one. The last attempt decides the verdict: success; the permanent error, checked before the residue; the last error at `Stop`; or cancellation. |
| Receiver.RunIsDelivery | receiver.go:222-264 | conversely, any verdict and batch sequence obeying those rules is what the loop produces |
| Receiver.SucceedsAfterTransientFailures | receiver.go:222-264 | after k non-permanent failures without residue and then an accept, with no cancellation during a wait, the loop succeeds after exactly k+1 attempts, each sending the whole batch |
| Receiver.SucceedsAfterFailuresWithResidues | receiver.go:222-264 | the general form: non-permanent failures at attempts k to n-1, whatever batch is sent and whatever residue is returned, then an accept at attempt n, with no cancellation during a wait: success after exactly n-k+1 attempts |
| Receiver.ExhaustsSchedule | receiver.go:237-250 | a consumer that always fails non-permanently without residue, with no cancellation during a wait, gets one more attempt than the schedule has delays, each sending the whole batch; the last error is returned |
| Receiver.ExhaustsScheduleWithResidues | receiver.go:222-250 | the general form: a consumer that fails non-permanently from attempt k on, whatever batch is sent and whatever residue is returned, with no cancellation during a wait, gets one attempt per remaining delay plus one, and the verdict is the last attempt's error |
| Receiver.PermanentErrorStops | receiver.go:227-236 | a permanent error ends the loop at that attempt with that same error, even when it carries a residue |
| Receiver.NeverCancelledWithoutCancellation | receiver.go:259-263 | with a context that is never done, the loop never ends cancelled |
| Receiver.ProcessWorkflowJobEvent | receiver.go:141-158 | fetches, recording the API calls, treats a fetch error as no annotations, aborts when `mapRun` would panic, and otherwise processes with a context that is never cancelled |
| Receiver.HandleWorkflowJobEvent | receiver.go:114-139 | writes 200 for a non-"completed" action; aborts with no call to the annotation API when the job or its workflow name is nil; writes 500 when processing errs, and nothing otherwise |
| Receiver.HandleEvent | receiver.go:86-112 | writes 401 when payload validation fails and 400 for a parse error; writes 200 for other event kinds; dispatches job events |
| Receiver.GateOutcomes | receiver.go:86-139 | the status is one of none/200/400/401/500. 401 iff payload validation fails; 400 iff it succeeds and parsing fails. The annotation API is called iff the event is a completed job event whose job and workflow name are present, and the first call is for page 0; nothing is delivered without a call. |
| Receiver.IgnoredEventsAcknowledged | receiver.go:101-121 | other event kinds, and job events whose action is not "completed", get 200 and make no call to the annotation API |
| Receiver.InternalErrorIffPipelineFails | receiver.go:133-138 | for a completed job event, the status is 500 iff `processWorkflowJobEvent` returns an error; otherwise none is written |
| Receiver.FetchFailureIsOnlyLogged | receiver.go:146-157 | a failed fetch leads to no delivery and no status written |
| Receiver.EndToEndScenario | receiver.go:86-207 | acme/widgets, run 42, attempt 1, two annotations on one page, an accepting consumer. No status is written, the annotation API is called once, for page 0, and one batch is delivered. It holds two records in order: "build failed"/"failure" and "deprecated api"/"warning". Both have the same trace id and the run's completion time, with `github.repository` = "acme/widgets", id 42 and attempt 1. |

## Left out

- Payload validation (`github.ValidatePayload`) and webhook parsing (`github.ParseWebHook`) are library calls. They are the oracle fields of `Webhook`.
- The GitHub REST client, its construction and the startup rate-limit probe (github.go, receiver.go:23-49) are network and credential plumbing. The listing call is a function parameter.
- The HTTP server lifecycle (`Start`, `Shutdown`) and its serving goroutine are I/O and concurrency.
- Receiver.GetAnnotations: termination of the cursor loop is assumed, because the code has no bound of its own. The requires says the cursor chain ends within `bound` pages; an endless chain (the code would loop forever) is not modelled.
- Receiver.ConsumeLogsWithRetry: the exponential backoff arithmetic is not modelled: jitter, the multiplier, the elapsed-time budget, the wall clock and `time.After`. The backoff is a finite schedule ending in `Stop`. A zero `MaxElapsedTime`, which never stops, is not modelled, and neither is the bound on how far the elapsed time can overshoot.
- `generateTraceID` and `generateServiceName` are not part of this model. They are function parameters; collision resistance of trace ids is a probabilistic property and is not stated.
- The observed timestamp (`time.Now()`) is not part of the record view. Timestamps are opaque values, and their text form is a function parameter.
- Logging (`zap`) and the obsreport span (`StartLogsOp`/`EndLogsOp`) are side effects only.
- Configuration and defaults (config.go, factory.go) are out of scope. The service name's configuration is folded into the service-name function.
- The consumer cannot mutate the batch it is given: the count returned is that of the batch as assembled.
- A Go panic is an `aborted` outcome with no status written. What net/http does after recovering from it (closing the connection) is not modelled.
