/** The receiver's pipeline (receiver.go): the webhook gate, the paginated
    annotation fetch, batch assembly and the delivery loop with retries.
    Every collaborator the receiver calls is a parameter: the annotation
    listing API, the downstream consumer, the backoff schedule, the
    context's cancellation, and the functions of `Externals`. */
module Receiver {
  import opened Wrappers
  import opened Model
  import opened Logs

  // =====================================================================
  // Webhook payload
  // =====================================================================

  datatype WorkflowJobEvent = WorkflowJobEvent(
    action: Option<string>,
    workflowJob: Option<WorkflowJob>,
    repo: Option<GitHubRepository>)

  /** A parsed webhook: a `workflow_job` event, or any other kind. */
  datatype Event = JobEvent(job: WorkflowJobEvent) | OtherEvent(kind: string)

  /** An inbound request as the two library calls see it: whether
      `ValidatePayload` succeeds (it checks the signature against the
      secret, but also fails on a bad content type or an unreadable body),
      and what `ParseWebHook` makes of it (`None` for a parse error). */
  datatype Webhook = Webhook(payloadValid: bool, event: Option<Event>)

  const StatusOK := 200
  const StatusBadRequest := 400
  const StatusUnauthorized := 401
  const StatusInternalServerError := 500

  // =====================================================================
  // Paginated fetch (getAnnotations)
  // =====================================================================

  const PerPage := 100
  const AnnotationsErrorPrefix := "failed to get job annotations: "

  datatype ListOptions = ListOptions(page: int, perPage: int)

  /** One page of annotations and the API's next-page cursor (0: no next page). */
  datatype Response = Response(annotations: seq<CheckRunAnnotation>, nextPage: int)

  /** `Checks.ListCheckRunAnnotations(owner, repo, checkRunID, opts)`. */
  type AnnotationsApi = (string, string, Int64, ListOptions) -> Result<Response, Error>

  /** The options of the first request: page unset, 100 per page. */
  const FirstPage := ListOptions(0, PerPage)

  /** `ghEvent.WorkflowJob.GetID()`, nil-safe. */
  function JobId(e: WorkflowJobEvent): Int64
  {
    if e.workflowJob.Some? then GetInt64(e.workflowJob.value.id) else 0
  }

  /** The API as `getAnnotations` calls it for one event: the owner's login,
      the repository name and the job id are fixed, only the options vary. */
  function JobPages(api: AnnotationsApi, e: WorkflowJobEvent): ListOptions -> Result<Response, Error>
  {
    opts => api(OwnerLogin(e.repo), RepoName(e.repo), JobId(e), opts)
  }

  /** What the pagination loop returns when started with `opts`, given
      `fuel` requests at most: `None` if the cursor chain is longer than
      that, otherwise every page's annotations in order, or the first
      error wrapped and nothing else. */
  function FetchFrom(pages: ListOptions -> Result<Response, Error>, opts: ListOptions, fuel: nat)
    : Option<Result<seq<CheckRunAnnotation>, Error>>
    decreases fuel
  {
    if fuel == 0 then None
    else match pages(opts)
      case Err(e) => Some(Err(Wrapped(AnnotationsErrorPrefix, e)))
      case Ok(resp) =>
        if resp.nextPage == 0 then Some(Ok(resp.annotations))
        else Prepend(resp.annotations, FetchFrom(pages, opts.(page := resp.nextPage), fuel - 1))
  }

  /** Annotations already accumulated in front of the outcome of the rest
      of the loop; an error discards them. */
  function Prepend(acc: seq<CheckRunAnnotation>, rest: Option<Result<seq<CheckRunAnnotation>, Error>>)
    : Option<Result<seq<CheckRunAnnotation>, Error>>
  {
    match rest
    case None => None
    case Some(Err(e)) => Some(Err(e))
    case Some(Ok(xs)) => Some(Ok(acc + xs))
  }

  /** The requests the pagination loop sends when started with `opts`,
      given `fuel` requests at most: one per page it asks for, until a
      page fails or names no next page. */
  function Requests(pages: ListOptions -> Result<Response, Error>, opts: ListOptions, fuel: nat): seq<ListOptions>
    decreases fuel
  {
    if fuel == 0 then []
    else match pages(opts)
      case Err(_) => [opts]
      case Ok(resp) =>
        if resp.nextPage == 0 then [opts]
        else [opts] + Requests(pages, opts.(page := resp.nextPage), fuel - 1)
  }

  /** getAnnotations: follows the cursor from the first page until the API
      reports no next page, accumulating pages in order; any error aborts
      with the wrapped error. Its termination rests on the cursor chain
      being finite, stated as `bound`. `requests` records every call made
      to the API. */
  method GetAnnotations(e: WorkflowJobEvent, api: AnnotationsApi, ghost bound: nat)
    returns (r: Result<seq<CheckRunAnnotation>, Error>, ghost requests: seq<ListOptions>)
    requires FetchFrom(JobPages(api, e), FirstPage, bound).Some?
    ensures Some(r) == FetchFrom(JobPages(api, e), FirstPage, bound)
    ensures requests == Requests(JobPages(api, e), FirstPage, bound)
  {
    ghost var pages := JobPages(api, e);
    var listOpts := ListOptions(0, PerPage);
    var allAnnotations: seq<CheckRunAnnotation> := [];
    ghost var fuel := bound;
    requests := [];
    PrependNothing(FetchFrom(pages, listOpts, fuel));
    assert requests + Requests(pages, listOpts, fuel) == Requests(pages, listOpts, fuel);
    while true
      invariant FetchFrom(pages, listOpts, fuel).Some?
      invariant FetchFrom(pages, FirstPage, bound) == Prepend(allAnnotations, FetchFrom(pages, listOpts, fuel))
      invariant Requests(pages, FirstPage, bound) == requests + Requests(pages, listOpts, fuel)
      decreases fuel
    {
      var resp := api(OwnerLogin(e.repo), RepoName(e.repo), JobId(e), listOpts);
      assert resp == pages(listOpts);
      ghost var previous := requests;
      requests := requests + [listOpts];
      if resp.Err? {
        return Err(Wrapped(AnnotationsErrorPrefix, resp.error)), requests;
      }
      PrependAssoc(allAnnotations, resp.value.annotations,
                   FetchFrom(pages, listOpts.(page := resp.value.nextPage), fuel - 1));
      allAnnotations := allAnnotations + resp.value.annotations;
      if resp.value.nextPage == 0 {
        break;
      }
      RequestsAssoc(previous, listOpts, Requests(pages, listOpts.(page := resp.value.nextPage), fuel - 1));
      listOpts := listOpts.(page := resp.value.nextPage);
      fuel := fuel - 1;
    }
    return Ok(allAnnotations), requests;
  }

  lemma RequestsAssoc(previous: seq<ListOptions>, opts: ListOptions, rest: seq<ListOptions>)
    ensures previous + ([opts] + rest) == (previous + [opts]) + rest
  {
  }

  lemma PrependAssoc(a: seq<CheckRunAnnotation>, b: seq<CheckRunAnnotation>,
                     rest: Option<Result<seq<CheckRunAnnotation>, Error>>)
    ensures Prepend(a, Prepend(b, rest)) == Prepend(a + b, rest)
  {
    if rest.Some? && rest.value.Ok? {
      assert a + (b + rest.value.value) == (a + b) + rest.value.value;
    }
  }

  lemma PrependNothing(rest: Option<Result<seq<CheckRunAnnotation>, Error>>)
    ensures Prepend([], rest) == rest
  {
    if rest.Some? && rest.value.Ok? {
      assert [] + rest.value.value == rest.value.value;
    }
  }

  /** All annotations of a sequence of pages, in page order. */
  function Flatten(rs: seq<Response>): seq<CheckRunAnnotation>
  {
    if rs == [] then [] else rs[0].annotations + Flatten(rs[1..])
  }

  /** `rs` are the responses to the successive requests starting at `opts`,
      each next request asking for the page the previous response named,
      and only the last response saying there is no next page. */
  predicate Chain(pages: ListOptions -> Result<Response, Error>, opts: ListOptions, rs: seq<Response>)
    decreases |rs|
  {
    |rs| > 0 && pages(opts) == Ok(rs[0]) &&
    if |rs| == 1 then rs[0].nextPage == 0
    else rs[0].nextPage != 0 && Chain(pages, opts.(page := rs[0].nextPage), rs[1..])
  }

  /** `rs` are successful responses that all name a next page, and the
      request after them fails with `e`. */
  predicate ChainThenFails(pages: ListOptions -> Result<Response, Error>, opts: ListOptions, rs: seq<Response>, e: Error)
    decreases |rs|
  {
    if rs == [] then pages(opts) == Err(e)
    else pages(opts) == Ok(rs[0]) && rs[0].nextPage != 0 &&
         ChainThenFails(pages, opts.(page := rs[0].nextPage), rs[1..], e)
  }

  /** A chain of pages that ends is fetched completely: the result is the
      concatenation of all pages, in order. */
  lemma {:induction false} ChainIsConcatenated(pages: ListOptions -> Result<Response, Error>, opts: ListOptions, rs: seq<Response>)
    requires Chain(pages, opts, rs)
    ensures FetchFrom(pages, opts, |rs|) == Some(Ok(Flatten(rs)))
    decreases |rs|
  {
    if |rs| == 1 {
      assert rs[1..] == [];
      assert Flatten(rs) == rs[0].annotations + [] == rs[0].annotations;
    } else {
      ChainIsConcatenated(pages, opts.(page := rs[0].nextPage), rs[1..]);
    }
  }

  /** An error on any page aborts the fetch: the pages fetched before it
      are discarded and the error comes back wrapped. */
  lemma {:induction false} ErrorDiscardsEarlierPages(pages: ListOptions -> Result<Response, Error>, opts: ListOptions, rs: seq<Response>, e: Error)
    requires ChainThenFails(pages, opts, rs, e)
    ensures FetchFrom(pages, opts, |rs| + 1) == Some(Err(Wrapped(AnnotationsErrorPrefix, e)))
    decreases |rs|
  {
    if rs != [] {
      ErrorDiscardsEarlierPages(pages, opts.(page := rs[0].nextPage), rs[1..], e);
    }
  }

  /** Conversely, every successful fetch is the concatenation of a chain
      that stops exactly at the first response without a next page. */
  lemma {:induction false} FetchedIsChain(pages: ListOptions -> Result<Response, Error>, opts: ListOptions, fuel: nat)
    returns (rs: seq<Response>)
    requires FetchFrom(pages, opts, fuel).Some? && FetchFrom(pages, opts, fuel).value.Ok?
    ensures Chain(pages, opts, rs) && |rs| <= fuel
    ensures FetchFrom(pages, opts, fuel).value.value == Flatten(rs)
    decreases fuel
  {
    var resp := pages(opts).value;
    if resp.nextPage == 0 {
      rs := [resp];
      assert Flatten(rs) == resp.annotations + Flatten([]);
    } else {
      var rest := FetchedIsChain(pages, opts.(page := resp.nextPage), fuel - 1);
      rs := [resp] + rest;
      assert rs[1..] == rest;
    }
  }

  /** Conversely, every failed fetch failed on the request after a chain
      of pages that all named a next page. */
  lemma {:induction false} FailedFetchIsChainThenFails(pages: ListOptions -> Result<Response, Error>, opts: ListOptions, fuel: nat)
    returns (rs: seq<Response>, e: Error)
    requires FetchFrom(pages, opts, fuel).Some? && FetchFrom(pages, opts, fuel).value.Err?
    ensures ChainThenFails(pages, opts, rs, e) && |rs| < fuel
    ensures FetchFrom(pages, opts, fuel).value.error == Wrapped(AnnotationsErrorPrefix, e)
    decreases fuel
  {
    match pages(opts)
    case Err(err) =>
      rs, e := [], err;
    case Ok(resp) =>
      var rest;
      rest, e := FailedFetchIsChainThenFails(pages, opts.(page := resp.nextPage), fuel - 1);
      rs := [resp] + rest;
      assert rs[1..] == rest;
  }

  /** Every request asks for the same page size as the first: an API that
      answers differently only for other page sizes yields the same fetch. */
  lemma {:induction false} OnlyPageSizeOfFirstRequest(p: ListOptions -> Result<Response, Error>, q: ListOptions -> Result<Response, Error>, opts: ListOptions, fuel: nat)
    requires forall page: int :: p(ListOptions(page, opts.perPage)) == q(ListOptions(page, opts.perPage))
    ensures FetchFrom(p, opts, fuel) == FetchFrom(q, opts, fuel)
    decreases fuel
  {
    assert p(ListOptions(opts.page, opts.perPage)) == q(ListOptions(opts.page, opts.perPage));
    if fuel > 0 && p(opts).Ok? && p(opts).value.nextPage != 0 {
      OnlyPageSizeOfFirstRequest(p, q, opts.(page := p(opts).value.nextPage), fuel - 1);
    }
  }

  /** The outcome does not depend on the bound, as long as it is large
      enough for the chain to end. */
  lemma {:induction false} FetchBoundIrrelevant(pages: ListOptions -> Result<Response, Error>, opts: ListOptions, fuel: nat, more: nat)
    requires FetchFrom(pages, opts, fuel).Some? && fuel <= more
    ensures FetchFrom(pages, opts, more) == FetchFrom(pages, opts, fuel)
    decreases fuel
  {
    if pages(opts).Ok? && pages(opts).value.nextPage != 0 {
      FetchBoundIrrelevant(pages, opts.(page := pages(opts).value.nextPage), fuel - 1, more - 1);
    }
  }

  /** The requests for a chain of pages that ends: one per page, the first
      for `opts` and each next one for the page the previous response
      named, at the same page size. */
  lemma {:induction false} RequestsFollowChain(pages: ListOptions -> Result<Response, Error>, opts: ListOptions, rs: seq<Response>)
    requires Chain(pages, opts, rs)
    ensures |Requests(pages, opts, |rs|)| == |rs|
    ensures Requests(pages, opts, |rs|)[0] == opts
    ensures forall i :: 0 <= i < |rs| - 1 ==> Requests(pages, opts, |rs|)[i + 1] == opts.(page := rs[i].nextPage)
    decreases |rs|
  {
    if |rs| > 1 {
      var next := opts.(page := rs[0].nextPage);
      RequestsFollowChain(pages, next, rs[1..]);
      var rest := Requests(pages, next, |rs| - 1);
      assert Requests(pages, opts, |rs|) == [opts] + rest;
      forall i | 0 <= i < |rs| - 1
        ensures Requests(pages, opts, |rs|)[i + 1] == opts.(page := rs[i].nextPage)
      {
        if i > 0 {
          assert rest[(i - 1) + 1] == next.(page := rs[1..][i - 1].nextPage);
        }
      }
    }
  }

  /** The requests of a fetch that fails: one per good page, and one more
      for the request that fails. */
  lemma {:induction false} RequestsUntilFailure(pages: ListOptions -> Result<Response, Error>, opts: ListOptions, rs: seq<Response>, e: Error)
    requires ChainThenFails(pages, opts, rs, e)
    ensures |Requests(pages, opts, |rs| + 1)| == |rs| + 1
    ensures Requests(pages, opts, |rs| + 1)[0] == opts
    decreases |rs|
  {
    if rs != [] {
      RequestsUntilFailure(pages, opts.(page := rs[0].nextPage), rs[1..], e);
    }
  }

  // =====================================================================
  // Batch assembly (processAnnotations)
  // =====================================================================

  const AttachErrorPrefix := "failed to attach data to log record: "
  const Dataset := "github.annotations"

  /** The resource attribute keys of a batch, `service.name` and `event.dataset`. */
  datatype ResourceKey = ServiceNameKey | EventDatasetKey

  /** A `plog.Logs` holding one resource with one scope, as the receiver builds it. */
  datatype Batch = Batch(resource: map<ResourceKey, string>, records: seq<RecordView>)

  function ResourceAttributes(serviceName: string): map<ResourceKey, string>
  {
    map[ServiceNameKey := serviceName, EventDatasetKey := Dataset]
  }

  /** The records for `s`, built one after the other; the first failure
      stops the loop. Defined on the last annotation to follow the loop. */
  function MapAll(s: seq<CheckRunAnnotation>, repository: Repository, run: Run, ext: Externals)
    : Result<seq<RecordView>, Error>
    decreases |s|
  {
    if s == [] then Ok([])
    else match MapAll(s[..|s| - 1], repository, run, ext)
      case Err(e) => Err(e)
      case Ok(rs) =>
        match MapAnnotation(s[|s| - 1], repository, run, ext)
        case Err(e) => Err(e)
        case Ok(r) => Ok(rs + [r])
  }

  /** One record per annotation, in input order; mapping fails exactly
      when there is an annotation and the trace id cannot be generated
      (the only step that can fail depends on the run alone). */
  lemma {:induction false} MapAllOnePerAnnotation(s: seq<CheckRunAnnotation>, repository: Repository, run: Run, ext: Externals)
    ensures s == [] ==> MapAll(s, repository, run, ext) == Ok([])
    ensures s != [] && ext.traceId(run.id, run.runAttempt).Err? ==>
              MapAll(s, repository, run, ext) == Err(ext.traceId(run.id, run.runAttempt).error)
    ensures ext.traceId(run.id, run.runAttempt).Ok? ==>
              MapAll(s, repository, run, ext).Ok? && |MapAll(s, repository, run, ext).value| == |s|
    ensures ext.traceId(run.id, run.runAttempt).Ok? ==>
              forall i :: 0 <= i < |s| ==> MapAll(s, repository, run, ext).value[i] == MapAnnotation(s[i], repository, run, ext).value
    decreases |s|
  {
    if s != [] {
      var init := s[..|s| - 1];
      MapAllOnePerAnnotation(init, repository, run, ext);
      if ext.traceId(run.id, run.runAttempt).Ok? {
        var rs := MapAll(init, repository, run, ext).value;
        var all := MapAll(s, repository, run, ext).value;
        assert all == rs + [MapAnnotation(s[|s| - 1], repository, run, ext).value];
        forall i | 0 <= i < |s|
          ensures all[i] == MapAnnotation(s[i], repository, run, ext).value
        {
          if i < |s| - 1 {
            assert s[i] == init[i];
          }
        }
      }
    }
  }

  /** processAnnotations' outcome: the record count of the assembled batch,
      the error, and (ghost) the batches handed to the consumer. */
  datatype Processed = Processed(count: nat, err: Option<Error>, sent: seq<Batch>)

  /** Everything `processAnnotations` depends on besides its arguments. */
  datatype Environment = Environment(
    api: AnnotationsApi,
    ext: Externals,
    serviceName: string -> string,
    downstream: Downstream)

  function ProcessAnnotationsSpec(annotations: seq<CheckRunAnnotation>, repository: Repository, run: Run,
                                  env: Environment, cancelled: nat -> bool): Processed
  {
    match MapAll(annotations, repository, run, env.ext)
    case Err(e) => Processed(0, Some(Wrapped(AttachErrorPrefix, e)), [])
    case Ok(records) =>
      if |records| == 0 then Processed(0, None, [])
      else
        var batch := Batch(ResourceAttributes(env.serviceName(repository.fullName)), records);
        var d := Deliver(env.downstream, cancelled, batch, 0);
        Processed(|records|, VerdictError(d.verdict), d.sent)
  }

  /** processAnnotations: assembles one record per annotation under the
      resource attributes, skips delivery when there is none, and
      otherwise delivers with retries, reporting the assembled count. */
  method ProcessAnnotations(annotations: seq<CheckRunAnnotation>, repository: Repository, run: Run,
                            env: Environment, cancelled: nat -> bool)
    returns (count: nat, err: Option<Error>, ghost sent: seq<Batch>)
    ensures count == ProcessAnnotationsSpec(annotations, repository, run, env, cancelled).count
    ensures err == ProcessAnnotationsSpec(annotations, repository, run, env, cancelled).err
    ensures sent == ProcessAnnotationsSpec(annotations, repository, run, env, cancelled).sent
  {
    var resource := ResourceAttributes(env.serviceName(repository.fullName));
    var records: seq<RecordView> := [];
    for i := 0 to |annotations|
      invariant MapAll(annotations[..i], repository, run, env.ext) == Ok(records)
    {
      var line := ParseAnnotationToLogLine(run.completedAt, annotations[i]);
      var rec := new LogRecord();
      var attachErr := AttachData(rec, repository, run, line, env.ext);
      assert annotations[..i + 1][..i] == annotations[..i];
      if attachErr.Some? {
        MapAllOnePerAnnotation(annotations, repository, run, env.ext);
        return 0, Some(Wrapped(AttachErrorPrefix, attachErr.value)), [];
      }
      records := records + [rec.View()];
    }
    assert annotations[..|annotations|] == annotations;
    if |records| == 0 {
      return 0, None, [];
    }
    var logs := Batch(resource, records);
    err, sent := ConsumeLogsWithRetry(logs, env.downstream, cancelled);
    count := |records|;
  }

  /** Zero annotations: nothing is delivered and the outcome is `(0, nil)`,
      even when the trace id could not have been generated. */
  lemma EmptyBatchSkipsDelivery(repository: Repository, run: Run, env: Environment, cancelled: nat -> bool)
    ensures ProcessAnnotationsSpec([], repository, run, env, cancelled) == Processed(0, None, [])
  {
  }

  /** With at least one annotation and a trace id, the first batch handed
      to the consumer carries the resource attributes and one record per
      annotation in order, and the count reported is that of this batch,
      whatever residues later attempts send. */
  lemma AssembledBatch(annotations: seq<CheckRunAnnotation>, repository: Repository, run: Run,
                       env: Environment, cancelled: nat -> bool)
    requires annotations != [] && env.ext.traceId(run.id, run.runAttempt).Ok?
    ensures var p := ProcessAnnotationsSpec(annotations, repository, run, env, cancelled);
      p.count == |annotations| && |p.sent| >= 1 &&
      p.sent[0].resource[ServiceNameKey] == env.serviceName(repository.fullName) &&
      p.sent[0].resource[EventDatasetKey] == "github.annotations" &&
      |p.sent[0].records| == |annotations| &&
      forall i :: 0 <= i < |annotations| ==> p.sent[0].records[i] == MapAnnotation(annotations[i], repository, run, env.ext).value
  {
    MapAllOnePerAnnotation(annotations, repository, run, env.ext);
    var records := MapAll(annotations, repository, run, env.ext).value;
    DeliveryTrace(env.downstream, cancelled,
                  Batch(ResourceAttributes(env.serviceName(repository.fullName)), records), 0);
  }

  /** If the trace id cannot be generated, a non-empty batch is never
      delivered and the error comes back wrapped, with count 0. */
  lemma AttachFailureStopsBeforeDelivery(annotations: seq<CheckRunAnnotation>, repository: Repository, run: Run,
                                         env: Environment, cancelled: nat -> bool)
    requires annotations != [] && env.ext.traceId(run.id, run.runAttempt).Err?
    ensures ProcessAnnotationsSpec(annotations, repository, run, env, cancelled) ==
              Processed(0, Some(Wrapped(AttachErrorPrefix, env.ext.traceId(run.id, run.runAttempt).error)), [])
  {
    MapAllOnePerAnnotation(annotations, repository, run, env.ext);
  }

  /** A partial failure's residue is what the next attempt sends, as the
      consumer returned it: nothing checks that it still holds records, so
      a consumer that fails with an empty residue is sent an empty batch. */
  lemma EmptyResidueIsDelivered(annotations: seq<CheckRunAnnotation>, repository: Repository, run: Run,
                                env: Environment, e: Error)
    requires annotations != [] && env.ext.traceId(run.id, run.runAttempt).Ok?
    requires |env.downstream.backoff| > 0
    requires forall b :: env.downstream.consume(0, b) == Failed(e, false, Some(Batch(b.resource, [])))
    ensures var p := ProcessAnnotationsSpec(annotations, repository, run, env, NeverDone);
      p.count == |annotations| && |p.sent| >= 2 && |p.sent[0].records| == |annotations| &&
      p.sent[1] == Batch(p.sent[0].resource, [])
  {
    MapAllOnePerAnnotation(annotations, repository, run, env.ext);
    var batch := Batch(ResourceAttributes(env.serviceName(repository.fullName)),
                       MapAll(annotations, repository, run, env.ext).value);
    var residue := Batch(batch.resource, []);
    DeliverStep(env.downstream, NeverDone, batch, 0);
    DeliveryTrace(env.downstream, NeverDone, residue, 1);
  }

  // =====================================================================
  // Delivery with retries (consumeLogsWithRetry)
  // =====================================================================

  const CancelledPrefix := "context is cancelled or timed out "

  /** What one `ConsumeLogs` call returns: no error, or an error that may be
      permanent and may carry the residue still to be sent. */
  datatype Consumed = Accepted | Failed(err: Error, permanent: bool, residue: Option<Batch>)

  /** The downstream consumer, whose answer may depend on the attempt
      number, and the backoff schedule: the k-th `NextBackOff` returns
      `backoff[k]`, and `Stop` once the schedule is used up. */
  datatype Downstream = Downstream(consume: (nat, Batch) -> Consumed, backoff: seq<nat>)

  datatype Verdict = Succeeded | PermanentlyFailed(err: Error) | Exhausted(err: Error) | Cancelled(last: Error)

  /** The final verdict and the batches sent, one per attempt. */
  datatype Delivery = Delivery(verdict: Verdict, sent: seq<Batch>)

  /** The error `consumeLogsWithRetry` returns for a verdict. */
  function VerdictError(v: Verdict): Option<Error>
  {
    match v
    case Succeeded => None
    case PermanentlyFailed(e) => Some(e)
    case Exhausted(e) => Some(e)
    case Cancelled(e) => Some(Wrapped(CancelledPrefix, e))
  }

  /** The batch to send after a failed attempt: the residue if the error has one. */
  function Carry(c: Consumed, b: Batch): Batch
  {
    if c.Failed? && c.residue.Some? then c.residue.value else b
  }

  /** The delivery loop from attempt `k` with `logs` in flight; `cancelled(k)`
      says whether the context is done during the k-th wait. */
  function Deliver(d: Downstream, cancelled: nat -> bool, logs: Batch, k: nat): Delivery
    requires k <= |d.backoff|
    decreases |d.backoff| - k
  {
    match d.consume(k, logs)
    case Accepted => Delivery(Succeeded, [logs])
    case Failed(err, permanent, residue) =>
      if permanent then Delivery(PermanentlyFailed(err), [logs])
      else if k == |d.backoff| then Delivery(Exhausted(err), [logs])
      else if cancelled(k) then Delivery(Cancelled(err), [logs])
      else
        var rest := Deliver(d, cancelled, Carry(d.consume(k, logs), logs), k + 1);
        Delivery(rest.verdict, [logs] + rest.sent)
  }

  /** consumeLogsWithRetry: attempts until the consumer accepts, an error is
      permanent, the backoff stops or the context is done during a wait. */
  method ConsumeLogsWithRetry(logs: Batch, d: Downstream, cancelled: nat -> bool)
    returns (err: Option<Error>, ghost sent: seq<Batch>)
    ensures err == VerdictError(Deliver(d, cancelled, logs, 0).verdict)
    ensures sent == Deliver(d, cancelled, logs, 0).sent
  {
    var current := logs;
    var attempt: nat := 0;
    sent := [];
    while true
      invariant attempt <= |d.backoff|
      invariant Deliver(d, cancelled, logs, 0).verdict == Deliver(d, cancelled, current, attempt).verdict
      invariant Deliver(d, cancelled, logs, 0).sent == sent + Deliver(d, cancelled, current, attempt).sent
      decreases |d.backoff| - attempt
    {
      var result := d.consume(attempt, current);
      DeliverStep(d, cancelled, current, attempt);
      ghost var previous := sent;
      sent := sent + [current];
      if result.Accepted? {
        return None, sent;
      }
      if result.permanent {
        return Some(result.err), sent;
      }
      ghost var sentNow := current;
      if result.residue.Some? {
        current := result.residue.value;
      }
      // NextBackOff: the schedule is used up, i.e. `backoff.Stop`.
      if attempt == |d.backoff| {
        return Some(result.err), sent;
      }
      // The wait of d.backoff[attempt], unless the context is done first.
      if cancelled(attempt) {
        return Some(Wrapped(CancelledPrefix, result.err)), sent;
      }
      SentAssoc(previous, sentNow, Deliver(d, cancelled, current, attempt + 1).sent);
      attempt := attempt + 1;
    }
  }

  /** One attempt of the loop: how `Deliver` from attempt `k` is made of
      that attempt's outcome and, after a retry, the rest of the loop. */
  lemma DeliverStep(d: Downstream, cancelled: nat -> bool, logs: Batch, k: nat)
    requires k <= |d.backoff|
    ensures d.consume(k, logs).Accepted? ==> Deliver(d, cancelled, logs, k) == Delivery(Succeeded, [logs])
    ensures d.consume(k, logs).Failed? && d.consume(k, logs).permanent ==>
              Deliver(d, cancelled, logs, k) == Delivery(PermanentlyFailed(d.consume(k, logs).err), [logs])
    ensures d.consume(k, logs).Failed? && !d.consume(k, logs).permanent && k == |d.backoff| ==>
              Deliver(d, cancelled, logs, k) == Delivery(Exhausted(d.consume(k, logs).err), [logs])
    ensures d.consume(k, logs).Failed? && !d.consume(k, logs).permanent && k < |d.backoff| && cancelled(k) ==>
              Deliver(d, cancelled, logs, k) == Delivery(Cancelled(d.consume(k, logs).err), [logs])
    ensures d.consume(k, logs).Failed? && !d.consume(k, logs).permanent && k < |d.backoff| && !cancelled(k) ==>
              var rest := Deliver(d, cancelled, Carry(d.consume(k, logs), logs), k + 1);
              Deliver(d, cancelled, logs, k) == Delivery(rest.verdict, [logs] + rest.sent)
  {
  }

  lemma SentAssoc(previous: seq<Batch>, b: Batch, rest: seq<Batch>)
    ensures previous + ([b] + rest) == (previous + [b]) + rest
  {
  }

  /** The k-th attempt, sending `b`, failed in a retryable way, no
      cancellation came during the wait, and the next attempt sends `b2`. */
  predicate Retried(d: Downstream, cancelled: nat -> bool, k: nat, b: Batch, b2: Batch)
  {
    d.consume(k, b).Failed? && !d.consume(k, b).permanent && k < |d.backoff| && !cancelled(k) &&
    b2 == Carry(d.consume(k, b), b)
  }

  /** The k-th attempt, sending `b`, ends the loop with verdict `v`. */
  predicate Ends(d: Downstream, cancelled: nat -> bool, k: nat, b: Batch, v: Verdict)
  {
    match d.consume(k, b)
    case Accepted => v == Succeeded
    case Failed(err, permanent, _) =>
      if permanent then v == PermanentlyFailed(err)
      else if k >= |d.backoff| then v == Exhausted(err)
      else cancelled(k) && v == Cancelled(err)
  }

  /** A run of the loop from attempt `k`: one batch per attempt, each
      attempt but the last retried, the last one ending it. */
  predicate IsRun(d: Downstream, cancelled: nat -> bool, k: nat, logs: Batch, v: Verdict, sent: seq<Batch>)
  {
    |sent| >= 1 && sent[0] == logs && k + |sent| - 1 <= |d.backoff| &&
    (forall i :: 0 <= i < |sent| - 1 ==> Retried(d, cancelled, k + i, sent[i], sent[i + 1])) &&
    Ends(d, cancelled, k + |sent| - 1, sent[|sent| - 1], v)
  }

  /** The delivery loop is such a run: success, a permanent error, the
      end of the schedule or a cancellation, each ends it at that attempt,
      and a residue replaces the batch for the attempts that follow. */
  lemma {:induction false} DeliveryTrace(d: Downstream, cancelled: nat -> bool, logs: Batch, k: nat)
    requires k <= |d.backoff|
    ensures IsRun(d, cancelled, k, logs, Deliver(d, cancelled, logs, k).verdict, Deliver(d, cancelled, logs, k).sent)
    decreases |d.backoff| - k
  {
    var c := d.consume(k, logs);
    if c.Failed? && !c.permanent && k < |d.backoff| && !cancelled(k) {
      var next := Carry(c, logs);
      DeliveryTrace(d, cancelled, next, k + 1);
      var rest := Deliver(d, cancelled, next, k + 1);
      var sent := [logs] + rest.sent;
      assert sent[1..] == rest.sent;
      forall i | 0 <= i < |sent| - 1
        ensures Retried(d, cancelled, k + i, sent[i], sent[i + 1])
      {
        if i > 0 {
          assert Retried(d, cancelled, (k + 1) + (i - 1), rest.sent[i - 1], rest.sent[i]);
        }
      }
    }
  }

  /** And only such a run: any verdict and batches that satisfy the rules
      above are what the loop produces. */
  lemma {:induction false} RunIsDelivery(d: Downstream, cancelled: nat -> bool, k: nat, logs: Batch, v: Verdict, sent: seq<Batch>)
    requires IsRun(d, cancelled, k, logs, v, sent)
    ensures k <= |d.backoff| && Deliver(d, cancelled, logs, k) == Delivery(v, sent)
    decreases |sent|
  {
    if |sent| > 1 {
      assert Retried(d, cancelled, k + 0, sent[0], sent[1]);
      var tail := sent[1..];
      forall i | 0 <= i < |tail| - 1
        ensures Retried(d, cancelled, (k + 1) + i, tail[i], tail[i + 1])
      {
        assert Retried(d, cancelled, k + (i + 1), sent[i + 1], sent[i + 2]);
      }
      RunIsDelivery(d, cancelled, k + 1, sent[1], v, tail);
      assert sent == [logs] + tail;
    }
  }

  /** A consumer that fails `n` times without residue and then accepts,
      with the schedule long enough and no cancellation: success after
      exactly `n + 1` attempts, each sending the whole batch. */
  lemma SucceedsAfterTransientFailures(d: Downstream, cancelled: nat -> bool, logs: Batch, n: nat)
    requires n <= |d.backoff|
    requires forall i :: 0 <= i < n ==> d.consume(i, logs).Failed? && !d.consume(i, logs).permanent &&
                                         d.consume(i, logs).residue.None? && !cancelled(i)
    requires d.consume(n, logs) == Accepted
    ensures Deliver(d, cancelled, logs, 0) == Delivery(Succeeded, seq(n + 1, _ => logs))
  {
    var sent := seq(n + 1, _ => logs);
    forall i | 0 <= i < |sent| - 1
      ensures Retried(d, cancelled, 0 + i, sent[i], sent[i + 1])
    {
    }
    RunIsDelivery(d, cancelled, 0, logs, Succeeded, sent);
  }

  /** A consumer that always fails without residue and no cancellation:
      the loop stops when the schedule is used up, after one attempt more
      than the schedule has delays, returning the last error. */
  lemma ExhaustsSchedule(d: Downstream, cancelled: nat -> bool, logs: Batch)
    requires forall i :: 0 <= i <= |d.backoff| ==> d.consume(i, logs).Failed? && !d.consume(i, logs).permanent &&
                                                    d.consume(i, logs).residue.None?
    requires forall i :: 0 <= i < |d.backoff| ==> !cancelled(i)
    ensures Deliver(d, cancelled, logs, 0) ==
              Delivery(Exhausted(d.consume(|d.backoff|, logs).err), seq(|d.backoff| + 1, _ => logs))
  {
    var sent := seq(|d.backoff| + 1, _ => logs);
    forall i | 0 <= i < |sent| - 1
      ensures Retried(d, cancelled, 0 + i, sent[i], sent[i + 1])
    {
    }
    RunIsDelivery(d, cancelled, 0, logs, Exhausted(d.consume(|d.backoff|, logs).err), sent);
  }

  /** A consumer that fails non-permanently from attempt `k` on, whatever
      batch it is sent and whatever residue it returns, and no cancellation
      during a wait: the loop stops when the schedule is used up, after one
      attempt per remaining delay plus one, with the error of the last
      attempt. */
  lemma {:induction false} ExhaustsScheduleWithResidues(d: Downstream, cancelled: nat -> bool, logs: Batch, k: nat)
    requires k <= |d.backoff|
    requires forall i: nat, b :: k <= i <= |d.backoff| ==> d.consume(i, b).Failed? && !d.consume(i, b).permanent
    requires forall i: nat :: k <= i < |d.backoff| ==> !cancelled(i)
    ensures var r := Deliver(d, cancelled, logs, k);
      |r.sent| == |d.backoff| - k + 1 &&
      r.verdict == Exhausted(d.consume(|d.backoff|, r.sent[|r.sent| - 1]).err)
    decreases |d.backoff| - k
  {
    if k < |d.backoff| {
      var next := Carry(d.consume(k, logs), logs);
      ExhaustsScheduleWithResidues(d, cancelled, next, k + 1);
      DeliverStep(d, cancelled, logs, k);
    }
  }

  /** A consumer that fails non-permanently at attempts `k` to `n - 1`,
      whatever batch it is sent and whatever residue it returns, and then
      accepts, with the schedule long enough and no cancellation: success
      after exactly `n - k + 1` attempts. */
  lemma {:induction false} SucceedsAfterFailuresWithResidues(d: Downstream, cancelled: nat -> bool, logs: Batch, k: nat, n: nat)
    requires k <= n <= |d.backoff|
    requires forall i: nat, b :: k <= i < n ==> d.consume(i, b).Failed? && !d.consume(i, b).permanent
    requires forall i: nat :: k <= i < n ==> !cancelled(i)
    requires forall b :: d.consume(n, b) == Accepted
    ensures Deliver(d, cancelled, logs, k).verdict == Succeeded
    ensures |Deliver(d, cancelled, logs, k).sent| == n - k + 1
    decreases n - k
  {
    if k < n {
      var next := Carry(d.consume(k, logs), logs);
      SucceedsAfterFailuresWithResidues(d, cancelled, next, k + 1, n);
      DeliverStep(d, cancelled, logs, k);
    }
  }

  /** A permanent error ends the loop at that attempt with that error,
      even if it also carries a residue. */
  lemma PermanentErrorStops(d: Downstream, cancelled: nat -> bool, logs: Batch, k: nat)
    requires k <= |d.backoff| && d.consume(k, logs).Failed? && d.consume(k, logs).permanent
    ensures Deliver(d, cancelled, logs, k) == Delivery(PermanentlyFailed(d.consume(k, logs).err), [logs])
  {
  }

  /** With a context that is never done, the loop never ends cancelled. */
  lemma {:induction false} NeverCancelledWithoutCancellation(d: Downstream, logs: Batch, k: nat)
    requires k <= |d.backoff|
    ensures !Deliver(d, NeverDone, logs, k).verdict.Cancelled?
    decreases |d.backoff| - k
  {
    var c := d.consume(k, logs);
    if c.Failed? && !c.permanent && k < |d.backoff| {
      NeverCancelledWithoutCancellation(d, Carry(c, logs), k + 1);
    }
  }

  // =====================================================================
  // Webhook gate (handleEvent, handleWorkflowJobEvent, processWorkflowJobEvent)
  // =====================================================================

  /** The handler's context is `context.WithoutCancel(r.Context())`, which is never done. */
  const NeverDone: nat -> bool := _ => false

  /** `*event.GetWorkflowJob().WorkflowName`, evaluated when the handler
      first logs, dereferences these pointers without a nil check. */
  predicate InfoFieldsDefined(e: WorkflowJobEvent)
  {
    e.workflowJob.Some? && e.workflowJob.value.workflowName.Some?
  }

  /** The hook gets as far as the annotation fetch. */
  predicate ReachesFetch(hook: Webhook)
  {
    hook.payloadValid && hook.event.Some? && hook.event.value.JobEvent? &&
    GetString(hook.event.value.job.action) == "completed" && InfoFieldsDefined(hook.event.value.job)
  }

  /** The cursor chain of the fetch this hook makes, if any, ends within `bound` pages. */
  predicate FetchEnds(hook: Webhook, env: Environment, bound: nat)
  {
    ReachesFetch(hook) ==> FetchFrom(JobPages(env.api, hook.event.value.job), FirstPage, bound).Some?
  }

  /** processWorkflowJobEvent's outcome. `aborted`: `mapRun` panicked;
      `requests`: the calls made to the annotation API. */
  datatype JobOutcome = JobOutcome(err: Option<Error>, aborted: bool, requests: seq<ListOptions>, sent: seq<Batch>)

  function ProcessWorkflowJobEventSpec(e: WorkflowJobEvent, env: Environment, bound: nat): JobOutcome
    requires FetchFrom(JobPages(env.api, e), FirstPage, bound).Some?
  {
    var fetched := FetchFrom(JobPages(env.api, e), FirstPage, bound).value;
    var requests := Requests(JobPages(env.api, e), FirstPage, bound);
    var annotations := if fetched.Ok? then fetched.value else [];
    if e.workflowJob.None? || !MapRunDefined(e.workflowJob.value) then JobOutcome(None, true, requests, [])
    else
      var p := ProcessAnnotationsSpec(annotations, MapRepository(e.repo), MapRun(e.workflowJob.value), env, NeverDone);
      JobOutcome(p.err, false, requests, p.sent)
  }

  /** processWorkflowJobEvent: a fetch error is only logged and processing
      goes on with no annotations; the run and repository are mapped from
      the payload and the annotations processed. */
  method ProcessWorkflowJobEvent(e: WorkflowJobEvent, env: Environment, ghost bound: nat)
    returns (err: Option<Error>, aborted: bool, ghost requests: seq<ListOptions>, ghost sent: seq<Batch>)
    requires FetchFrom(JobPages(env.api, e), FirstPage, bound).Some?
    ensures err == ProcessWorkflowJobEventSpec(e, env, bound).err
    ensures aborted == ProcessWorkflowJobEventSpec(e, env, bound).aborted
    ensures requests == ProcessWorkflowJobEventSpec(e, env, bound).requests
    ensures sent == ProcessWorkflowJobEventSpec(e, env, bound).sent
  {
    var fetched;
    fetched, requests := GetAnnotations(e, env.api, bound);
    var annotations := if fetched.Ok? then fetched.value else [];
    if e.workflowJob.None? || !MapRunDefined(e.workflowJob.value) {
      // mapRun dereferences a nil pointer.
      return None, true, requests, [];
    }
    var run := MapRun(e.workflowJob.value);
    var repository := MapRepository(e.repo);
    var count;
    count, err, sent := ProcessAnnotations(annotations, repository, run, env, NeverDone);
    aborted := false;
  }

  /** What the handler did: the status it wrote (`None`: none, so net/http
      answers 200), whether it panicked, the calls it made to the
      annotation API, and the batches handed to the consumer. */
  datatype Handled = Handled(status: Option<int>, aborted: bool, requests: seq<ListOptions>, sent: seq<Batch>)

  function HandleWorkflowJobEventSpec(e: WorkflowJobEvent, env: Environment, bound: nat): Handled
    requires GetString(e.action) == "completed" && InfoFieldsDefined(e) ==>
               FetchFrom(JobPages(env.api, e), FirstPage, bound).Some?
  {
    if GetString(e.action) != "completed" then Handled(Some(StatusOK), false, [], [])
    else if !InfoFieldsDefined(e) then Handled(None, true, [], [])
    else
      var o := ProcessWorkflowJobEventSpec(e, env, bound);
      Handled(if o.err.Some? then Some(StatusInternalServerError) else None, o.aborted, o.requests, o.sent)
  }

  function HandleEventSpec(hook: Webhook, env: Environment, bound: nat): Handled
    requires FetchEnds(hook, env, bound)
  {
    if !hook.payloadValid then Handled(Some(StatusUnauthorized), false, [], [])
    else match hook.event
      case None => Handled(Some(StatusBadRequest), false, [], [])
      case Some(OtherEvent(_)) => Handled(Some(StatusOK), false, [], [])
      case Some(JobEvent(e)) => HandleWorkflowJobEventSpec(e, env, bound)
  }

  /** `http.ResponseWriter`, as far as status codes go. */
  class ResponseWriter {
    var status: Option<int>

    constructor ()
      ensures status == None
    {
      status := None;
    }

    /** A second `WriteHeader` is superfluous and ignored. */
    method WriteHeader(code: int)
      modifies this
      ensures status == if old(status).None? then Some(code) else old(status)
    {
      if status.None? {
        status := Some(code);
      }
    }
  }

  /** handleWorkflowJobEvent: only a completed job is processed; a pipeline
      error is answered with 500, success with no explicit status. */
  method HandleWorkflowJobEvent(w: ResponseWriter, e: WorkflowJobEvent, env: Environment, ghost bound: nat)
    returns (aborted: bool, ghost requests: seq<ListOptions>, ghost sent: seq<Batch>)
    requires GetString(e.action) == "completed" && InfoFieldsDefined(e) ==>
               FetchFrom(JobPages(env.api, e), FirstPage, bound).Some?
    requires w.status == None
    modifies w
    ensures Handled(w.status, aborted, requests, sent) == HandleWorkflowJobEventSpec(e, env, bound)
  {
    if GetString(e.action) != "completed" {
      w.WriteHeader(StatusOK);
      return false, [], [];
    }
    if !InfoFieldsDefined(e) {
      // Building the log fields dereferences a nil workflow name.
      return true, [], [];
    }
    var err;
    err, aborted, requests, sent := ProcessWorkflowJobEvent(e, env, bound);
    if err.Some? {
      w.WriteHeader(StatusInternalServerError);
    }
  }

  /** handleEvent: the payload validation gate, the parse gate, and the
      dispatch on the event kind. */
  method HandleEvent(w: ResponseWriter, hook: Webhook, env: Environment, ghost bound: nat)
    returns (aborted: bool, ghost requests: seq<ListOptions>, ghost sent: seq<Batch>)
    requires FetchEnds(hook, env, bound)
    requires w.status == None
    modifies w
    ensures Handled(w.status, aborted, requests, sent) == HandleEventSpec(hook, env, bound)
  {
    if !hook.payloadValid {
      w.WriteHeader(StatusUnauthorized);
      return false, [], [];
    }
    if hook.event.None? {
      w.WriteHeader(StatusBadRequest);
      return false, [], [];
    }
    match hook.event.value
    case JobEvent(e) =>
      aborted, requests, sent := HandleWorkflowJobEvent(w, e, env, bound);
    case OtherEvent(_) =>
      w.WriteHeader(StatusOK);
      return false, [], [];
  }

  /** The status codes the handler can produce, and which gate produces
      which: 401 exactly when payload validation fails, 400 exactly for a
      payload that does not parse, and the annotation API is called exactly
      for a completed job event whose job and workflow name are present,
      starting with the first page; nothing is delivered without a call. */
  lemma GateOutcomes(hook: Webhook, env: Environment, bound: nat)
    requires FetchEnds(hook, env, bound)
    ensures var h := HandleEventSpec(hook, env, bound);
      (h.status == None || h.status == Some(StatusOK) || h.status == Some(StatusBadRequest) ||
       h.status == Some(StatusUnauthorized) || h.status == Some(StatusInternalServerError)) &&
      (h.status == Some(StatusUnauthorized) <==> !hook.payloadValid) &&
      (h.status == Some(StatusBadRequest) <==> hook.payloadValid && hook.event.None?) &&
      (h.requests != [] <==> ReachesFetch(hook)) &&
      (h.requests != [] ==> h.requests[0] == FirstPage) &&
      (h.sent != [] ==> h.requests != []) &&
      (h.aborted ==> h.status == None)
  {
  }

  /** Other event kinds, and job events whose action is not "completed",
      are acknowledged with 200 and never call the annotation API. */
  lemma IgnoredEventsAcknowledged(hook: Webhook, env: Environment, bound: nat)
    requires hook.payloadValid && hook.event.Some?
    requires hook.event.value.OtherEvent? || GetString(hook.event.value.job.action) != "completed"
    ensures HandleEventSpec(hook, env, bound) == Handled(Some(StatusOK), false, [], [])
  {
  }

  /** For a completed job event, the status is 500 exactly when
      processWorkflowJobEvent returns an error; otherwise none is written. */
  lemma InternalErrorIffPipelineFails(hook: Webhook, env: Environment, bound: nat)
    requires FetchEnds(hook, env, bound) && ReachesFetch(hook)
    ensures var h := HandleEventSpec(hook, env, bound);
      var o := ProcessWorkflowJobEventSpec(hook.event.value.job, env, bound);
      (h.status == Some(StatusInternalServerError) <==> o.err.Some?) &&
      (h.status == None <==> o.err.None?)
  {
  }

  /** A failed fetch is only logged: processing goes on with no
      annotations, so nothing is delivered and no error is answered. */
  lemma FetchFailureIsOnlyLogged(hook: Webhook, env: Environment, bound: nat)
    requires FetchEnds(hook, env, bound) && ReachesFetch(hook)
    requires FetchFrom(JobPages(env.api, hook.event.value.job), FirstPage, bound).value.Err?
    ensures HandleEventSpec(hook, env, bound).status == None
    ensures HandleEventSpec(hook, env, bound).sent == []
  {
    var e := hook.event.value.job;
    if e.workflowJob.Some? && MapRunDefined(e.workflowJob.value) {
      EmptyBatchSkipsDelivery(MapRepository(e.repo), MapRun(e.workflowJob.value), env, NeverDone);
    }
  }

  const BuildFailed := CheckRunAnnotation(Some("build failed"), Some("failure"), None, None, None)
  const DeprecatedApi := CheckRunAnnotation(Some("deprecated api"), Some("warning"), None, None, None)

  /** A completed job of run 42, attempt 1, in acme/widgets, with two
      annotations on one page and a consumer that accepts: no status is
      written, and one batch of two records is delivered, in order, sharing
      one trace id, each with the repository, run id and attempt
      attributes and the run's completion time. */
  lemma EndToEndScenario(env: Environment, job: WorkflowJob, t: TraceId)
    requires MapRunDefined(job) && job.workflowName.Some?
    requires job.runID == Some(42) && job.runAttempt == Some(1)
    requires env.ext.traceId(42, 1) == Ok(t)
    requires env.api("acme", "widgets", GetInt64(job.id), FirstPage) == Ok(Response([BuildFailed, DeprecatedApi], 0))
    requires forall k, b :: env.downstream.consume(k, b) == Accepted
    ensures var hook := Webhook(true, Some(JobEvent(WorkflowJobEvent(
                          Some("completed"), Some(job),
                          Some(GitHubRepository(Some("acme/widgets"), Some(User(Some("acme"))), Some("widgets")))))));
      FetchEnds(hook, env, 1) &&
      var h := HandleEventSpec(hook, env, 1);
      h.status == None && !h.aborted && h.requests == [FirstPage] && |h.sent| == 1 &&
      ScenarioRecords(h.sent[0].records, t, job.completedAt.value)
  {
    var repo := Some(GitHubRepository(Some("acme/widgets"), Some(User(Some("acme"))), Some("widgets")));
    var e := WorkflowJobEvent(Some("completed"), Some(job), repo);
    var annotations := [BuildFailed, DeprecatedApi];
    assert OwnerLogin(repo) == "acme" && RepoName(repo) == "widgets" && JobId(e) == GetInt64(job.id);
    assert JobPages(env.api, e)(FirstPage) == Ok(Response(annotations, 0));
    assert FetchFrom(JobPages(env.api, e), FirstPage, 1) == Some(Ok(annotations));
    var run := MapRun(job);
    var repository := MapRepository(repo);
    ScenarioRecordsHold(repository, run, env.ext, t);
    AcceptedAtOnce(annotations, repository, run, env);
  }

  /** A consumer that accepts at once receives the assembled batch exactly once. */
  lemma AcceptedAtOnce(annotations: seq<CheckRunAnnotation>, repository: Repository, run: Run, env: Environment)
    requires annotations != [] && env.ext.traceId(run.id, run.runAttempt).Ok?
    requires forall k, b :: env.downstream.consume(k, b) == Accepted
    ensures MapAll(annotations, repository, run, env.ext).Ok?
    ensures ProcessAnnotationsSpec(annotations, repository, run, env, NeverDone) ==
              Processed(|annotations|, None,
                        [Batch(ResourceAttributes(env.serviceName(repository.fullName)),
                               MapAll(annotations, repository, run, env.ext).value)])
  {
    MapAllOnePerAnnotation(annotations, repository, run, env.ext);
  }

  /** The records mapped from the scenario's two annotations. */
  lemma ScenarioRecordsHold(repository: Repository, run: Run, ext: Externals, t: TraceId)
    requires repository.fullName == "acme/widgets" && run.id == 42 && run.runAttempt == 1
    requires ext.traceId(42, 1) == Ok(t)
    ensures MapAll([BuildFailed, DeprecatedApi], repository, run, ext).Ok?
    ensures ScenarioRecords(MapAll([BuildFailed, DeprecatedApi], repository, run, ext).value, t, run.completedAt)
  {
    var annotations := [BuildFailed, DeprecatedApi];
    MapAllOnePerAnnotation(annotations, repository, run, ext);
    RecordAttributesComplete(repository, run, ext);
    var records := MapAll(annotations, repository, run, ext).value;
    assert records[0] == MapAnnotation(BuildFailed, repository, run, ext).value;
    assert records[1] == MapAnnotation(DeprecatedApi, repository, run, ext).value;
  }

  /** The two records of the scenario above. */
  predicate ScenarioRecords(records: seq<RecordView>, t: TraceId, completedAt: Time)
  {
    |records| == 2 &&
    records[0].body == Str("build failed") && records[1].body == Str("deprecated api") &&
    records[0].severityText == "failure" && records[1].severityText == "warning" &&
    forall i :: 0 <= i < 2 ==>
      records[i].traceId == t &&
      records[i].timestamp == Some(completedAt) &&
      RepositoryKey in records[i].attributes && records[i].attributes[RepositoryKey] == Str("acme/widgets") &&
      RunIdKey in records[i].attributes && records[i].attributes[RunIdKey] == Int(42) &&
      RunAttemptKey in records[i].attributes && records[i].attributes[RunAttemptKey] == Int(1)
  }
}
