/**
 * Properties of the paging session over whole runs: any interleaving of loads,
 * executor replies and cleanups, as the console's event loop may produce them.
 */
module QueryResultsProperties {
  import opened Wrappers
  import opened JsqlPagination
  import opened QueryResults

  /** One atomic step of the event loop between two resets. */
  datatype Step =
    | LoadStep(pageOffset: int)                    // the synchronous start of loading a page
    | SettleStep(request: Request, reply: Reply)   // a request's executor reply arrives
    | FinishStep(request: Request)                 // a request's cleanup runs

  function Apply(s: State, step: Step): State
  {
    match step
    case LoadStep(pageOffset) => BeginState(s, pageOffset).next
    case SettleStep(request, reply) => SettleState(s, request, reply).next
    case FinishStep(request) => FinishState(s, request)
  }

  /** The state after running `steps` from `s`. */
  function Run(s: State, steps: seq<Step>): State
    decreases |steps|
  {
    if steps == [] then s else Run(Apply(s, steps[0]), steps[1..])
  }

  /** The requests started, in order, while running `steps` from `s`. */
  function Fetches(s: State, steps: seq<Step>): seq<Request>
    decreases |steps|
  {
    if steps == [] then []
    else
      var started :=
        if steps[0].LoadStep? && BeginState(s, steps[0].pageOffset).out.Started?
        then [BeginState(s, steps[0].pageOffset).out.request] else [];
      started + Fetches(Apply(s, steps[0]), steps[1..])
  }

  /**
   * What holds between two states of one session: the base query, page size, base
   * offset and request version do not change; `hasMore` never returns to true; the
   * loaded row count never decreases; metadata once held is frozen; the accumulated
   * rows only grow at the end; cached offsets stay cached.
   */
  predicate Keeps(s: State, t: State)
  {
    t.baseJsql == s.baseJsql && t.pageSize == s.pageSize && t.baseOffset == s.baseOffset &&
    t.requestVersion == s.requestVersion &&
    (!s.hasMore ==> !t.hasMore) &&
    s.loadedRowCount <= t.loadedRowCount &&
    (s.meta != [] ==> t.meta == s.meta) &&
    s.rows <= t.rows &&
    s.pageCache.Keys <= t.pageCache.Keys
  }

  lemma ApplyKeeps(s: State, step: Step)
    ensures Keeps(s, Apply(s, step))
  {
  }

  /** Every run within a session keeps the session's invariants. */
  lemma {:induction false} RunKeeps(s: State, steps: seq<Step>)
    ensures Keeps(s, Run(s, steps))
    decreases |steps|
  {
    if steps != [] {
      var s' := Apply(s, steps[0]);
      ApplyKeeps(s, steps[0]);
      RunKeeps(s', steps[1..]);
      var t := Run(s', steps[1..]);
      assert s.rows <= s'.rows <= t.rows;
    }
  }

  lemma ApplyKeepsCoherent(s: State, step: Step)
    requires Coherent(s)
    ensures Coherent(Apply(s, step))
  {
    match step
    case LoadStep(pageOffset) => BeginKeepsCoherent(s, pageOffset);
    case SettleStep(request, reply) => SettleKeepsCoherent(s, request, reply);
    case FinishStep(request) => FinishKeepsCoherent(s, request);
  }

  /** The loading flag mirrors the counter, and the loaded count covers the rows, along every run. */
  lemma {:induction false} RunKeepsCoherent(s: State, steps: seq<Step>)
    requires Coherent(s)
    ensures Coherent(Run(s, steps))
    decreases |steps|
  {
    if steps != [] {
      ApplyKeepsCoherent(s, steps[0]);
      RunKeepsCoherent(Apply(s, steps[0]), steps[1..]);
    }
  }

  /** Once the data is exhausted, no run of the session starts another fetch. */
  lemma {:induction false} NoFetchOnceExhausted(s: State, steps: seq<Step>)
    requires !s.hasMore
    ensures Fetches(s, steps) == []
    decreases |steps|
  {
    if steps != [] {
      ApplyKeeps(s, steps[0]);
      NoFetchOnceExhausted(Apply(s, steps[0]), steps[1..]);
    }
  }

  /** True when no step of `steps` is the cleanup of a request for `pageOffset`. */
  predicate NoCleanupAt(steps: seq<Step>, pageOffset: int)
  {
    forall i :: 0 <= i < |steps| && steps[i].FinishStep? ==> steps[i].request.pageOffset != pageOffset
  }

  /**
   * A page offset that is cached, or in flight and not yet cleaned up, is never
   * fetched again: later loads of it hit the cache or join the request in flight.
   */
  lemma {:induction false} NoDuplicateFetch(s: State, steps: seq<Step>, pageOffset: int)
    requires pageOffset in s.pageCache || (pageOffset in s.inflightRequests && NoCleanupAt(steps, pageOffset))
    ensures forall request :: request in Fetches(s, steps) ==> request.pageOffset != pageOffset
    decreases |steps|
  {
    if steps != [] {
      var s' := Apply(s, steps[0]);
      ApplyKeeps(s, steps[0]);
      assert NoCleanupAt(steps, pageOffset) ==> NoCleanupAt(steps[1..], pageOffset) by {
        if NoCleanupAt(steps, pageOffset) {
          forall i | 0 <= i < |steps[1..]| && steps[1..][i].FinishStep?
            ensures steps[1..][i].request.pageOffset != pageOffset
          {
            assert steps[1..][i] == steps[i + 1];
          }
        }
      }
      NoDuplicateFetch(s', steps[1..], pageOffset);
    }
  }

  /** True when no step of `steps` applies a successful executor response. */
  predicate NoSuccess(steps: seq<Step>)
  {
    forall i :: 0 <= i < |steps| && steps[i].SettleStep? ==> !Succeeds(steps[i].request, steps[i].reply)
  }

  /** The cache is written only by a successful response: a run without one leaves it as it was. */
  lemma {:induction false} CacheWrittenOnlyOnSuccess(s: State, steps: seq<Step>)
    requires NoSuccess(steps)
    ensures Run(s, steps).pageCache == s.pageCache
    decreases |steps|
  {
    if steps != [] {
      assert NoSuccess(steps[1..]) by {
        forall i | 0 <= i < |steps[1..]| && steps[1..][i].SettleStep?
          ensures !Succeeds(steps[1..][i].request, steps[1..][i].reply)
        {
          assert steps[1..][i] == steps[i + 1];
        }
      }
      CacheWrittenOnlyOnSuccess(Apply(s, steps[0]), steps[1..]);
    }
  }

  /**
   * A load of an offset made right after the load that started its fetch joins that
   * request instead of starting another fetch.
   */
  lemma SecondLoadJoins(s: State, pageOffset: int)
    requires BeginState(s, pageOffset).out.Started?
    ensures var first := BeginState(s, pageOffset);
      BeginState(first.next, pageOffset) == Transition(first.next, Joined(first.out.request))
  {
  }

  /**
   * After a successful reset, loading any non-negative offset starts a fresh fetch
   * (whatever the old session had cached), for the window at that offset.
   */
  lemma ResetForcesFreshFetch(s: State, jsql: Query, pageOffset: nat)
    requires ResetState(s, jsql).Ok?
    ensures var t := ResetState(s, jsql).value;
      var b := BeginState(t, pageOffset).out;
      b.Started? && b.request.prepared.Ok? &&
      b.request.prepared.value.paging == JsqlPaging(t.pageSize, t.baseOffset + pageOffset, t.baseOffset)
  {
  }

  /** After clear, every load throws for want of a base query and changes nothing. */
  lemma LoadAfterClearFails(s: State, pageOffset: int)
    ensures BeginState(ClearState(s), pageOffset) == Transition(ClearState(s), NoSession)
  {
  }

  /**
   * As written, a response to a request started before a reset is applied to the new
   * session: a stale page at offset 0 becomes the new session's rows, metadata and
   * cache entry.
   */
  lemma StaleResponseLandsInNewSession(s: State, jsql: Query, stale: Request, response: SelectResponse)
    requires ResetState(s, jsql).Ok?
    requires stale.pageOffset == 0 && stale.prepared.Ok?
    ensures var t := SettleState(ResetState(s, jsql).value, stale, Responded(response)).next;
      t.rows == response.data && t.meta == response.meta && t.pageCache == map[0 := response.data]
  {
  }

  /**
   * As written, the cleanup of a request started before a reset runs against the new
   * session: when it shares a page offset with a fetch of the new session, it drops
   * that fetch's in-flight entry and takes the counter to 0, so the loading flag is
   * lowered while the new fetch is still outstanding.
   */
  lemma StaleCleanupHidesLiveFetch(s: State, jsql: Query, stale: Request, pageOffset: nat)
    requires ResetState(s, jsql).Ok?
    requires stale.pageOffset == pageOffset
    ensures var live := BeginState(ResetState(s, jsql).value, pageOffset);
      var t := FinishState(live.next, stale);
      live.out.Started? && live.next.activeRequests == 1 &&
      pageOffset !in t.inflightRequests && t.activeRequests == 0 && !t.isLoadingPage
  {
  }

  /**
   * The two-page scenario: the base query {} with the default page size. Page 0 asks
   * for {limit 100, offset 0}; 100 rows with 3 columns keep more data possible and
   * give 100 loaded rows. Page 100 asks for {limit 100, offset 100}; 40 rows end the
   * data, and the load returns last row 140.
   */
  lemma TwoPageScenario(columns: seq<ColumnMeta>, first: seq<Row>, second: seq<Row>)
    requires |columns| == 3 && |first| == 100 && |second| == 40
    ensures var s0 := ResetState(Initial(), map[]).value;
      var b0 := BeginState(s0, 0);
      b0.out.Started? && b0.out.request.prepared.Ok? &&
      b0.out.request.prepared.value.jsql == map["limit" := Int(100), "offset" := Int(0)] &&
      var r0 := SettleState(b0.next, b0.out.request, Responded(SelectResponse(columns, first)));
      var s1 := FinishState(r0.next, b0.out.request);
      s1.hasMore && s1.loadedRowCount == 100 && s1.rows == first && s1.meta == columns &&
      r0.out == Ok(QueryResultsPage(first, None)) &&
      var b1 := BeginState(s1, 100);
      b1.out.Started? && b1.out.request.prepared.Ok? &&
      b1.out.request.prepared.value.paging == JsqlPaging(100, 100, 0) &&
      var r1 := SettleState(b1.next, b1.out.request, Responded(SelectResponse(columns, second)));
      !r1.next.hasMore && r1.next.loadedRowCount == 140 && r1.next.rows == first + second &&
      r1.out == Ok(QueryResultsPage(second, Some(140)))
  {
  }

  /**
   * The query {limit 10, offset 5}: page 0 asks for {limit 10, offset 5}, and a full
   * page of 10 rows keeps more data possible.
   */
  lemma EmbeddedWindowScenario(page: seq<Row>)
    requires |page| == 10
    ensures var jsql := map["limit" := Int(10), "offset" := Int(5)];
      var s0 := ResetState(Initial(), jsql).value;
      var b0 := BeginState(s0, 0);
      b0.out.Started? && b0.out.request.prepared.Ok? &&
      b0.out.request.prepared.value.paging == JsqlPaging(10, 5, 5) &&
      var r0 := SettleState(b0.next, b0.out.request, Responded(SelectResponse([], page)));
      r0.next.hasMore && r0.out == Ok(QueryResultsPage(page, None))
  {
  }
}
