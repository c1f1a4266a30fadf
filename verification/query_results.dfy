/**
 * The paging session of the query console: one object holds the base query, the page
 * size and base offset, the contiguous accumulated rows and column metadata, the
 * `hasMore` flag, the loaded row count, the request version, a page cache and an
 * in-flight map keyed by requested page offset, and a counter of active fetches.
 *
 * Loading a page is asynchronous in the console; its only suspension points are the
 * executor call and awaiting an already in-flight request. The model therefore splits
 * it into three atomic steps: Begin (everything up to the executor call), Settle (the
 * executor's reply is applied) and Finish (the cleanup that runs on every exit).
 * The executor itself is not modelled: its reply is an argument of Settle.
 */
module QueryResults {
  import opened Wrappers
  import opened JsqlPagination

  /** Metadata of one result column. */
  datatype ColumnMeta = ColumnMeta(name: string, typeName: string, nullable: bool, qualifiedName: string)

  /** A result row: column name to cell value. */
  type Row = map<string, Value>

  /** What the executor returns for one page. */
  datatype SelectResponse = SelectResponse(meta: seq<ColumnMeta>, data: seq<Row>)

  /** What loading a page returns: its rows, and the end-of-data row index once known. */
  datatype QueryResultsPage = QueryResultsPage(rows: seq<Row>, lastRow: Option<int>)

  /**
   * A fetch started by Begin: the page offset it was requested for and what resolving
   * its window gave, either the query sent to the executor with its window or the
   * validation error that rejected it before the executor was called.
   */
  datatype Request = Request(pageOffset: int, prepared: Result<Paged, PagingError>)

  /** The errors loading a page can raise. */
  datatype LoadError = NoBaseJsql | InvalidPaging(cause: PagingError) | ExecutorFailed(reason: string)

  /** How Begin ended. */
  datatype Begun =
    | NoSession               // no base query: loading throws
    | Exhausted               // no more data: loading returns null
    | Hit(page: QueryResultsPage)   // served from the page cache
    | Joined(request: Request)      // the same offset is in flight: await that request
    | Started(request: Request)     // a new fetch was registered

  /** The executor's reply to a started fetch. */
  datatype Reply = Responded(response: SelectResponse) | Failed(reason: string)

  /** A snapshot of every field of the session. */
  datatype State = State(
    baseJsql: Option<Query>,
    pageSize: nat,
    baseOffset: nat,
    rows: seq<Row>,
    meta: seq<ColumnMeta>,
    isLoadingPage: bool,
    hasMore: bool,
    loadedRowCount: int,
    requestVersion: nat,
    pageCache: map<int, seq<Row>>,
    inflightRequests: map<int, Request>,
    activeRequests: nat)

  /** A step's new state and what it returns. */
  datatype Transition<T> = Transition(next: State, out: T)

  /** The state of a new session: no base query, the default page size, nothing loaded. */
  function Initial(): (s: State)
    ensures s.baseJsql.None? && s.pageSize == GetDefaultPageSize() && s.baseOffset == 0
    ensures s.requestVersion == 0 && Cleared(s)
  {
    State(None, GetDefaultPageSize(), 0, [], [], false, true, 0, 0, map[], map[], 0)
  }

  /** The session holds nothing loaded, cached or in flight, and more data may exist. */
  predicate Cleared(s: State)
  {
    s.rows == [] && s.meta == [] && s.loadedRowCount == 0 && s.hasMore && !s.isLoadingPage &&
    s.pageCache == map[] && s.inflightRequests == map[] && s.activeRequests == 0
  }

  /** The larger of two integers. */
  function Max(a: int, b: int): int
  {
    if a < b then b else a
  }

  /**
   * The derived result set: nothing until some metadata or some row has arrived,
   * then the metadata with the contiguous rows.
   */
  function ResultsOf(s: State): (r: Option<SelectResponse>)
    ensures r.None? <==> s.meta == [] && s.rows == []
    ensures r.Some? ==> r.value.meta == s.meta && r.value.data == s.rows
  {
    if |s.meta| == 0 && |s.rows| == 0 then None else Some(SelectResponse(s.meta, s.rows))
  }

  /**
   * Starts a new session for `jsql`. Paging is resolved first, with the default page
   * size and page offset 0, so an invalid embedded limit or offset raises its error
   * and changes nothing. Otherwise the page size becomes the embedded limit (else the
   * default), the base offset the embedded offset (else 0), everything loaded, cached
   * or in flight is dropped, and the request version goes up by one.
   */
  function ResetState(s: State, jsql: Query): (r: Result<State, PagingError>)
    ensures r.Err? <==>
      !IsAbsentOrNonNegativeInteger(Field(jsql, "limit")) ||
      !IsAbsentOrNonNegativeInteger(Field(jsql, "offset"))
    ensures r.Err? ==>
      r.error == InvalidField(if IsAbsentOrNonNegativeInteger(Field(jsql, "limit")) then "offset" else "limit")
    ensures r.Ok? ==> r.value.baseJsql == Some(jsql)
    ensures r.Ok? ==>
      r.value.pageSize == (if IsPresent(Field(jsql, "limit")) then jsql["limit"].n else GetDefaultPageSize())
    ensures r.Ok? ==>
      r.value.baseOffset == (if IsPresent(Field(jsql, "offset")) then jsql["offset"].n else 0)
    ensures r.Ok? ==> Cleared(r.value) && r.value.requestVersion == s.requestVersion + 1
  {
    match WithPaging(jsql, Int(GetDefaultPageSize()), Int(0))
    case Err(e) => Err(e)
    case Ok(p) =>
      Ok(s.(baseJsql := Some(jsql), pageSize := p.paging.limit, baseOffset := p.paging.baseOffset,
            rows := [], meta := [], loadedRowCount := 0, hasMore := true, isLoadingPage := false,
            pageCache := map[], inflightRequests := map[], activeRequests := 0,
            requestVersion := s.requestVersion + 1))
  }

  /**
   * Ends the session: the base query is dropped, the same clearing as a reset is done
   * and the request version goes up by one; page size and base offset are kept.
   */
  function ClearState(s: State): (t: State)
    ensures t.baseJsql.None? && Cleared(t) && t.requestVersion == s.requestVersion + 1
    ensures t.pageSize == s.pageSize && t.baseOffset == s.baseOffset
  {
    s.(baseJsql := None, rows := [], meta := [], loadedRowCount := 0, hasMore := true,
       isLoadingPage := false, pageCache := map[], inflightRequests := map[], activeRequests := 0,
       requestVersion := s.requestVersion + 1)
  }

  /**
   * The synchronous start of loading page `pageOffset`: without a base query it throws;
   * once the data is exhausted it returns null; a cached page is returned as it is; an
   * offset already in flight is joined. Only otherwise is a fetch started: the counter
   * goes up, the loading flag is raised, the window is resolved from the base query,
   * the page size and the page offset, and the request is registered in flight.
   */
  function BeginState(s: State, pageOffset: int): (r: Transition<Begun>)
    ensures r.out.NoSession? <==> s.baseJsql.None?
    ensures r.out.Exhausted? <==> s.baseJsql.Some? && !s.hasMore
    ensures r.out.Hit? <==> s.baseJsql.Some? && s.hasMore && pageOffset in s.pageCache
    ensures r.out.Hit? ==> r.out.page == QueryResultsPage(s.pageCache[pageOffset], None)
    ensures r.out.Joined? <==>
      s.baseJsql.Some? && s.hasMore && pageOffset !in s.pageCache && pageOffset in s.inflightRequests
    ensures r.out.Joined? ==> r.out.request == s.inflightRequests[pageOffset]
    // nothing changes unless a fetch starts
    ensures !r.out.Started? ==> r.next == s
    ensures r.out.Started? ==>
      r.out.request.pageOffset == pageOffset &&
      r.out.request.prepared == WithPaging(s.baseJsql.value, Int(s.pageSize), Int(pageOffset)) &&
      r.next == s.(isLoadingPage := true, activeRequests := s.activeRequests + 1,
                   inflightRequests := s.inflightRequests[pageOffset := r.out.request])
  {
    if s.baseJsql.None? then
      Transition(s, NoSession)
    else if !s.hasMore then
      Transition(s, Exhausted)
    else if pageOffset in s.pageCache then
      var cachedRows := s.pageCache[pageOffset];
      Transition(s, Hit(QueryResultsPage(cachedRows, if s.hasMore then None else Some(pageOffset + |cachedRows|))))
    else if pageOffset in s.inflightRequests then
      Transition(s, Joined(s.inflightRequests[pageOffset]))
    else
      var request := Request(pageOffset, WithPaging(s.baseJsql.value, Int(s.pageSize), Int(pageOffset)));
      Transition(s.(isLoadingPage := true, activeRequests := s.activeRequests + 1,
                    inflightRequests := s.inflightRequests[pageOffset := request]),
                 Started(request))
  }

  /** True when `request` reached the executor and the executor answered with a response. */
  predicate Succeeds(request: Request, reply: Reply)
  {
    request.prepared.Ok? && reply.Responded?
  }

  /**
   * The result accumulator: applies a page of `response` requested at `pageOffset`
   * under a window of `limit` rows. Metadata is taken only if none is held yet; the
   * rows are appended only when the page starts exactly where the accumulated rows
   * end; the loaded row count rises to cover the page; a short page (fewer rows than
   * the limit, or a zero limit) ends the data for good.
   */
  function Accumulate(s: State, pageOffset: int, response: SelectResponse, limit: nat): (t: State)
    // metadata: first wins
    ensures s.meta != [] ==> t.meta == s.meta
    ensures s.meta == [] ==> t.meta == response.meta
    // rows: appended only when contiguous
    ensures pageOffset == |s.rows| ==> t.rows == s.rows + response.data
    ensures pageOffset != |s.rows| ==> t.rows == s.rows
    // loaded row count: never decreases, covers the page
    ensures t.loadedRowCount >= s.loadedRowCount && t.loadedRowCount >= pageOffset + |response.data|
    ensures t.loadedRowCount == s.loadedRowCount || t.loadedRowCount == pageOffset + |response.data|
    // hasMore: one-way, cleared by a short page
    ensures t.hasMore <==> s.hasMore && limit != 0 && |response.data| >= limit
    // nothing else changes
    ensures t == s.(meta := t.meta, rows := t.rows, loadedRowCount := t.loadedRowCount, hasMore := t.hasMore)
  {
    var meta := if |s.meta| == 0 then response.meta else s.meta;
    var rows := if pageOffset == |s.rows| then s.rows + response.data else s.rows;
    var loadedRowCount := Max(s.loadedRowCount, pageOffset + |response.data|);
    var hasMore := if limit == 0 || |response.data| < limit then false else s.hasMore;
    s.(meta := meta, rows := rows, loadedRowCount := loadedRowCount, hasMore := hasMore)
  }

  /**
   * Applies the outcome of `request`. A request whose window could not be resolved
   * never reached the executor and rejects with the validation error; an executor
   * failure propagates unchanged. Either way nothing changes, so no cache entry is
   * made. A response is applied to whatever session is current: the page is cached
   * under its requested page offset, accumulated under its window's limit, and
   * returned with the end-of-data row index once no more data exists.
   */
  function SettleState(s: State, request: Request, reply: Reply): (r: Transition<Result<QueryResultsPage, LoadError>>)
    ensures request.prepared.Err? ==> r == Transition(s, Err(InvalidPaging(request.prepared.error)))
    ensures request.prepared.Ok? && reply.Failed? ==> r == Transition(s, Err(ExecutorFailed(reply.reason)))
    ensures Succeeds(request, reply) ==>
      var data := reply.response.data;
      var o := request.pageOffset;
      && r.next.pageCache == s.pageCache[o := data]
      && r.next.pageCache[o] == data
      && r.next == Accumulate(s, o, reply.response, request.prepared.value.paging.limit).(pageCache := r.next.pageCache)
      && r.out == Ok(QueryResultsPage(data, if r.next.hasMore then None else Some(o + |data|)))
  {
    match request.prepared
    case Err(e) => Transition(s, Err(InvalidPaging(e)))
    case Ok(paged) =>
      match reply
      case Failed(reason) => Transition(s, Err(ExecutorFailed(reason)))
      case Responded(response) =>
        var pageOffset := request.pageOffset;
        var cached := s.(pageCache := s.pageCache[pageOffset := response.data]);
        var next := Accumulate(cached, pageOffset, response, paged.paging.limit);
        Transition(next, Ok(QueryResultsPage(response.data,
                                             if next.hasMore then None else Some(pageOffset + |response.data|))))
  }

  /**
   * The cleanup that runs on every exit of a fetching load: the in-flight entry under
   * the request's page offset is deleted, the counter goes down but never below 0,
   * and the loading flag says whether any fetch is still counted.
   */
  function FinishState(s: State, request: Request): (t: State)
    ensures request.pageOffset !in t.inflightRequests
    ensures t.inflightRequests == s.inflightRequests - {request.pageOffset}
    ensures t.activeRequests == if s.activeRequests == 0 then 0 else s.activeRequests - 1
    ensures t.isLoadingPage <==> t.activeRequests > 0
    ensures t == s.(inflightRequests := t.inflightRequests, activeRequests := t.activeRequests,
                    isLoadingPage := t.isLoadingPage)
  {
    var activeRequests := Max(0, s.activeRequests - 1);
    s.(inflightRequests := s.inflightRequests - {request.pageOffset},
       activeRequests := activeRequests,
       isLoadingPage := activeRequests > 0)
  }

  /**
   * The invariant every step keeps: the loading flag mirrors the counter, the loaded
   * row count covers the contiguous rows, and while a session is active its page size
   * and base offset are exactly what resolving the base query at page 0 gives.
   */
  predicate Coherent(s: State)
  {
    (s.isLoadingPage <==> s.activeRequests > 0) &&
    |s.rows| <= s.loadedRowCount &&
    (s.baseJsql.Some? ==>
       var p := WithPaging(s.baseJsql.value, Int(s.pageSize), Int(0));
       p.Ok? && p.value.paging == JsqlPaging(s.pageSize, s.baseOffset, s.baseOffset))
  }

  lemma InitialIsCoherent()
    ensures Coherent(Initial())
  {
  }

  /** A successful reset yields a coherent session whatever the state before it. */
  lemma ResetIsCoherent(s: State, jsql: Query)
    requires ResetState(s, jsql).Ok?
    ensures Coherent(ResetState(s, jsql).value)
  {
  }

  lemma BeginKeepsCoherent(s: State, pageOffset: int)
    requires Coherent(s)
    ensures Coherent(BeginState(s, pageOffset).next)
  {
  }

  lemma SettleKeepsCoherent(s: State, request: Request, reply: Reply)
    requires Coherent(s)
    ensures Coherent(SettleState(s, request, reply).next)
  {
  }

  lemma FinishKeepsCoherent(s: State, request: Request)
    requires Coherent(s)
    ensures Coherent(FinishState(s, request))
  {
  }

  /**
   * In a coherent active session every fetch Begin starts asks for the window
   * {pageSize, baseOffset + pageOffset, baseOffset}; a negative page offset makes the
   * request reject with the "offset" validation error before the executor is called.
   */
  lemma StartedWindow(s: State, pageOffset: int)
    requires Coherent(s)
    requires BeginState(s, pageOffset).out.Started?
    ensures var request := BeginState(s, pageOffset).out.request;
      && (pageOffset >= 0 ==>
            request.prepared.Ok? &&
            request.prepared.value.paging == JsqlPaging(s.pageSize, s.baseOffset + pageOffset, s.baseOffset))
      && (pageOffset < 0 ==> request.prepared == Err(InvalidField("offset")))
  {
  }

  /**
   * The page session as an object whose fields the operations update in place. Each
   * method is specified by the step function of the same name applied to the
   * snapshot of the fields. The constructor establishes `Coherent`, and Begin, Settle
   * and Finish keep it (by BeginKeepsCoherent, SettleKeepsCoherent and
   * FinishKeepsCoherent on their step functions).
   */
  class QueryResultsSession {
    var baseJsql: Option<Query>
    var pageSize: nat
    var baseOffset: nat
    var rows: seq<Row>
    var meta: seq<ColumnMeta>
    var isLoadingPage: bool
    var hasMore: bool
    var loadedRowCount: int
    var requestVersion: nat
    var pageCache: map<int, seq<Row>>
    var inflightRequests: map<int, Request>
    var activeRequests: nat

    /** The snapshot of all fields. */
    function View(): State
      reads this
    {
      State(baseJsql, pageSize, baseOffset, rows, meta, isLoadingPage, hasMore, loadedRowCount,
            requestVersion, pageCache, inflightRequests, activeRequests)
    }

    /** The derived result set. */
    function Results(): Option<SelectResponse>
      reads this
    {
      ResultsOf(View())
    }

    constructor ()
      ensures View() == Initial() && Coherent(View())
    {
      baseJsql := None;
      pageSize := GetDefaultPageSize();
      baseOffset := 0;
      rows := [];
      meta := [];
      isLoadingPage := false;
      hasMore := true;
      loadedRowCount := 0;
      requestVersion := 0;
      pageCache := map[];
      inflightRequests := map[];
      activeRequests := 0;
    }

    /** Starts a session for `jsql`; on a validation error nothing changes and the error is returned. */
    method Reset(jsql: Query) returns (error: Option<PagingError>)
      modifies this
      ensures match ResetState(old(View()), jsql)
        case Err(e) => error == Some(e) && View() == old(View())
        case Ok(t) => error.None? && View() == t
    {
      var resolved := WithPaging(jsql, Int(GetDefaultPageSize()), Int(0));
      if resolved.Err? {
        return Some(resolved.error);
      }
      var paging := resolved.value.paging;
      baseJsql := Some(jsql);
      pageSize := paging.limit;
      baseOffset := paging.baseOffset;
      DropResults();
      DropRequests();
      error := None;
    }

    /** Ends the session. */
    method Clear()
      modifies this
      ensures View() == ClearState(old(View()))
    {
      baseJsql := None;
      DropResults();
      DropRequests();
    }

    /** Empties the accumulated rows and metadata and re-opens the data. */
    method DropResults()
      modifies this
      ensures View() == old(View()).(rows := [], meta := [], loadedRowCount := 0, hasMore := true)
    {
      rows := [];
      meta := [];
      loadedRowCount := 0;
      hasMore := true;
    }

    /** Empties the page cache and the in-flight map, zeroes the counter and bumps the version. */
    method DropRequests()
      modifies this
      ensures View() == old(View()).(isLoadingPage := false, pageCache := map[], inflightRequests := map[],
                                     activeRequests := 0, requestVersion := old(requestVersion) + 1)
    {
      isLoadingPage := false;
      pageCache := map[];
      inflightRequests := map[];
      activeRequests := 0;
      requestVersion := requestVersion + 1;
    }

    /** The synchronous start of loading page `pageOffset`. */
    method Begin(pageOffset: int) returns (outcome: Begun)
      modifies this
      ensures View() == BeginState(old(View()), pageOffset).next
      ensures outcome == BeginState(old(View()), pageOffset).out
      ensures Coherent(old(View())) ==> Coherent(View())
    {
      if baseJsql.None? {
        return NoSession;
      }
      if !hasMore {
        return Exhausted;
      }
      if pageOffset in pageCache {
        var cachedRows := pageCache[pageOffset];
        return Hit(QueryResultsPage(cachedRows, if hasMore then None else Some(pageOffset + |cachedRows|)));
      }
      if pageOffset in inflightRequests {
        return Joined(inflightRequests[pageOffset]);
      }
      isLoadingPage := true;
      activeRequests := activeRequests + 1;
      var request := Request(pageOffset, WithPaging(baseJsql.value, Int(pageSize), Int(pageOffset)));
      inflightRequests := inflightRequests[pageOffset := request];
      outcome := Started(request);
      if Coherent(old(View())) {
        BeginKeepsCoherent(old(View()), pageOffset);
      }
    }

    /** Applies the executor's reply to `request` (no check of the request version). */
    method Settle(request: Request, reply: Reply) returns (result: Result<QueryResultsPage, LoadError>)
      modifies this
      ensures View() == SettleState(old(View()), request, reply).next
      ensures result == SettleState(old(View()), request, reply).out
      ensures Coherent(old(View())) ==> Coherent(View())
    {
      if request.prepared.Err? {
        return Err(InvalidPaging(request.prepared.error));
      }
      if reply.Failed? {
        return Err(ExecutorFailed(reply.reason));
      }
      var paging := request.prepared.value.paging;
      pageCache := pageCache[request.pageOffset := reply.response.data];
      AccumulatePage(request.pageOffset, reply.response, paging.limit);
      result := Ok(QueryResultsPage(reply.response.data,
                                    if hasMore then None else Some(request.pageOffset + |reply.response.data|)));
      if Coherent(old(View())) {
        SettleKeepsCoherent(old(View()), request, reply);
      }
    }

    /** The result accumulator applied to the fields. */
    method AccumulatePage(pageOffset: int, response: SelectResponse, limit: nat)
      modifies this
      ensures View() == Accumulate(old(View()), pageOffset, response, limit)
    {
      if |meta| == 0 {
        meta := response.meta;
      }
      if pageOffset == |rows| {
        rows := rows + response.data;
      }
      loadedRowCount := Max(loadedRowCount, pageOffset + |response.data|);
      if limit == 0 || |response.data| < limit {
        hasMore := false;
      }
    }

    /** The cleanup on every exit of a fetching load (no check of the request version). */
    method Finish(request: Request)
      modifies this
      ensures View() == FinishState(old(View()), request)
      ensures activeRequests == if old(activeRequests) == 0 then 0 else old(activeRequests) - 1
      ensures isLoadingPage <==> activeRequests > 0
      ensures Coherent(old(View())) ==> Coherent(View())
    {
      inflightRequests := inflightRequests - {request.pageOffset};
      activeRequests := Max(0, activeRequests - 1);
      isLoadingPage := activeRequests > 0;
      if Coherent(old(View())) {
        FinishKeepsCoherent(old(View()), request);
      }
    }
  }
}
