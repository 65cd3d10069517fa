/**
 The CNS catalog of the source datastore: a cursor loop that queries CNS
 for the volumes on one datastore, page after page, until a page carries
 either terminal signal.
 */
module Catalog {
  import opened CnsTypes

  /** Either terminal signal: the cursor's offset has reached the total
      number of records, or the page is empty. */
  predicate IsLastPage(page: QueryResult) {
    page.cursor.offset == page.cursor.totalRecords || |page.volumes| == 0
  }

  /** The query that follows `filter` once `page` has come back: the same
      filter, now carrying the page's cursor. */
  function NextFilter(filter: QueryFilter, page: QueryResult): QueryFilter {
    filter.(cursor := Some(page.cursor))
  }

  /** The first query of the loop: scoped to one datastore, no cursor. */
  function FirstFilter(ds: DatastoreRef): QueryFilter {
    QueryFilter([ds], None)
  }

  /** What the loop gathered: the volumes appended, the queries issued in
      order, and the error of the last query if it failed. */
  datatype Pages = Pages(volumes: seq<CnsVolume>, requests: seq<QueryFilter>, error: Option<Error>)

  /** The query loop, run for at most `fuel` queries; `None` when the
      platform has not ended the listing within that many. */
  function Paginate(query: QueryFilter -> Result<QueryResult>, filter: QueryFilter, fuel: nat): Option<Pages>
    decreases fuel
  {
    if fuel == 0 then None
    else match query(filter)
      case Failure(e) => Some(Pages([], [filter], Some(e)))
      case Success(page) =>
        if IsLastPage(page) then Some(Pages(page.volumes, [filter], None))
        else match Paginate(query, NextFilter(filter, page), fuel - 1)
          case None => None
          case Some(rest) => Some(Pages(page.volumes + rest.volumes, [filter] + rest.requests, rest.error))
  }

  // ------------------------------------------- reference definition

  /** The volumes of the successful answers to `requests`, in order. */
  function Fetched(query: QueryFilter -> Result<QueryResult>, requests: seq<QueryFilter>): seq<CnsVolume> {
    if requests == [] then []
    else
      var answer := query(requests[0]);
      (if answer.Success? then answer.value.volumes else []) + Fetched(query, requests[1..])
  }

  /** Request `g` is what the loop issues after request `f`: `f` was
      answered with a page that is not the last one, and `g` carries that
      page's cursor. */
  predicate Continues(query: QueryFilter -> Result<QueryResult>, f: QueryFilter, g: QueryFilter) {
    var answer := query(f);
    answer.Success? && !IsLastPage(answer.value) && g == NextFilter(f, answer.value)
  }

  /** The loop stops on `answer`: with its error, or on a last page. */
  predicate Stops(answer: Result<QueryResult>, error: Option<Error>) {
    match answer
    case Failure(e) => error == Some(e)
    case Success(page) => IsLastPage(page) && error == None
  }

  /** `p` is a run of the query loop from `filter`, described request by
      request rather than by recursion. */
  ghost predicate IsPagination(query: QueryFilter -> Result<QueryResult>, filter: QueryFilter, p: Pages) {
    && |p.requests| >= 1
    && p.requests[0] == filter
    && (forall i | 0 <= i < |p.requests| - 1 :: Continues(query, p.requests[i], p.requests[i + 1]))
    && Stops(query(p.requests[|p.requests| - 1]), p.error)
    && p.volumes == Fetched(query, p.requests)
  }

  /** Whatever the loop returns is a run of it as described. */
  lemma {:induction false} PaginateSound(query: QueryFilter -> Result<QueryResult>, filter: QueryFilter, fuel: nat)
    requires Paginate(query, filter, fuel).Some?
    ensures IsPagination(query, filter, Paginate(query, filter, fuel).value)
    decreases fuel
  {
    var p := Paginate(query, filter, fuel).value;
    var answer := query(filter);
    if answer.Success? && !IsLastPage(answer.value) {
      var next := NextFilter(filter, answer.value);
      PaginateSound(query, next, fuel - 1);
      var rest := Paginate(query, next, fuel - 1).value;
      assert p.requests == [filter] + rest.requests;
      assert p.requests[1..] == rest.requests;
      forall i | 0 <= i < |p.requests| - 1
        ensures Continues(query, p.requests[i], p.requests[i + 1])
      {
        if i > 0 { assert p.requests[i] == rest.requests[i - 1]; }
      }
    }
  }

  /** Every run of the loop as described is what the loop returns, given
      one unit of fuel per request. */
  lemma {:induction false} PaginateComplete(query: QueryFilter -> Result<QueryResult>, filter: QueryFilter, p: Pages)
    requires IsPagination(query, filter, p)
    ensures Paginate(query, filter, |p.requests|) == Some(p)
    decreases |p.requests|
  {
    var answer := query(filter);
    if |p.requests| == 1 {
      assert p.requests == [filter];
      assert p.requests[1..] == [];
      assert Fetched(query, p.requests[1..]) == [];
      if answer.Success? {
        assert p.volumes == answer.value.volumes;
      } else {
        assert p.volumes == [];
      }
    } else {
      assert Continues(query, p.requests[0], p.requests[1]);
      var next := NextFilter(filter, answer.value);
      var rest := Pages(p.volumes[|answer.value.volumes|..], p.requests[1..], p.error);
      assert IsPagination(query, next, rest) by {
        forall i | 0 <= i < |rest.requests| - 1
          ensures Continues(query, rest.requests[i], rest.requests[i + 1])
        {
          assert rest.requests[i] == p.requests[i + 1];
        }
      }
      PaginateComplete(query, next, rest);
      assert p.requests == [filter] + rest.requests;
    }
  }

  /** More fuel does not change a finished loop. */
  lemma {:induction false} PaginateFuel(query: QueryFilter -> Result<QueryResult>, filter: QueryFilter, fuel: nat, more: nat)
    requires Paginate(query, filter, fuel).Some? && fuel <= more
    ensures Paginate(query, filter, more) == Paginate(query, filter, fuel)
    decreases fuel
  {
    var answer := query(filter);
    if answer.Success? && !IsLastPage(answer.value) {
      PaginateFuel(query, NextFilter(filter, answer.value), fuel - 1, more - 1);
    }
  }

  /** The loop's run is determined by the platform's answers: two runs
      from the same first query are the same run. */
  lemma PaginationIsUnique(query: QueryFilter -> Result<QueryResult>, filter: QueryFilter, p: Pages, q: Pages)
    requires IsPagination(query, filter, p) && IsPagination(query, filter, q)
    ensures p == q
  {
    PaginateComplete(query, filter, p);
    PaginateComplete(query, filter, q);
    if |p.requests| <= |q.requests| {
      PaginateFuel(query, filter, |p.requests|, |q.requests|);
    } else {
      PaginateFuel(query, filter, |q.requests|, |p.requests|);
    }
  }

  /** A first page that carries a terminal signal ends the loop after one
      query, whichever of the two signals it is. */
  lemma OnePageSuffices(query: QueryFilter -> Result<QueryResult>, filter: QueryFilter, fuel: nat)
    requires fuel >= 1 && query(filter).Success? && IsLastPage(query(filter).value)
    ensures Paginate(query, filter, fuel) == Some(Pages(query(filter).value.volumes, [filter], None))
  {
  }

  /** One query of the loop, seen from a run of it: the run so far has
      fetched `fetched` with requests `issued`, and the rest of it starts
      with `filter`. */
  lemma {:induction false} PaginateStep(query: QueryFilter -> Result<QueryResult>, filter: QueryFilter, fuel: nat,
                                        run: Pages, fetched: seq<CnsVolume>, issued: seq<QueryFilter>)
    requires Paginate(query, filter, fuel).Some?
    requires var rest := Paginate(query, filter, fuel).value;
      run == Pages(fetched + rest.volumes, issued + rest.requests, rest.error)
    ensures fuel >= 1
    ensures query(filter).Failure? ==> run == Pages(fetched, issued + [filter], Some(query(filter).error))
    ensures query(filter).Success? && IsLastPage(query(filter).value) ==>
      run == Pages(fetched + query(filter).value.volumes, issued + [filter], None)
    ensures query(filter).Success? && !IsLastPage(query(filter).value) ==>
      var next := NextFilter(filter, query(filter).value);
      && Paginate(query, next, fuel - 1).Some?
      && var rest := Paginate(query, next, fuel - 1).value;
         run == Pages((fetched + query(filter).value.volumes) + rest.volumes, (issued + [filter]) + rest.requests, rest.error)
  {
    var answer := query(filter);
    if answer.Failure? {
      assert fetched + [] == fetched;
    } else if !IsLastPage(answer.value) {
      var rest := Paginate(query, NextFilter(filter, answer.value), fuel - 1).value;
      assert fetched + (answer.value.volumes + rest.volumes) == (fetched + answer.value.volumes) + rest.volumes;
      assert issued + ([filter] + rest.requests) == (issued + [filter]) + rest.requests;
    }
  }

  // ------------------------------------------------ getCNSVolumes

  /** The query loop for datastore `dsName` ends within `fuel` queries,
      when the datastore is found. */
  predicate EndsWithin(conn: VSphereConnection, dsName: string, fuel: nat) {
    var found := conn.findDatastore(dsName);
    found.Success? ==> Paginate(conn.queryVolume, FirstFilter(found.value), fuel).Some?
  }

  /** One CNS query call per request, in order. */
  function QueryCalls(requests: seq<QueryFilter>): seq<Call> {
    seq(|requests|, i requires 0 <= i < |requests| => QueryVolume(requests[i]))
  }

  lemma QueryCallsSnoc(before: seq<Call>, requests: seq<QueryFilter>, filter: QueryFilter)
    ensures before + QueryCalls(requests) + [QueryVolume(filter)] == before + QueryCalls(requests + [filter])
  {
    assert |QueryCalls(requests + [filter])| == |QueryCalls(requests) + [QueryVolume(filter)]|;
    forall i | 0 <= i < |requests| + 1
      ensures QueryCalls(requests + [filter])[i] == (QueryCalls(requests) + [QueryVolume(filter)])[i]
    {
      if i < |requests| { assert (requests + [filter])[i] == requests[i]; }
    }
  }

  /** The outcome of loading the catalog: the error, the volumes appended
      to the catalog (also on error: the pages fetched before it), and the
      calls issued. */
  datatype Load = Load(status: Status, volumes: seq<CnsVolume>, calls: seq<Call>)

  /** `getCNSVolumes`: find the datastore, then run the query loop. An
      unknown datastore issues no query. */
  function LoadCatalog(conn: VSphereConnection, dsName: string, fuel: nat): (l: Load)
    requires EndsWithin(conn, dsName, fuel)
    ensures |l.calls| >= 1 && l.calls[0] == FindDatastore(dsName)
    ensures forall c | c in l.calls :: c.FindDatastore? || c.QueryVolume?
    ensures conn.findDatastore(dsName).Failure? ==>
              l.status == Fail(conn.findDatastore(dsName).error) && l.volumes == [] && |l.calls| == 1
  {
    match conn.findDatastore(dsName)
    case Failure(e) => Load(Fail(e), [], [FindDatastore(dsName)])
    case Success(ds) =>
      var p := Paginate(conn.queryVolume, FirstFilter(ds), fuel).value;
      var calls := [FindDatastore(dsName)] + QueryCalls(p.requests);
      assert forall c | c in calls :: c.FindDatastore? || c.QueryVolume?;
      Load(if p.error.Some? then Fail(p.error.value) else Ok, p.volumes, calls)
  }

  /** Once the datastore is found, the catalog is loaded by a run of the
      query loop as `IsPagination` describes: one query call per request,
      the volumes of all pages fetched, appended also when a later query
      fails, and an error exactly when the last query failed. */
  lemma LoadCatalogPaginates(conn: VSphereConnection, dsName: string, fuel: nat)
    requires EndsWithin(conn, dsName, fuel) && conn.findDatastore(dsName).Success?
    ensures var l := LoadCatalog(conn, dsName, fuel);
            var p := Paginate(conn.queryVolume, FirstFilter(conn.findDatastore(dsName).value), fuel).value;
              && IsPagination(conn.queryVolume, FirstFilter(conn.findDatastore(dsName).value), p)
              && l.volumes == p.volumes
              && l.calls == [FindDatastore(dsName)] + QueryCalls(p.requests)
              && (l.status.Ok? <==> p.error.None?)
              && (p.error.Some? ==> l.status == Fail(p.error.value))
  {
    PaginateSound(conn.queryVolume, FirstFilter(conn.findDatastore(dsName).value), fuel);
  }
}
