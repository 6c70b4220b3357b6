/**
 * The route over its lifetime: requests handled one after another against
 * the shared `gitdata` table, each seeing the table the previous one left.
 * The lemmas here are the properties that relate several requests: the
 * table only grows and stays well formed, a cached row is served unchanged
 * for as long as lookups answer, and a key once stored is never analysed
 * again.  Requests that overlap in time are not modelled.
 */
module RequestSequence {

  import opened Wrappers
  import opened JsValues
  import opened RepoKeys
  import opened AnalyzeHandler

  /** One request: its `github` query parameter and the collaborators'
      answers while it is handled. */
  datatype Request = Request(github: Option<string>, env: Collaborators)

  /** The responses, the calls made for each request, and the final table. */
  datatype Run = Run(responses: seq<Response>, calls: seq<seq<Call>>, table: Table)

  /** Handle the requests in order, threading the table through. */
  function Serve(table: Table, requests: seq<Request>): (run: Run)
    ensures |run.responses| == |run.calls| == |requests|
    ensures table.Keys <= run.table.Keys
    decreases |requests|
  {
    if requests == [] then
      Run([], [], table)
    else
      var first := Handle(table, requests[0].github, requests[0].env);
      var rest := Serve(first.table, requests[1..]);
      Run([first.response] + rest.responses, [first.calls] + rest.calls, rest.table)
  }

  /** Whatever the table and the collaborators do, each request's calls
      (lookup, analysis, insert) all concern that request's own key. */
  lemma {:induction false} ServeCallsConcernTheirRequest(table: Table, requests: seq<Request>)
    ensures CallsConcernTheirRequest(Serve(table, requests), requests)
    decreases |requests|
  {
    if requests != [] {
      var first := Handle(table, requests[0].github, requests[0].env);
      var rest := Serve(first.table, requests[1..]);
      ServeCallsConcernTheirRequest(first.table, requests[1..]);
      var run := Serve(table, requests);
      forall j | 0 <= j < |requests|
        ensures CallsConcern(run.calls[j], requests[j])
      {
        if j > 0 {
          assert run.calls[j] == rest.calls[j - 1];
          assert requests[j] == requests[1..][j - 1];
        } else {
          assert run.calls[0] == first.calls;
        }
      }
    }
  }

  /** Every lookup made for `key` in the sequence answered; lookups for
      other keys may do anything. */
  predicate LookupsAnswerFor(requests: seq<Request>, key: string) {
    forall i :: 0 <= i < |requests| && HasReference(requests[i].github) && CanonicalKey(requests[i].github.value) == key ==>
      requests[i].env.lookup.Answered?
  }

  /** Every call in `calls` concerns the key `request` asks for. */
  predicate CallsConcern(calls: seq<Call>, request: Request) {
    forall c :: c in calls ==> HasReference(request.github) && c.key == CanonicalKey(request.github.value)
  }

  /** Every call made while serving a request concerns that request's key. */
  predicate CallsConcernTheirRequest(run: Run, requests: seq<Request>)
    requires |run.calls| == |requests|
  {
    forall j :: 0 <= j < |requests| ==> CallsConcern(run.calls[j], requests[j])
  }

  /** Every successful response of the run carries a truthy analysis. */
  ghost predicate SuccessesCarryAnalysis(run: Run) {
    forall i :: 0 <= i < |run.responses| && run.responses[i].body.Success? ==>
      Truthy(run.responses[i].body.analysis)
  }

  /** The run left `record` under `key`, and answered every request for
      `key` from it, with the lookup as the only call. */
  predicate ServedFrom(run: Run, requests: seq<Request>, key: string, record: Record)
    requires |run.responses| == |run.calls| == |requests|
  {
    && key in run.table && run.table[key] == record
    && forall i :: 0 <= i < |requests| && HasReference(requests[i].github) && CanonicalKey(requests[i].github.value) == key ==>
         && run.calls[i] == [Lookup(key)]
         && run.responses[i] == Response(200, Success(requests[i].github.value, record.createdAt, record.data, Some(CacheSource)))
  }

  /** No request whose lookup answers calls the analyser for a key that an
      earlier request of the run inserted and whose insert was stored. */
  ghost predicate NoAnalysisAfterInsert(run: Run, requests: seq<Request>)
    requires |run.calls| == |requests|
  {
    forall i, j, key, data ::
      && 0 <= i < j < |requests| && requests[i].env.insert.Stored? && Insert(key, data) in run.calls[i]
      && requests[j].env.lookup.Answered?
      ==> Analyse(key) !in run.calls[j]
  }

  /** A table that only ever received rows from this route keeps holding
      canonical keys and truthy analyses. */
  lemma {:induction false} ServeKeepsWellFormed(table: Table, requests: seq<Request>)
    requires WellFormed(table)
    ensures WellFormed(Serve(table, requests).table)
    decreases |requests|
  {
    if requests != [] {
      var first := Handle(table, requests[0].github, requests[0].env);
      ServeKeepsWellFormed(first.table, requests[1..]);
    }
  }

  /** Over a well-formed table, every successful response carries a usable
      (truthy) analysis, whether it came from the table or the analyser. */
  lemma {:induction false} SuccessCarriesAnalysis(table: Table, requests: seq<Request>)
    requires WellFormed(table)
    ensures SuccessesCarryAnalysis(Serve(table, requests))
    decreases |requests|
  {
    if requests != [] {
      var first := Handle(table, requests[0].github, requests[0].env);
      var rest := Serve(first.table, requests[1..]);
      SuccessCarriesAnalysis(first.table, requests[1..]);
      var run := Serve(table, requests);
      forall i | 0 <= i < |run.responses| && run.responses[i].body.Success?
        ensures Truthy(run.responses[i].body.analysis)
      {
        if i > 0 {
          assert run.responses[i] == rest.responses[i - 1];
        } else if IsHit(table, requests[0].github, requests[0].env) {
          assert run.responses[0].body.analysis == table[CanonicalKey(requests[0].github.value)].data;
        }
      }
    }
  }

  /** While the lookups for its key answer, a cached row is never replaced,
      whatever happens to other keys, and every request for its key is
      answered from it: 200, the stored analysis and time, tagged as cached,
      with the lookup as the only call. */
  lemma {:induction false} CachedStaysCached(table: Table, requests: seq<Request>, key: string)
    requires key in table
    requires LookupsAnswerFor(requests, key)
    ensures ServedFrom(Serve(table, requests), requests, key, table[key])
    decreases |requests|
  {
    if requests != [] {
      var first := Handle(table, requests[0].github, requests[0].env);
      assert first.table[key] == table[key];
      var rest := Serve(first.table, requests[1..]);
      assert LookupsAnswerFor(requests[1..], key) by {
        forall i | 0 <= i < |requests[1..]| && HasReference(requests[1..][i].github)
                   && CanonicalKey(requests[1..][i].github.value) == key
          ensures requests[1..][i].env.lookup.Answered?
        {
          assert requests[1..][i] == requests[i + 1];
        }
      }
      CachedStaysCached(first.table, requests[1..], key);
      var run := Serve(table, requests);
      forall i | 0 <= i < |requests| && HasReference(requests[i].github) && CanonicalKey(requests[i].github.value) == key
        ensures run.calls[i] == [Lookup(key)]
        ensures run.responses[i] == Response(200, Success(requests[i].github.value, table[key].createdAt, table[key].data, Some(CacheSource)))
      {
        if i > 0 {
          assert requests[i] == requests[1..][i - 1];
          assert run.calls[i] == rest.calls[i - 1];
          assert run.responses[i] == rest.responses[i - 1];
        }
      }
    }
  }

  /** A request whose lookup answers never calls the analyser for a key
      the table already holds when the run starts, since rows are never
      removed: for that key it is a hit, and any other request's calls
      concern its own key. */
  lemma {:induction false} AnsweredLookupFindsKeptKey(table: Table, requests: seq<Request>, key: string, j: nat)
    requires key in table
    requires j < |requests| && requests[j].env.lookup.Answered?
    ensures Analyse(key) !in Serve(table, requests).calls[j]
    decreases j
  {
    var first := Handle(table, requests[0].github, requests[0].env);
    if j > 0 {
      assert requests[j] == requests[1..][j - 1];
      AnsweredLookupFindsKeptKey(first.table, requests[1..], key, j - 1);
    }
  }

  /** Handled one at a time, the route analyses a repository at most once
      after storing it: once a request's insert of an analysis under a key
      is stored, no later request whose lookup answers calls the analyser
      for that key, whatever other lookups and inserts do. */
  lemma {:induction false} StoredKeyNotAnalysedAgain(table: Table, requests: seq<Request>)
    ensures NoAnalysisAfterInsert(Serve(table, requests), requests)
    decreases |requests|
  {
    if requests != [] {
      var first := Handle(table, requests[0].github, requests[0].env);
      var rest := Serve(first.table, requests[1..]);
      var run := Serve(table, requests);
      StoredKeyNotAnalysedAgain(first.table, requests[1..]);
      forall i, j, key, data |
        && 0 <= i < j < |requests| && requests[i].env.insert.Stored? && Insert(key, data) in run.calls[i]
        && requests[j].env.lookup.Answered?
        ensures Analyse(key) !in run.calls[j]
      {
        assert run.calls[j] == rest.calls[j - 1];
        assert requests[j] == requests[1..][j - 1];
        if i > 0 {
          assert run.calls[i] == rest.calls[i - 1];
        } else {
          assert key in first.table;
          AnsweredLookupFindsKeptKey(first.table, requests[1..], key, j - 1);
        }
      }
    }
  }
}
