/**
 * The `GET /api/analyze?github=<owner>/<repo>` route: a cache-aside read of
 * the `gitdata` table in front of the repository analyser.
 *
 * `Handle` is the specification of one request: what the client receives,
 * what the table holds afterwards and which collaborator calls were made, in
 * order.  `Gateway.Analyze` is the handler itself, step by step against the
 * table it owns, proved to behave as `Handle` says.  The collaborators (the
 * table's query service, the analyser, the clock) are not modelled: their
 * answers for this request are inputs, gathered in `Collaborators`.
 */
module AnalyzeHandler {

  import opened Wrappers
  import opened JsValues
  import opened RepoKeys

  /** A timestamp as it appears in a JSON body (ISO-8601 text). */
  type Timestamp = string

  /** A row of `gitdata`, keyed by its `gitlink`: when the database created
      it and the analysis it stores. */
  datatype Record = Record(createdAt: Timestamp, data: JsValue)

  /** The `gitdata` table, from `gitlink` to its row. */
  type Table = map<string, Record>

  /** Something thrown inside the handler; `message` is absent when the
      thrown value has no `message` property. */
  datatype Thrown = Thrown(message: Option<string>)

  /** How the lookup query went.  `Answered`: the table was read and the row
      for the key, if any, came back.  `QueryError`: the query reported an
      error, so no row came back.  `LookupRaised`: the awaited query threw. */
  datatype LookupFault =
    | Answered
    | QueryError(message: string)
    | LookupRaised(thrown: Thrown)

  /** What `analyzeRepository` did: returned a value (truthy or not) or
      threw. */
  datatype AnalyserOutcome =
    | Returned(value: JsValue)
    | AnalyserRaised(thrown: Thrown)

  /** How the insert went.  `Stored`: the row was written and the database
      stamped it `createdAt`.  `Rejected`: the insert reported an error and
      wrote nothing.  `InsertRaised`: the awaited insert threw. */
  datatype InsertOutcome =
    | Stored(createdAt: Timestamp)
    | Rejected(message: string)
    | InsertRaised(thrown: Thrown)

  /** Everything the outside world contributes to one request. */
  datatype Collaborators = Collaborators(
    lookup: LookupFault,
    analyser: AnalyserOutcome,
    insert: InsertOutcome,
    now: Timestamp)

  /** A call the handler makes on a collaborator. */
  datatype Call =
    | Lookup(key: string)
    | Analyse(key: string)
    | Insert(key: string, data: JsValue)

  /** A JSON response body: the success shape or the error shape. */
  datatype Body =
    | Success(repository: string, timestamp: Timestamp, analysis: JsValue, source: Option<string>)
    | Error(message: string, error: Option<string>)
  {
    /** The body's `status` field. */
    function Status(): string {
      if Success? then "success" else "error"
    }
  }

  /** An HTTP status code with its JSON body. */
  datatype Response = Response(code: nat, body: Body)

  /** The effect of one request: the response, the table afterwards and the
      collaborator calls made, in order. */
  datatype Outcome = Outcome(response: Response, table: Table, calls: seq<Call>)

  /** What a lookup gives the handler back. */
  datatype LookupResult =
    | Row(record: Record)
    | NoRow
    | LookupThrew(thrown: Thrown)

  const MissingReferenceMessage: string := "GitHub URL is required. Use ?github=username/repository"
  const NotFoundMessage: string := "Repository analysis failed or repository not found"
  const InternalErrorMessage: string := "Error analyzing repository"
  const CacheSource: string := "cache"

  const BadRequest: Response := Response(400, Error(MissingReferenceMessage, None))
  const NotFound: Response := Response(404, Error(NotFoundMessage, None))

  function InternalError(e: Thrown): Response {
    Response(500, Error(InternalErrorMessage, e.message))
  }

  /** The negation of `if (!githubUrl)`: the query parameter is present and
      its string is truthy, that is, not empty. */
  predicate HasReference(github: Option<string>)
    ensures HasReference(github) <==> github.Some? && Truthy(Str(github.value))
  {
    github.Some? && github.value != ""
  }

  /** The request is served from the table. */
  predicate IsHit(table: Table, github: Option<string>, env: Collaborators) {
    HasReference(github) && env.lookup.Answered? && CanonicalKey(github.value) in table
  }

  /** The request goes on to the analyser: no row came back and nothing was
      thrown. */
  predicate IsMiss(table: Table, github: Option<string>, env: Collaborators) {
    HasReference(github) && !env.lookup.LookupRaised? && !IsHit(table, github, env)
  }

  /** The analyser produced a usable (truthy) result on a miss. */
  predicate IsFresh(table: Table, github: Option<string>, env: Collaborators) {
    IsMiss(table, github, env) && env.analyser.Returned? && Truthy(env.analyser.value)
  }

  /** Every key of the table was built by `CanonicalKey` from a non-empty
      reference, and every stored analysis is truthy. */
  ghost predicate WellFormed(table: Table) {
    forall key :: key in table ==> IsCanonical(key) && Truthy(table[key].data)
  }

  /** One request to `/api/analyze`, for the table as it stands and the
      collaborators' answers. */
  function Handle(table: Table, github: Option<string>, env: Collaborators): (o: Outcome)
    // the response is well formed and its code says which shape it has
    ensures o.response.code in {200, 400, 404, 500}
    ensures o.response.code == 200 <==> o.response.body.Success?
    ensures o.response.body.Status() == if o.response.code == 200 then "success" else "error"
    ensures o.response.body.Success? ==> HasReference(github) && o.response.body.repository == github.value
    // a missing or empty reference is refused before any collaborator is asked
    ensures !HasReference(github) <==> o.response.code == 400
    ensures !HasReference(github) ==> o.response == BadRequest && o.calls == [] && o.table == table
    // otherwise the first call is the lookup of the canonical key
    ensures HasReference(github) ==> 1 <= |o.calls| <= 3 && o.calls[0] == Lookup(CanonicalKey(github.value))
    // a lookup that throws is a 500 carrying the thrown message, before any other call
    ensures HasReference(github) && env.lookup.LookupRaised? ==>
      && o.response == InternalError(env.lookup.thrown)
      && o.calls == [Lookup(CanonicalKey(github.value))]
      && o.table == table
    // a hit returns the stored row, tagged, without analysing and without writing
    ensures IsHit(table, github, env) ==>
      var record := table[CanonicalKey(github.value)];
      && o.response == Response(200, Success(github.value, record.createdAt, record.data, Some(CacheSource)))
      && o.calls == [Lookup(CanonicalKey(github.value))]
      && o.table == table
    // a miss, including a lookup that reported an error, goes to the analyser
    ensures IsMiss(table, github, env) ==> |o.calls| >= 2 && o.calls[1] == Analyse(CanonicalKey(github.value))
    ensures |o.calls| >= 2 <==> IsMiss(table, github, env)
    ensures forall c :: c in o.calls && c.Analyse? ==> IsMiss(table, github, env)
    // an analyser that throws is a 500 carrying the thrown message, and nothing is inserted
    ensures IsMiss(table, github, env) && env.analyser.AnalyserRaised? ==>
      && o.response == InternalError(env.analyser.thrown)
      && o.calls == [Lookup(CanonicalKey(github.value)), Analyse(CanonicalKey(github.value))]
      && o.table == table
    // a falsy analysis is a 404 and nothing is written
    ensures o.response.code == 404 <==> IsMiss(table, github, env) && env.analyser.Returned? && !Truthy(env.analyser.value)
    ensures o.response.code == 404 ==> o.response == NotFound && o.table == table && |o.calls| == 2
    // a truthy analysis is inserted exactly once, under the key; unless the insert throws, it is
    // returned untagged with the current time whether or not the insert succeeded
    ensures IsFresh(table, github, env) ==>
      var key := CanonicalKey(github.value);
      var result := env.analyser.value;
      var answer := Response(200, Success(github.value, env.now, result, None));
      && o.calls == [Lookup(key), Analyse(key), Insert(key, result)]
      && (env.insert.Stored? ==> o.response == answer && o.table == table[key := Record(env.insert.createdAt, result)])
      && (env.insert.Rejected? ==> o.response == answer && o.table == table)
      && (env.insert.InsertRaised? ==> o.response == InternalError(env.insert.thrown) && o.table == table)
    ensures |o.calls| == 3 <==> IsFresh(table, github, env)
    ensures forall c :: c in o.calls && c.Insert? ==> IsFresh(table, github, env)
    // every call concerns the canonical key of the request
    ensures forall c :: c in o.calls ==> HasReference(github) && c.key == CanonicalKey(github.value)
    // success means a hit, or a fresh analysis whose insert did not throw
    ensures o.response.body.Success? <==> IsHit(table, github, env) || (IsFresh(table, github, env) && !env.insert.InsertRaised?)
    // the table changes only by storing the fresh analysis under the key
    ensures o.table != table ==> IsFresh(table, github, env) && env.insert.Stored?
    ensures table.Keys <= o.table.Keys
    ensures WellFormed(table) ==> WellFormed(o.table)
    // whatever throws is a 500 carrying the thrown message, and nothing is written
    ensures o.response.code == 500 ==> o.table == table && o.response.body.message == InternalErrorMessage
  {
    if !HasReference(github) then
      Outcome(BadRequest, table, [])
    else
      var raw := github.value;
      var key := CanonicalKey(raw);
      if env.lookup.LookupRaised? then
        Outcome(InternalError(env.lookup.thrown), table, [Lookup(key)])
      else if env.lookup.Answered? && key in table then
        var record := table[key];
        Outcome(Response(200, Success(raw, record.createdAt, record.data, Some(CacheSource))), table, [Lookup(key)])
      else
        var analysed := [Lookup(key), Analyse(key)];
        match env.analyser
        case AnalyserRaised(e) => Outcome(InternalError(e), table, analysed)
        case Returned(result) =>
          if !Truthy(result) then
            Outcome(NotFound, table, analysed)
          else
            var inserted := analysed + [Insert(key, result)];
            var answer := Response(200, Success(raw, env.now, result, None));
            match env.insert
            case InsertRaised(e) => Outcome(InternalError(e), table, inserted)
            case Rejected(_) => Outcome(answer, table, inserted)
            case Stored(createdAt) => Outcome(answer, table[key := Record(createdAt, result)], inserted)
  }

  /** The gateway: the `gitdata` table it reads and appends to, and the
      route handler. */
  class Gateway {

    var table: Table

    constructor (initial: Table)
      ensures table == initial
    {
      table := initial;
    }

    /** The `select ... eq('gitlink', key) .single()` query: only its
        `data` is read, so a reported error looks like an absent row. */
    method SelectRow(key: string, fault: LookupFault) returns (r: LookupResult)
      ensures r.Row? <==> fault.Answered? && key in table
      ensures r.Row? ==> r.record == table[key]
      ensures r.LookupThrew? <==> fault.LookupRaised?
      ensures r.LookupThrew? ==> r.thrown == fault.thrown
    {
      match fault
      case LookupRaised(e) =>
        r := LookupThrew(e);
      case QueryError(_) =>
        r := NoRow;
      case Answered =>
        r := if key in table then Row(table[key]) else NoRow;
    }

    /** The `insert({gitlink, data})`: writes the row when the database
        accepts it; an error it reports is swallowed (only logged), a throw
        is handed back to the caller. */
    method InsertRow(key: string, data: JsValue, outcome: InsertOutcome) returns (raised: Option<Thrown>)
      modifies this
      ensures table == if outcome.Stored? then old(table)[key := Record(outcome.createdAt, data)] else old(table)
      ensures raised == if outcome.InsertRaised? then Some(outcome.thrown) else None
    {
      raised := None;
      match outcome
      case Stored(createdAt) =>
        table := table[key := Record(createdAt, data)];
      case Rejected(_) =>
      case InsertRaised(e) =>
        raised := Some(e);
    }

    /** The route handler: validate, derive the key, look it up, and on a
        miss analyse, insert best-effort and answer. */
    method Analyze(github: Option<string>, env: Collaborators) returns (response: Response, calls: seq<Call>)
      modifies this
      ensures response == Handle(old(table), github, env).response
      ensures calls == Handle(old(table), github, env).calls
      ensures table == Handle(old(table), github, env).table
    {
      calls := [];
      if !HasReference(github) {
        response := BadRequest;
        return;
      }
      var raw := github.value;
      var key := CanonicalKey(raw);

      calls := calls + [Lookup(key)];
      var existing := SelectRow(key, env.lookup);
      if existing.LookupThrew? {
        response := InternalError(existing.thrown);
        return;
      }
      if existing.Row? {
        response := Response(200, Success(raw, existing.record.createdAt, existing.record.data, Some(CacheSource)));
        return;
      }

      calls := calls + [Analyse(key)];
      if env.analyser.AnalyserRaised? {
        response := InternalError(env.analyser.thrown);
        return;
      }
      var result := env.analyser.value;
      if !Truthy(result) {
        response := NotFound;
        return;
      }

      calls := calls + [Insert(key, result)];
      var raised := InsertRow(key, result, env.insert);
      if raised.Some? {
        response := InternalError(raised.value);
        return;
      }
      response := Response(200, Success(raw, env.now, result, None));
    }
  }

  /** A failed insert is invisible to the client: the response and the calls
      are those of a successful insert, and only the table differs, by the
      one row that was not written. */
  lemma InsertFailureInvisible(table: Table, github: Option<string>, env: Collaborators, message: string, createdAt: Timestamp)
    requires IsFresh(table, github, env)
    ensures var failed := Handle(table, github, env.(insert := Rejected(message)));
            var stored := Handle(table, github, env.(insert := Stored(createdAt)));
            && failed.response == stored.response
            && failed.calls == stored.calls
            && failed.table == table
            && stored.table == table[CanonicalKey(github.value) := Record(createdAt, env.analyser.value)]
  {
  }

  /** A lookup that reports an error is a miss: the request goes exactly
      as it would for a table without the key. */
  lemma QueryErrorIsMiss(table: Table, github: Option<string>, env: Collaborators, message: string)
    requires HasReference(github)
    ensures var errored := Handle(table, github, env.(lookup := QueryError(message)));
            var absent := Handle(table - {CanonicalKey(github.value)}, github, env.(lookup := Answered));
            errored.response == absent.response && errored.calls == absent.calls
  {
  }

  /** Idempotence: once a fresh analysis has been stored, the same reference
      asked again is a cache hit with the same analysis, the stored
      timestamp and no further analysis or write. */
  lemma RepeatIsCacheHit(table: Table, github: Option<string>, first: Collaborators, second: Collaborators)
    requires IsFresh(table, github, first) && first.insert.Stored?
    requires second.lookup.Answered?
    ensures var one := Handle(table, github, first);
            var two := Handle(one.table, github, second);
            && one.response.body.Success? && two.response.body.Success?
            && two.response.body.analysis == one.response.body.analysis
            && two.response.body.timestamp == first.insert.createdAt
            && two.response.body.source == Some(CacheSource)
            && two.calls == [Lookup(CanonicalKey(github.value))]
            && two.table == one.table
  {
  }
}
