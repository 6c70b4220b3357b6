# Cache-aside repository analysis gateway

A Dafny model of the `GET /api/analyze?github=<owner>/<repo>` route of the
Gitreposcanner gateway. The route is a cache-aside read in front of a
repository analyser:

1. it refuses a missing or empty `github` parameter with 400;
2. it turns the short `owner/repo` reference into the canonical key
   `https://github.com/owner/repo`;
3. it looks the key up in the `gitdata` table, and on a hit answers with the
   stored analysis, the row's `created_at` and `source: 'cache'`;
4. on a miss it runs the analyser, and a falsy result is a 404;
5. otherwise it inserts `{gitlink, data}` best-effort, since a reported insert
   error is only logged, and answers with the fresh analysis and the current
   time, with no `source` field;
6. an error object thrown along the way is a 500 carrying that error's
   `message` (a thrown `null` or `undefined` is not modelled, see below).

Files:

- `wrappers.dfy` (`Wrappers`): the `Option` type, for JSON fields that may be absent.
- `js_values.dfy` (`JsValues`): the JavaScript values the analyser returns and
  the table stores, and JavaScript truthiness, which `if (!x)` tests.
- `repo_keys.dfy` (`RepoKeys`): key derivation and its inverse.
- `analyze_handler.dfy` (`AnalyzeHandler`):
  - `Handle` is the specification of one request. It gives the response, the
    table afterwards and the collaborator calls made, in order. Its
    postconditions state each branch's promise.
  - `Gateway` is a class that owns the table as a `map` field. Its `Analyze`
    method is the handler, written step by step with early returns, and it is
    proved equal to `Handle`.
  - The file also holds the lemmas that relate requests with different
    collaborator outcomes.
- `request_sequence.dfy` (`RequestSequence`): requests handled one after
  another against the shared table, with the multi-request properties. These
  are idempotence over any sequence, the table staying well formed, and "stored
  once, never analysed again".

Collaborators are inputs (`Collaborators`):

- The lookup query is modelled as a fault indicator:
  - `Answered`: the row comes from the modelled table, if it is there.
  - `QueryError`: no data, so the request treats it as a miss.
  - `LookupRaised`: the query threw.
- The analyser either returns a `JsValue` or throws.
- The insert is `Stored(createdAt)`, `Rejected(message)` or `InsertRaised`.
  With `Stored`, the database assigns the row's creation time.
- The current time `now` is an input.

## Model

| member | source | states |
|---|---|---|
| RepoKeys.CanonicalKey | code/gitclient/app.js:31 | the key is the fixed origin `https://github.com/` followed by the raw reference exactly as given |
| RepoKeys.RawReference | code/gitclient/app.js:31 | from a canonical key, recovers a non-empty reference whose canonical key is that key |
| RepoKeys.CanonicalKeyInjective | code/gitclient/app.js:31 | two references have the same key if and only if they are equal |
| RepoKeys.RawReferenceOfKey | code/gitclient/app.js:31 | a non-empty reference gives a canonical key, and reading the reference back out returns it unchanged |
| JsValues.Truthy | code/gitclient/app.js:55 | the values that `if (!result)` sends to the 404 branch are exactly undefined, null, false, 0, NaN and the empty string; arrays and objects are truthy even when empty |
| AnalyzeHandler.HasReference | code/gitclient/app.js:24 | the `github` parameter passes `if (!githubUrl)` exactly when it is present and its string is truthy under JavaScript's rules (not empty) |
| AnalyzeHandler.Handle | code/gitclient/app.js:20-89 | codes are 200/400/404/500, 200 is exactly the success body, and the `status` field is `success` for 200 and `error` otherwise. A missing or empty reference gives 400 with the fixed message, no calls and an unchanged table. Otherwise the first call looks up the canonical key. A lookup that throws gives a 500 whose `error` is the thrown message, after the lookup alone. A hit returns the stored data and `created_at`, tagged `cache`, with no other call and an unchanged table. A miss, including a query error, calls the analyser on the key. An analyser that throws gives a 500 whose `error` is the thrown message, after the lookup and the analysis, with nothing inserted. A falsy result gives 404 with two calls and an unchanged table. A truthy result makes exactly one insert of `{key, result}`. If the insert throws, the answer is a 500 with the thrown message. Otherwise the answer is 200 with `now`, the result and no `source`, whether or not the row was stored. Only a stored insert changes the table, and only at the key. Keys are never lost. A well-formed table stays well formed. A 500 leaves the table unchanged and carries the generic message. Success means a hit or a fresh result whose insert did not throw. |
| AnalyzeHandler.Gateway.SelectRow | code/gitclient/app.js:35-41 | returns the row exactly when the query answered and the key is in the table; a reported error gives no row; a throw is handed back |
| AnalyzeHandler.Gateway.InsertRow | code/gitclient/app.js:62-72 | the table gains `{key, data}` stamped by the database exactly when the insert is stored; a reported error leaves it unchanged and is swallowed; a throw is handed back |
| AnalyzeHandler.Gateway.Analyze | code/gitclient/app.js:20-89 | the handler's response, its calls and the new table are exactly those `Handle` specifies for the old table |
| AnalyzeHandler.InsertFailureInvisible | code/gitclient/app.js:62-79 | on a fresh analysis, a rejected insert and a stored insert give the same response and calls; only the table differs, by the one row |
| AnalyzeHandler.QueryErrorIsMiss | code/gitclient/app.js:35-41 | a lookup that reports an error gives the same response and calls as an answered lookup on a table without the key |
| AnalyzeHandler.RepeatIsCacheHit | code/gitclient/app.js:35-79 | after a fresh success whose insert was stored, the same reference asked again is a cache hit with the same analysis, the stored timestamp, the `cache` tag, a single lookup and an unchanged table |
| RequestSequence.Serve | code/gitclient/app.js:20-89 | handling requests in order gives one response and one call list per request, and the table's keys only grow |
| RequestSequence.ServeCallsConcernTheirRequest | code/gitclient/app.js:31-68 | in any sequence, every call made for a request has a valid reference and concerns that request's own key |
| RequestSequence.ServeKeepsWellFormed | code/gitclient/app.js:55-68 | a table whose keys are canonical and whose analyses are truthy stays so over any sequence of requests |
| RequestSequence.SuccessCarriesAnalysis | code/gitclient/app.js:41-79 | over a well-formed table, every successful response in any sequence carries a truthy analysis |
| RequestSequence.CachedStaysCached | code/gitclient/app.js:35-49 | while the lookups for its key answer, a cached row is never replaced, whatever lookups and inserts for other keys do, and every request for its key is answered from it (200, stored analysis and time, `cache`) with the lookup as its only call |
| RequestSequence.AnsweredLookupFindsKeptKey | code/gitclient/app.js:35-49 | rows are never removed, so any later request whose lookup answers does not call the analyser for a key the table held at the start of the run, whatever the requests in between do |
| RequestSequence.StoredKeyNotAnalysedAgain | code/gitclient/app.js:35-68 | handled one at a time, once a request's insert for a key is stored, no later request whose lookup answers calls the analyser for that key, whatever the other lookups and inserts do |

## Left out

- Express setup, CORS and JSON middleware, the `/test` liveness route and `app.listen`/`PORT` (code/gitclient/app.js:1-18, 91-94) are framework plumbing.
- The query-service client is not modelled, and neither are its credentials or the query-builder semantics (code/gitclient/app.js:4-9). Lookup and insert are abstracted to the outcomes listed above.
- The table is a `map`, so it holds one row per key. The real table accepts an unconditional insert. After a lookup error on a key that is present, that insert adds a duplicate row, and what `.single()` then returns is library behaviour. In the model, a stored insert on an existing key replaces the entry.
- The analyser (`ComprehensiveGithubAnalyzer` from `./git`) is not part of this model. It is an opaque outcome: a returned value or a throw. A throw from its constructor and one from `analyzeRepository` are both the `AnalyserRaised` outcome.
- Thrown values are modelled as error objects whose `message` is a string or absent. A thrown `null` or `undefined` is not modelled: reading `error.message` in the catch block (code/gitclient/app.js:86) would itself throw, so no 500 would be sent and the rejection would escape the handler. A `message` that is not a string is not modelled either.
- The table keeps the analyser's value exactly as given, not the JSON form the row holds once read back. For example, `[undefined]` reads back as `[null]`, and an `undefined` field is dropped. The "same analysis" of `RepeatIsCacheHit` is therefore the same once both responses are serialised to JSON, not the same JavaScript value.
- A throw from the insert is modelled as leaving the table unchanged. Whether a row was written before the throw cannot be known from the handler.
- Concurrent requests are not modelled, including the race between simultaneous first requests for the same key, which the code does not coordinate. `StoredKeyNotAnalysedAgain` holds only for requests handled one at a time.
- `console.log`/`console.error` logging is not modelled. Neither is the ISO-8601 formatting of `new Date()`, so `now` is an opaque input.
- Express query quirks are not modelled. A repeated `github` parameter arriving as an array is one. The parameter is either absent or one string.
- JavaScript numbers are exact reals with a separate NaN. BigInt zero is not modelled.
- A fresh success has no `source` field in its response, as in the code. It is not tagged as freshly computed. Its insert carries no `created_at`, because the database assigns it. The response timestamp is `now`, taken independently of the row's stamp. The model follows the code in all three.
