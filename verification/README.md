# HTTP request builder with bounded retry — a Dafny model

This project models the request builder and retry loop in `http_client.go`.
The builder is a `Client` that accumulates a verb, a URL, a timeout, a retry
policy, multi-valued query, header and form maps, a body and opaque records
through chainable setters. `Send` turns that state into a request, makes one
transport round trip, and classifies the outcome as a response or an error.
While retries remain and the caller's predicate approves, it sleeps and tries
again.

Modules:

- `Values` (values.dfy): `Option`/`Result`, Go maps that may be nil (`Dict`),
  the dynamically typed values the setters accept (`Value`), their `%v`
  rendering, and the `add` helper.
- `Responses` (responses.dfy): `Response`, `Error`, transport `Outcome`, and the
  per-attempt (response, error) pair with its classification.
- `Builder` (builder.dfy): the `Client` record, `NewRest` and every setter.
- `Assembly` (assembly.dfy): query and header collection, request building,
  and `Env`. `Env` holds the library calls (URL parsing, request creation,
  the transport) as caller-chosen functions.
- `Executor` (executor.dfy): the recursive `send` (`Round`), `Send`, and the
  retry properties.
- `Scenarios` (scenarios.dfy): worked examples, proved against a stub transport.

Modelling choices:

- The source mutates the client and returns the same client. Here each setter
  returns the updated record. `SameExcept` states that the setter's own field
  is the only one that changed.
- Durations are integers counting nanoseconds. `NewRest`'s default timeout is
  `2 * Second`.
- A Go map may be nil. Reading a nil map finds nothing, but storing into one
  panics. So `AddParam`, `AddQuery`, `AddHeader` and `AddForm` require a
  non-nil map. A nil slice and an empty one are the same `seq`, because `add`
  and `range` treat them alike.
- The transport is a function of the round index, the request and the
  timeout. It answers `Delivered`, `TransportFailed` or `ReadFailed`. Sleeping
  is recorded, not performed: `Run.slept` lists each delay. `Run.sent` lists
  every request handed to the transport, and `Run.asked` counts the predicate
  calls.
- The retry predicate is a function of the round index (counting from 0) and
  that round's (response, error) pair. Through the index it can behave like a
  stateful closure within one `Send`.
- Two situations panic in Go, and `MayRun` excludes both as a precondition:
  - form values are present once the request has been built (`req.Form` is a
    nil map at http_client.go:156);
  - there is no predicate while `attempts > 0`.

  `AddFormPanics` and `RetryWithoutRulePanics` show that each setter call
  really does lead there.

Behaviour of the code that the model keeps:

- The form loop is not a no-op: `req.Form` is nil after `http.NewRequest`, so
  any form value panics at http_client.go:156.
- Only the `url.Parse` and `http.NewRequest` errors are wrapped
  (http_client.go:130, 145). Transport and body-read errors are returned as
  produced (http_client.go:176, 181), as `Transport` and `Read`.
- The URL's own query string is dropped: `RawQuery` is overwritten with the
  collected query values (`TargetOf`).

## Model

| member | source | states |
|---|---|---|
| Values.Add | http_client.go:50-59 | the result is `current` followed by the rendering of each value in order; its length grows by exactly the number of values |
| Values.AddConcat | http_client.go:50-59 | two successive `add` calls equal one call with the value lists concatenated |
| Values.Render | http_client.go:56 | `%v` leaves a string unchanged, prints nil as `<nil>` and booleans as `true`/`false`, and prints an integer as text that reads back as that integer, with a minus sign exactly when it is negative and no leading zero or "-0" (also used at line 79) |
| Builder.AppendUnder | http_client.go:89 | `c.x[name] = add(c.x[name], values...)` on a non-nil map: the list under the name gains the rendered values after its earlier ones, every other key keeps its list, and only the name is added as a key (the same statement at lines 99 and 109) |
| Executor.MayRun | http_client.go:154-158 | no panic is possible when the request cannot be built; once it is built, no panic requires every form key to be empty (line 156) and a predicate whenever attempts remain (line 193) |
| Assembly.StoreFormValues | http_client.go:154-158 | the form loop, storing each form value into the request's form map in any key order, panics exactly when that map is nil and some form key holds a value, the condition `MayRun` excludes |
| Values.DecimalRoundTrip | http_client.go:56 | the decimal text `%v` prints for an integer reads back as that integer |
| Values.RenderIntInjective | http_client.go:79 | distinct integers stored by `AddParam` render to distinct texts |
| Responses.Classify | http_client.go:171-190 | an attempt has a response iff the round trip and the body read both succeed; exactly one of response and error is present; a response carries the transport's status, headers and body; each failure keeps its cause |
| Responses.ClassifyInjective | http_client.go:178-190 | distinct transport outcomes yield distinct (response, error) pairs |
| Builder.NewRest | http_client.go:36-48 | a new client has the given verb and URL, a 2-second timeout, no retries, no delay or predicate, empty (non-nil) param, query, header and form maps, no body and no records |
| Builder.Timeout | http_client.go:61-64 | replaces the timeout; every other field is unchanged |
| Builder.Retry | http_client.go:66-71 | replaces attempts, delay and predicate together; every other field is unchanged |
| Builder.Param | http_client.go:73-76 | replaces the param map; every other field is unchanged |
| Builder.AddParam | http_client.go:78-81 | on a non-nil map, sets the single rendered value under the name, replacing any earlier one; other keys and other fields are unchanged |
| Builder.Query | http_client.go:83-86 | replaces the query map; every other field is unchanged |
| Builder.AddQuery | http_client.go:88-91 | on a non-nil map, appends the rendered values under the name after the earlier ones; other keys and other fields are unchanged |
| Builder.Header | http_client.go:93-96 | replaces the header map; every other field is unchanged |
| Builder.AddHeader | http_client.go:98-101 | on a non-nil map, appends the rendered values under the name after the earlier ones; other keys and other fields are unchanged |
| Builder.Form | http_client.go:103-106 | replaces the form map; every other field is unchanged |
| Builder.AddForm | http_client.go:108-111 | on a non-nil map, appends the rendered values under the name after the earlier ones; other keys and other fields are unchanged |
| Builder.Body | http_client.go:113-116 | replaces the body; every other field is unchanged |
| Builder.Records | http_client.go:118-121 | replaces the records; every other field is unchanged |
| Builder.AddHeaderAccumulates | http_client.go:98-101 | two `AddHeader` calls under one name keep both calls' values in order, exactly as one call with all of them would |
| Builder.AddQueryAccumulates | http_client.go:88-91 | two `AddQuery` calls under one name equal one call with the values concatenated |
| Builder.AddQueryCommutes | http_client.go:88-91 | appends under two different keys give the same client in either order |
| Builder.AddFromEmpty | http_client.go:50-59 | appending to a list equals the list followed by what `add` makes from nothing |
| Assembly.Flatten | http_client.go:133-139 | the collected multimap holds under each key exactly that key's values in order, none dropped, and has no key without values |
| Assembly.FlattenUnique | http_client.go:133-139 | those two properties determine the collected multimap |
| Assembly.FlattenDependsOnListsOnly | http_client.go:133-139 | maps with the same lists under every key collect to the same multimap, whether nil, empty or not |
| Assembly.CollectValues | http_client.go:133-139 | the nested loop adding values one at a time, visiting keys in any order, yields exactly the collected multimap; the header loop at 148-152 has the same shape |
| Assembly.BuildRequest | http_client.go:128-146 | fails with the wrapped URL-parse error when parsing fails, and with the wrapped creation error exactly when request creation rejects the verb and target; otherwise the request has the client's verb and body and the parsed address |
| Assembly.BuildRequestCarries | http_client.go:133-152 | a built request carries, under every key and in order, exactly the client's query values in its URL and the client's header values in its headers |
| Assembly.BuildDependsOnlyOn | http_client.go:128-158 | the request depends only on the verb, URL, query, headers and body |
| Executor.Round | http_client.go:127-200 | exactly one of response and error is returned; a failed build returns its error with no round trip, predicate call or sleep; otherwise 1 to `attempts + 1` round trips, all with the request built from the client, one sleep of the retry delay between consecutive ones, and one predicate call after each round that still had attempts left |
| Executor.Send | http_client.go:123-125 | runs `send` with the configured attempts: exactly one of response and error, at most `max(retryAttempts, 0) + 1` round trips and at most `max(retryAttempts, 0)` sleeps, so a negative count allows no retry |
| Executor.StopRound | http_client.go:192-196 | the round at which the retry loop stops, defined on its own: every earlier round was approved by the predicate, and it is either the round that uses up the retries or the first one the predicate refuses |
| Executor.RoundStopsAtFirstRefusal | http_client.go:192-199 | `send` makes one round trip per round up to `StopRound` and returns that round's attempt |
| Executor.SendUrlParseFailure | http_client.go:128-131 | an unparsable URL gives a nil response and the wrapped parse error, with zero round trips, predicate calls and sleeps, whatever the retry count |
| Executor.SendWithoutRetries | http_client.go:192-199 | with zero or negative attempts: one round trip, no predicate call, no sleep, and that round trip's attempt |
| Executor.SendAlwaysRetrying | http_client.go:192-196 | a predicate that always approves gives `retryAttempts + 1` round trips, `retryAttempts` predicate calls, `retryAttempts` sleeps of the delay, and the last round's attempt |
| Executor.SendRefusedAtOnce | http_client.go:192-199 | a predicate refusing the first round gives one round trip, one predicate call, no sleep, and the first attempt |
| Executor.RoundIgnoresParamAndRecords | http_client.go:127-200 | replacing the param map and the records changes nothing in a `send` run |
| Executor.SendIgnoresParamAndRecords | http_client.go:123-125 | the same for `Send` |
| Executor.AddFormPanics | http_client.go:154-158 | after `AddForm` with at least one value, a buildable request leads `send` into the nil form map (no longer `MayRun`) |
| Executor.RetryWithoutRulePanics | http_client.go:192-193 | positive attempts with no predicate lead `send` into the nil predicate call once the request is built |
| Executor.FreshClientSendsOnce | http_client.go:36-48 | a client straight from `NewRest` makes exactly one round trip with the 2-second timeout, asks no predicate, never sleeps, and returns that round trip's attempt |
| Scenarios.SingleGet | http_client.go:127-190 | GET with `id=42`, no retries, transport answering 200 "ok": that response and no error after one round trip carrying the query `id=42` |
| Scenarios.RetryUntilSuccess | http_client.go:192-196 | two retries 10 ms apart while an error is seen, transport failing twice then answering: the success after three round trips and two 10 ms sleeps |
| Scenarios.QueryValuesKeepOrder | http_client.go:133-139 | `x=a` then `x=b` reach the request as `x: [a, b]` |
| Scenarios.HeaderValuesAccumulate | http_client.go:148-152 | two `AddHeader("X", …)` calls with 1 and 2 put both "1" and "2" on the request |

## Left out

- Network I/O: the transport, dialling, `httpClient.Do`, `ioutil.ReadAll` and closing the body (http_client.go:160-181). They are replaced by the `Env.roundTrip` oracle.
- Time: timeout semantics and `time.Sleep` (http_client.go:168, 194). The timeout is passed to the oracle unchanged, and sleeps are recorded as their durations.
- Library behaviour of `url.Parse`: it is the `Env.parseUrl` function, and both its outcomes are modelled.
- Library behaviour of `http.NewRequest`: only its success-or-failure decision is an `Env` function (`Env.newRequest`). The verb, target, headers and body of a built request are fixed by `BuildRequest`. `http.NewRequest` turns the verb "" into "GET"; the model keeps "", which Go's `Request.Method` treats the same way.
- Aliasing: `Query`, `Header`, `Form` and `Param` store the caller's map itself, so later `Add*` calls also change the caller's map. `add` uses `append`, which can write into a backing array shared by several slices. The model gives each key its own list and shares nothing with the caller.
- `url.Values.Encode` (key sorting, percent-escaping): the request carries the collected values, not their encoded text.
- `http.Header.Add` key canonicalisation: header names are kept as given.
- `fmt.Sprintf("%v", …)` for kinds other than nil, strings, integers and booleans (floats, structs, slices and others): `Value` has no such kinds.
- Executor.Round: the predicate does not receive the client, and it receives the attempt by value. In Go it gets a reference to the client (http_client.go:193), so it could reconfigure the client before the next round is built, or read the unexported `param` and `records` when it is written inside the package. It also gets the same `*Response` pointer that `send` then returns (http_client.go:193, 199), so it could change the status, headers or body the caller receives. The model's predicate can do none of this. So `RoundStopsAtFirstRefusal`, `SendAlwaysRetrying` and `SendRefusedAtOnce` return the classified attempt unchanged, and `SendIgnoresParamAndRecords` holds only because the predicate cannot see the client. A Dafny datatype cannot hold a function that takes that same datatype.
- `param` and `records` are stored but never read by `send`. The model states only that `send` does not depend on them.
- Sharing a client across goroutines: `send` reads the client without locking. `send` never writes to the client, so a second `Send` rebuilds the same request from the unchanged client.
- Executor.Send: predicate state carried from one `Send` to the next is not modelled. The round index restarts at 0 on every `Send`, so two `Send` calls on the same client and the same transport give the same run. In Go a closure stored as the predicate keeps its captured state: with a counter that approves only its first call and `Retry(1, …)`, the first `Send` makes 2 round trips and the second makes 1.
- Strings as bytes: Go strings, and the `string(body)` conversion at http_client.go:187, hold arbitrary bytes. Dafny's `string` is a sequence of characters, so a body, header or query value that is not valid UTF-8 has no exact counterpart. No proved property depends on this, because the model only passes these values through.
