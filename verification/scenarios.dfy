/**
 Worked examples of the builder and the retry executor against a stub
 environment: URLs always parse, requests are always created, and the
 transport refuses a given number of connections before answering 200 "ok".
 */
module Scenarios {
  import opened Values
  import opened Responses
  import opened Builder
  import opened Assembly
  import opened Executor

  const Millisecond: int := 1_000_000

  /** The answer the stub transport gives once it stops refusing. */
  function OkResponse(): Response
  {
    Response(200, map[], "ok")
  }

  /** Parses every URL to itself, creates every request, refuses the first `refusals` round trips. */
  function StubEnv(refusals: nat): Env
  {
    Env(
      (u: string) => Success(Location(u, "")),
      (verb: string, t: Target) => None,
      (n: nat, req: Request, timeout: int) =>
        if n < refusals then TransportFailed("connection refused") else Delivered(200, map[], "ok"))
  }

  /** GET https://example.test/items?id=42 with a 500 ms timeout and no retry. */
  function ItemsClient(): Client
  {
    AddQuery(Timeout(NewRest("GET", "https://example.test/items"), 500 * Millisecond), "id", [Text("42")])
  }

  /** The same request, retried up to twice, 10 ms apart, while the attempt carries an error. */
  function RetryingClient(): Client
  {
    Retry(ItemsClient(), 2, 10 * Millisecond, Some((n: nat, a: Attempt) => a.err.Some?))
  }

  /** One round trip answered 200 "ok" yields that response and no error. */
  lemma SingleGet()
    ensures MayRun(ItemsClient(), StubEnv(0), 0)
    ensures var r := Send(ItemsClient(), StubEnv(0));
            && r.final == Attempt(Some(OkResponse()), None)
            && |r.sent| == 1 && r.asked == 0 && r.slept == []
            && r.sent[0].target.query == map["id" := ["42"]]
            && r.sent[0].target.address == "https://example.test/items"
  {
    var c := ItemsClient();
    assert ListAt(c.query, "id") == ["42"];
    assert Keys(c.query) == {"id"};
    var q := Flatten(c.query);
    assert Lookup(q, "id") == ["42"];
    assert q == map["id" := ["42"]];
    SendWithoutRetries(c, StubEnv(0));
  }

  /** Two refusals then success: the success is returned after two sleeps of 10 ms. */
  lemma RetryUntilSuccess()
    ensures MayRun(RetryingClient(), StubEnv(2), 2)
    ensures var r := Send(RetryingClient(), StubEnv(2));
            && r.final == Attempt(Some(OkResponse()), None)
            && |r.sent| == 3 && r.asked == 2
            && r.slept == [10 * Millisecond, 10 * Millisecond]
  {
    var c := RetryingClient();
    var env := StubEnv(2);
    assert c.retryAttempts == 2 && c.retryRule.Some?;
    var built := BuildRequest(c, env);
    assert built.Success?;
    var req := built.value;
    var refused := Attempt(None, Some(Transport("connection refused")));
    assert AttemptAt(c, env, req, 0) == refused;
    assert AttemptAt(c, env, req, 1) == refused;
    assert AttemptAt(c, env, req, 2) == Attempt(Some(OkResponse()), None);
    assert ApprovedAt(c, env, req, 0);
    assert ApprovedAt(c, env, req, 1);
    RoundStopsAtFirstRefusal(c, env, 2, 0, req);
  }

  /** Values added under one query key in two calls reach the request in call order. */
  lemma QueryValuesKeepOrder()
    ensures var c := AddQuery(AddQuery(NewRest("GET", "https://example.test/items"), "x", [Text("a")]), "x", [Text("b")]);
            && MayRun(c, StubEnv(0), 0)
            && Lookup(Send(c, StubEnv(0)).sent[0].target.query, "x") == ["a", "b"]
  {
    var c := AddQuery(AddQuery(NewRest("GET", "https://example.test/items"), "x", [Text("a")]), "x", [Text("b")]);
    AddQueryAccumulates(NewRest("GET", "https://example.test/items"), "x", [Text("a")], [Text("b")]);
    assert ListAt(c.query, "x") == ["a", "b"];
    SendWithoutRetries(c, StubEnv(0));
  }

  /** Two `AddHeader` calls under one name put both values on the outgoing request. */
  lemma HeaderValuesAccumulate()
    ensures var c := AddHeader(AddHeader(NewRest("GET", "https://example.test/items"), "X", [Int(1)]), "X", [Int(2)]);
            && MayRun(c, StubEnv(0), 0)
            && Lookup(Send(c, StubEnv(0)).sent[0].header, "X") == ["1", "2"]
  {
    var c0 := NewRest("GET", "https://example.test/items");
    var c := AddHeader(AddHeader(c0, "X", [Int(1)]), "X", [Int(2)]);
    AddHeaderAccumulates(c0, "X", [Int(1)], [Int(2)]);
    assert Render(Int(1)) == "1";
    assert Render(Int(2)) == "2";
    assert ListAt(c.header, "X") == ["1", "2"];
    SendWithoutRetries(c, StubEnv(0));
  }
}
