/**
 How `send` turns the builder state into a request (http_client.go:128-158):
 parse the URL, replace its query with the collected query values, create the
 request, copy every header value onto it, and copy every form value — which
 panics, because the request's form map is nil.
 */
module Assembly {
  import opened Values
  import opened Responses
  import opened Builder

  /** What URL parsing yields: the URL without its query, and the query it carried, which `send` discards. */
  datatype Location = Location(address: string, rawQuery: string)

  /**
   The URL a request goes to: the parsed address with its query replaced by the
   collected query values. Their text encoding is the library's business.
   */
  datatype Target = Target(address: string, query: map<string, seq<string>>)

  /** The request handed to the transport. */
  datatype Request = Request(verb: string, target: Target, header: map<string, seq<string>>, body: seq<byte>)

  /**
   The library calls `send` depends on, as caller-chosen functions: URL parsing,
   request creation (Some(cause) when it fails), and the transport, which is
   told which round trip of the current `Send` it serves (counting from 0), the
   request and the timeout.
   */
  datatype Env = Env(
    parseUrl: string -> Result<Location, string>,
    newRequest: (string, Target) -> Option<string>,
    roundTrip: (nat, Request, int) -> Outcome)

  /** The values under `key` in a map of lists; a missing key holds none. */
  function Lookup(m: map<string, seq<string>>, key: string): seq<string>
  {
    if key in m then m[key] else []
  }

  /**
   The multimap obtained by adding every value of every key of `d`, one at a
   time: each key yields exactly its own values, in order, and only keys that
   received a value are present.
   */
  function Flatten(d: Dict<seq<string>>): (m: map<string, seq<string>>)
    ensures forall k :: Lookup(m, k) == ListAt(d, k)
    ensures forall k :: k in m ==> m[k] != []
  {
    map k | k in Keys(d) && ListAt(d, k) != [] :: ListAt(d, k)
  }

  /** The two properties of `Flatten` determine its result. */
  lemma FlattenUnique(d: Dict<seq<string>>, m: map<string, seq<string>>)
    requires forall k :: Lookup(m, k) == ListAt(d, k)
    requires forall k :: k in m ==> m[k] != []
    ensures m == Flatten(d)
  {
    var f := Flatten(d);
    forall k
      ensures k in m <==> k in f
    {
      assert Lookup(m, k) == Lookup(f, k);
    }
    forall k | k in m
      ensures m[k] == f[k]
    {
      assert Lookup(m, k) == Lookup(f, k);
    }
  }

  /** Maps holding the same lists under every key flatten alike, whether nil, empty or not. */
  lemma FlattenDependsOnListsOnly(d: Dict<seq<string>>, e: Dict<seq<string>>)
    requires forall k :: ListAt(d, k) == ListAt(e, k)
    ensures Flatten(d) == Flatten(e)
  {
    FlattenUnique(e, Flatten(d));
  }

  /**
   The nested loop that copies a map of lists value by value into a fresh
   multimap, visiting the keys in whatever order the map yields them; used
   for the query (http_client.go:133-139) and the headers (148-152).
   */
  method CollectValues(src: Dict<seq<string>>) returns (dst: map<string, seq<string>>)
    ensures dst == Flatten(src)
  {
    dst := map[];
    var pending := Keys(src);
    while pending != {}
      invariant pending <= Keys(src)
      invariant forall k :: k in dst <==> k in Keys(src) && k !in pending && ListAt(src, k) != []
      invariant forall k :: k in dst ==> dst[k] == ListAt(src, k)
      decreases pending
    {
      var name :| name in pending;
      var values := ListAt(src, name);
      var i := 0;
      while i < |values|
        invariant 0 <= i <= |values|
        invariant forall k :: k in dst <==>
                    (k in Keys(src) && k !in pending && ListAt(src, k) != []) || (k == name && 0 < i)
        invariant forall k :: k in dst && k != name ==> dst[k] == ListAt(src, k)
        invariant 0 < i ==> dst[name] == values[..i]
      {
        var sofar := if name in dst then dst[name] else [];
        dst := dst[name := sofar + [values[i]]];
        i := i + 1;
      }
      assert 0 < i ==> values[..i] == values;
      pending := pending - {name};
    }
    FlattenUnique(src, dst);
  }

  /** No form key holds a value, so the form loop never stores into the nil form map. */
  predicate FormIsEmpty(form: Dict<seq<string>>)
  {
    forall k :: k in Keys(form) ==> ListAt(form, k) == []
  }

  /**
   The form loop (http_client.go:154-158): every value of every form key is
   stored into `target`, the request's form map, visiting keys in any order.
   Storing into a nil map panics, so the loop panics exactly when the target is
   nil and some form key holds a value.
   */
  method StoreFormValues(form: Dict<seq<string>>, target: Dict<seq<string>>) returns (panicked: bool)
    ensures panicked <==> target.NilDict? && !FormIsEmpty(form)
  {
    panicked := false;
    var store := target;
    var pending := Keys(form);
    while pending != {}
      invariant pending <= Keys(form)
      invariant store.NilDict? <==> target.NilDict?
      invariant forall k :: k in Keys(form) && k !in pending ==> target.Dict? || ListAt(form, k) == []
      decreases pending
    {
      var name :| name in pending;
      var values := ListAt(form, name);
      var i := 0;
      while i < |values|
        invariant 0 <= i <= |values|
        invariant store.NilDict? <==> target.NilDict?
        invariant 0 < i ==> target.Dict?
      {
        if store.NilDict? {
          panicked := true;
          return;
        }
        store := Dict(store.entries[name := ListAt(store, name) + [values[i]]]);
        i := i + 1;
      }
      pending := pending - {name};
    }
  }

  /** The parsed address with its own query dropped and the client's query values in its place. */
  function TargetOf(c: Client, location: Location): Target
  {
    Target(location.address, Flatten(c.query))
  }

  /**
   Builds the request for one round. Fails, with the matching wrapped error,
   exactly when URL parsing or request creation fails; otherwise carries the
   client's verb and body and the parsed address (and, by `BuildRequestCarries`,
   every query and header value of the client).
   */
  function BuildRequest(c: Client, env: Env): (r: Result<Request, Error>)
    ensures env.parseUrl(c.url).Failure? ==> r == Failure(UrlParse(env.parseUrl(c.url).error))
    ensures r.Failure? ==> r.error.UrlParse? || r.error.NewRequest?
    ensures env.parseUrl(c.url).Success? && env.newRequest(c.verb, TargetOf(c, env.parseUrl(c.url).value)).Some? ==>
              r == Failure(NewRequest(env.newRequest(c.verb, TargetOf(c, env.parseUrl(c.url).value)).value))
    ensures r.Success? <==>
              env.parseUrl(c.url).Success? && env.newRequest(c.verb, TargetOf(c, env.parseUrl(c.url).value)) == None
    ensures r.Success? ==>
              && r.value.verb == c.verb
              && r.value.body == c.body
              && r.value.target.address == env.parseUrl(c.url).value.address
  {
    match env.parseUrl(c.url)
    case Failure(cause) => Failure(UrlParse(cause))
    case Success(location) =>
      var target := TargetOf(c, location);
      match env.newRequest(c.verb, target)
      case Some(cause) => Failure(NewRequest(cause))
      case None => Success(Request(c.verb, target, Flatten(c.header), c.body))
  }

  /** A built request carries every query and header value of the client, per key and in order. */
  lemma BuildRequestCarries(c: Client, env: Env)
    requires BuildRequest(c, env).Success?
    ensures forall k :: Lookup(BuildRequest(c, env).value.target.query, k) == ListAt(c.query, k)
    ensures forall k :: Lookup(BuildRequest(c, env).value.header, k) == ListAt(c.header, k)
  {
    var loc := env.parseUrl(c.url).value;
    assert BuildRequest(c, env).value.target == TargetOf(c, loc);
    assert BuildRequest(c, env).value.header == Flatten(c.header);
  }

  /**
   The request depends only on the verb, URL, query, headers and body: the
   timeout, retry policy, param map, form map and records play no part, and
   nil maps, empty maps and empty lists are indistinguishable.
   */
  lemma BuildDependsOnlyOn(c: Client, d: Client, env: Env)
    requires c.verb == d.verb && c.url == d.url && c.body == d.body
    requires forall k :: ListAt(c.query, k) == ListAt(d.query, k)
    requires forall k :: ListAt(c.header, k) == ListAt(d.header, k)
    ensures BuildRequest(c, env) == BuildRequest(d, env)
  {
    FlattenDependsOnListsOnly(c.query, d.query);
    FlattenDependsOnListsOnly(c.header, d.header);
  }
}
