/**
 The request builder: the client record, its defaults and its chainable
 setters (http_client.go:15-121). The source mutates the client in place and
 returns the same client; here every setter returns the updated record and
 its contract says which field changed and that nothing else did.
 */
module Builder {
  import opened Values
  import opened Responses

  /** One second, in the nanoseconds a Go duration counts. */
  const Second: int := 1_000_000_000

  /** The timeout a fresh client starts with. */
  const DefaultTimeout: int := 2 * Second

  /** The builder state. Durations are in nanoseconds. */
  datatype Client = Client(
    verb: string,
    url: string,
    timeout: int,
    retryAttempts: int,
    retryDelay: int,
    retryRule: Option<Rule>,
    param: Dict<string>,
    query: Dict<seq<string>>,
    header: Dict<seq<string>>,
    form: Dict<seq<string>>,
    body: seq<byte>,
    records: Value)

  /** The groups of fields a single setter replaces. */
  datatype Field =
    | TimeoutField | RetryField | ParamField | QueryField
    | HeaderField | FormField | BodyField | RecordsField

  /** `c` and `d` agree on every field outside group `f`; verb and URL never change. */
  ghost predicate SameExcept(c: Client, d: Client, f: Field)
  {
    && d.verb == c.verb
    && d.url == c.url
    && (f != TimeoutField ==> d.timeout == c.timeout)
    && (f != RetryField ==>
          d.retryAttempts == c.retryAttempts && d.retryDelay == c.retryDelay && d.retryRule == c.retryRule)
    && (f != ParamField ==> d.param == c.param)
    && (f != QueryField ==> d.query == c.query)
    && (f != HeaderField ==> d.header == c.header)
    && (f != FormField ==> d.form == c.form)
    && (f != BodyField ==> d.body == c.body)
    && (f != RecordsField ==> d.records == c.records)
  }

  /**
   Map `e` is map `d` with the values appended under `name`: every other key
   keeps its list, and no key is lost or invented.
   */
  ghost predicate AppendedUnder(d: Dict<seq<string>>, name: string, values: seq<Value>, e: Dict<seq<string>>)
  {
    && e.Dict?
    && Keys(e) == Keys(d) + {name}
    && Appended(ListAt(d, name), values, ListAt(e, name))
    && forall k :: k in Keys(d) && k != name ==> e.entries[k] == d.entries[k]
  }

  /** A fresh client: the given verb and URL, a two-second timeout, no retry, empty maps. */
  function NewRest(verb: string, url: string): (c: Client)
    ensures c.verb == verb && c.url == url
    ensures c.timeout == 2 * Second
    ensures c.retryAttempts == 0 && c.retryDelay == 0 && c.retryRule == None
    ensures c.param == Dict(map[])
    ensures c.query == Dict(map[]) && c.header == Dict(map[]) && c.form == Dict(map[])
    ensures c.body == [] && c.records == Nil
  {
    Client(verb, url, DefaultTimeout, 0, 0, None,
           Dict(map[]), Dict(map[]), Dict(map[]), Dict(map[]), [], Nil)
  }

  /** Stores the values under `name` of a non-nil map (the shared body of the `Add*` setters). */
  function AppendUnder(d: Dict<seq<string>>, name: string, values: seq<Value>): (e: Dict<seq<string>>)
    requires d.Dict?
    ensures AppendedUnder(d, name, values, e)
  {
    Dict(d.entries[name := Add(ListAt(d, name), values)])
  }

  function Timeout(c: Client, timeout: int): (r: Client)
    ensures r.timeout == timeout
    ensures SameExcept(c, r, TimeoutField)
  {
    c.(timeout := timeout)
  }

  function Retry(c: Client, attempts: int, delay: int, rule: Option<Rule>): (r: Client)
    ensures r.retryAttempts == attempts && r.retryDelay == delay && r.retryRule == rule
    ensures SameExcept(c, r, RetryField)
  {
    c.(retryAttempts := attempts, retryDelay := delay, retryRule := rule)
  }

  function Param(c: Client, param: Dict<string>): (r: Client)
    ensures r.param == param
    ensures SameExcept(c, r, ParamField)
  {
    c.(param := param)
  }

  /** Sets one rendered value under `name`, replacing any earlier one; a nil map panics. */
  function AddParam(c: Client, name: string, value: Value): (r: Client)
    requires c.param.Dict?
    ensures r.param.Dict? && Keys(r.param) == Keys(c.param) + {name}
    ensures r.param.entries[name] == Render(value)
    ensures forall k :: k in Keys(c.param) && k != name ==> r.param.entries[k] == c.param.entries[k]
    ensures SameExcept(c, r, ParamField)
  {
    c.(param := Dict(c.param.entries[name := Render(value)]))
  }

  function Query(c: Client, query: Dict<seq<string>>): (r: Client)
    ensures r.query == query
    ensures SameExcept(c, r, QueryField)
  {
    c.(query := query)
  }

  /** Appends rendered values under `name`, keeping earlier ones; a nil map panics. */
  function AddQuery(c: Client, name: string, values: seq<Value>): (r: Client)
    requires c.query.Dict?
    ensures AppendedUnder(c.query, name, values, r.query)
    ensures SameExcept(c, r, QueryField)
  {
    c.(query := AppendUnder(c.query, name, values))
  }

  function Header(c: Client, header: Dict<seq<string>>): (r: Client)
    ensures r.header == header
    ensures SameExcept(c, r, HeaderField)
  {
    c.(header := header)
  }

  /** Appends rendered values under `name`, keeping earlier ones; a nil map panics. */
  function AddHeader(c: Client, name: string, values: seq<Value>): (r: Client)
    requires c.header.Dict?
    ensures AppendedUnder(c.header, name, values, r.header)
    ensures SameExcept(c, r, HeaderField)
  {
    c.(header := AppendUnder(c.header, name, values))
  }

  function Form(c: Client, form: Dict<seq<string>>): (r: Client)
    ensures r.form == form
    ensures SameExcept(c, r, FormField)
  {
    c.(form := form)
  }

  /** Appends rendered values under `name`, keeping earlier ones; a nil map panics. */
  function AddForm(c: Client, name: string, values: seq<Value>): (r: Client)
    requires c.form.Dict?
    ensures AppendedUnder(c.form, name, values, r.form)
    ensures SameExcept(c, r, FormField)
  {
    c.(form := AppendUnder(c.form, name, values))
  }

  function Body(c: Client, body: seq<byte>): (r: Client)
    ensures r.body == body
    ensures SameExcept(c, r, BodyField)
  {
    c.(body := body)
  }

  function Records(c: Client, records: Value): (r: Client)
    ensures r.records == records
    ensures SameExcept(c, r, RecordsField)
  {
    c.(records := records)
  }

  /**
   Repeated appends under one key accumulate: two `AddHeader` calls keep the
   values of both, in call order, exactly as one call with all of them would.
   */
  lemma AddHeaderAccumulates(c: Client, name: string, first: seq<Value>, second: seq<Value>)
    requires c.header.Dict?
    ensures AddHeader(AddHeader(c, name, first), name, second) == AddHeader(c, name, first + second)
    ensures ListAt(AddHeader(AddHeader(c, name, first), name, second).header, name)
         == ListAt(c.header, name) + Add([], first + second)
  {
    AddConcat(ListAt(c.header, name), first, second);
    AddFromEmpty(ListAt(c.header, name), first + second);
  }

  /** Repeated `AddQuery` calls under one key accumulate in call order. */
  lemma AddQueryAccumulates(c: Client, name: string, first: seq<Value>, second: seq<Value>)
    requires c.query.Dict?
    ensures AddQuery(AddQuery(c, name, first), name, second) == AddQuery(c, name, first + second)
  {
    AddConcat(ListAt(c.query, name), first, second);
  }

  /** Appending to a list equals appending to nothing and concatenating. */
  lemma AddFromEmpty(current: seq<string>, values: seq<Value>)
    ensures Add(current, values) == current + Add([], values)
  {
    var a := Add(current, values);
    var b := current + Add([], values);
    assert |a| == |b|;
    forall k | 0 <= k < |a|
      ensures a[k] == b[k]
    {
      if k < |current| {
        assert a[k] == a[..|current|][k];
      } else {
        assert a[k] == Render(values[k - |current|]);
        assert Add([], values)[0 + (k - |current|)] == Render(values[k - |current|]);
      }
    }
  }

  /** Appends under two different keys do not interfere, so their order is irrelevant. */
  lemma AddQueryCommutes(c: Client, n1: string, v1: seq<Value>, n2: string, v2: seq<Value>)
    requires c.query.Dict? && n1 != n2
    ensures AddQuery(AddQuery(c, n1, v1), n2, v2) == AddQuery(AddQuery(c, n2, v2), n1, v1)
  {
    var q := c.query.entries;
    var a1 := Add(ListAt(c.query, n1), v1);
    var a2 := Add(ListAt(c.query, n2), v2);
    assert ListAt(AddQuery(c, n1, v1).query, n2) == ListAt(c.query, n2);
    assert ListAt(AddQuery(c, n2, v2).query, n1) == ListAt(c.query, n1);
    assert q[n1 := a1][n2 := a2] == q[n2 := a2][n1 := a1];
  }
}
