/**
 What one round trip can end in, and how `send` turns that into the pair it
 returns: a response or an error, never both and never neither
 (http_client.go:30-34, 171-190).
 */
module Responses {
  import opened Values

  /** The response handed back to the caller. */
  datatype Response = Response(statusCode: int, header: map<string, seq<string>>, body: string)

  /**
   The errors `send` can return. The two request-assembly failures are wrapped
   with a label naming the failing call; transport and read failures are
   returned exactly as the library reported them. The `Transport` and `Read`
   tags are the model's own record of which stage failed: Go returns the bare
   error, and `ClassifyInjective` separates those two stages only by the tag.
   */
  datatype Error =
    | UrlParse(cause: string)     // wrapped as "url.Parse"
    | NewRequest(cause: string)   // wrapped as "http.NewRequest"
    | Transport(cause: string)    // from the HTTP client's round trip
    | Read(cause: string)         // from draining the response body

  /**
   What the transport reports for one request: a delivered response whose body
   drained completely, a failed round trip, or a response whose body could not
   be drained.
   */
  datatype Outcome =
    | Delivered(status: int, header: map<string, seq<string>>, body: string)
    | TransportFailed(cause: string)
    | ReadFailed(cause: string)

  /** The (response, error) pair one attempt yields; `None` stands for nil. */
  datatype Attempt = Attempt(response: Option<Response>, err: Option<Error>)

  /** Exactly one of the two halves of an attempt is present. */
  predicate Exclusive(a: Attempt)
  {
    a.response.Some? != a.err.Some?
  }

  /**
   Classifies a transport outcome the way `send` does: a response exists
   exactly when the round trip and the body read both succeeded.
   */
  function Classify(o: Outcome): (a: Attempt)
    ensures Exclusive(a)
    ensures a.response.Some? <==> o.Delivered?
    ensures o.Delivered? ==> a.response.value == Response(o.status, o.header, o.body)
    ensures o.TransportFailed? ==> a.err == Some(Transport(o.cause))
    ensures o.ReadFailed? ==> a.err == Some(Read(o.cause))
  {
    match o
    case Delivered(status, header, body) => Attempt(Some(Response(status, header, body)), None)
    case TransportFailed(cause) => Attempt(None, Some(Transport(cause)))
    case ReadFailed(cause) => Attempt(None, Some(Read(cause)))
  }

  /** Classification loses nothing: distinct outcomes yield distinct attempts. */
  lemma ClassifyInjective(o: Outcome, p: Outcome)
    requires Classify(o) == Classify(p)
    ensures o == p
  {
    match o
    case Delivered(_, _, _) => assert Classify(p).response.Some?;
    case TransportFailed(_) => assert Classify(p).err.value.Transport?;
    case ReadFailed(_) => assert Classify(p).err.value.Read?;
  }

  /**
   A retry predicate, as the model sees it: it is told which round it is asked
   about (counting from 0) and that round's attempt.
   */
  type Rule = (nat, Attempt) -> bool
}
