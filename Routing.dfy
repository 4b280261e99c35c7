/**
 * The routing decision of XmlRpcServerImpl.messageReceived: which inbound
 * channel messages the XML-RPC endpoint handles, and what it does with the
 * worker's answer.  The XML-RPC worker (decoding the call, resolving the
 * handler, invoking it, encoding the reply) is an opaque function.
 */
module Routing {
  import opened Registry

  newtype byte = b: int | 0 <= b < 256

  /** HTTP request methods. */
  datatype HttpMethod = OPTIONS | GET | HEAD | POST | PUT | PATCH | DELETE | TRACE | CONNECT

  /** An event travelling up the channel pipeline. */
  datatype Message =
    | HttpRequest(httpMethod: HttpMethod, content: seq<byte>)
    | OtherMessage(id: nat)      // anything that is not an HTTP request

  /** What running the worker on a request body gave: response bytes, or a throwable. */
  datatype WorkerResult = Executed(response: seq<byte>) | Threw(cause: string)

  /** What messageReceived does with the channel. */
  datatype Outcome =
    | PassUpstream(message: Message)                      // hand the event to the next handler
    | SendResponse(contentType: string, body: seq<byte>)  // one HTTP response
    | CloseChannel                                        // no response; the connection is closed

  /** The worker: given the handler table and the request body, execute the call. */
  type Worker = (Table, seq<byte>) -> WorkerResult

  predicate IsPost(m: Message) {
    m.HttpRequest? && m.httpMethod == POST
  }

  /**
   * Only an HTTP POST is handled; everything else goes upstream untouched.
   * A POST runs the worker once: a throwable closes the channel without a
   * response, a result is sent back as one text/xml response.
   */
  function Route(m: Message, handlers: Table, worker: Worker): (o: Outcome)
    ensures o.PassUpstream? <==> !IsPost(m)
    ensures o.PassUpstream? ==> o.message == m
    ensures o.CloseChannel? <==> IsPost(m) && worker(handlers, m.content).Threw?
    ensures o.SendResponse? ==> o.contentType == "text/xml" && worker(handlers, m.content) == Executed(o.body)
  {
    if m.HttpRequest? && m.httpMethod == POST then
      match worker(handlers, m.content)
      case Threw(_) => CloseChannel
      case Executed(bytes) => SendResponse("text/xml", bytes)
    else
      PassUpstream(m)
  }

  /** A message that is not a POST is routed without looking at the table or the worker. */
  lemma RouteIgnoresStateUnlessPost(m: Message, t1: Table, t2: Table, w1: Worker, w2: Worker)
    requires !IsPost(m)
    ensures Route(m, t1, w1) == Route(m, t2, w2) == PassUpstream(m)
  {
  }

  /** A POST depends on the worker only through its result on this table and body. */
  lemma RouteDependsOnlyOnWorkerResult(m: Message, t: Table, w1: Worker, w2: Worker)
    requires IsPost(m) && w1(t, m.content) == w2(t, m.content)
    ensures Route(m, t, w1) == Route(m, t, w2)
  {
  }
}
