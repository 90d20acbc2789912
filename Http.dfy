/**
 * The HTTP surface the loopback listener sees, with the I/O abstracted away:
 * a request is a method name, the values of its Origin header and its body;
 * a response is a status code and the headers added to it; everything the
 * listener does that is visible from outside is an Event in a log.
 */
module Http {
  import opened Wrappers

  /** Method names as HttpMethod.Options.Method and HttpMethod.Post.Method spell them. */
  const OptionsMethod := "OPTIONS"
  const PostMethod := "POST"

  /** (int)HttpStatusCode.OK */
  const StatusOK := 200

  /**
   * An incoming request. `origins` is what Headers.GetValues("Origin") gives:
   * None (null) when the header is absent, else the list of its values.
   */
  datatype Request = Request(httpMethod: string, origins: Option<seq<string>>, body: string)

  /** The method test `request.HttpMethod == HttpMethod.Options.Method`: ordinal string equality. */
  predicate IsPreflight(r: Request) {
    r.httpMethod == OptionsMethod
  }

  /** The method test `request.HttpMethod == HttpMethod.Post.Method`. */
  predicate IsPost(r: Request) {
    r.httpMethod == PostMethod
  }

  datatype Header = Header(name: string, value: string)

  /** A response as it is when Close() sends it. */
  datatype Response = Response(status: int, headers: seq<Header>)

  /** No header in `headers` is called `name`. */
  predicate NoneNamed(headers: seq<Header>, name: string) {
    forall j :: 0 <= j < |headers| ==> headers[j].name != name
  }

  /** The value of the first header called `name`, if there is one. */
  function HeaderValue(headers: seq<Header>, name: string): (v: Option<string>)
    ensures v.Some? <==> exists i :: 0 <= i < |headers| && headers[i].name == name
    ensures v.Some? ==> Header(name, v.value) in headers
    ensures forall i :: 0 <= i < |headers| && headers[i].name == name && NoneNamed(headers[..i], name) ==> v == Some(headers[i].value)
    decreases |headers|
  {
    if headers == [] then None
    else if headers[0].name == name then Some(headers[0].value)
    else
      assert forall i :: 1 <= i < |headers| && NoneNamed(headers[..i], name) ==> NoneNamed(headers[1..][..i - 1], name);
      HeaderValue(headers[1..], name)
  }

  /** What the JSON deserializer makes of a body: an object, a null, or an exception. */
  datatype Json<T> = Parsed(value: T) | JsonNull | Malformed

  /** The exceptions that escape the listener. */
  datatype Fault =
    | BindFailure          // GetFreeTcpPort or HttpListener.Start throws
    | MissingOriginHeader  // GetValues("Origin") is null and .Length is read
    | MalformedBody        // JsonConvert.DeserializeObject throws
    | HandlerFault         // the port handler throws

  /**
   * How a listening call ends: it returns a (possibly null) value, an
   * exception escapes it, or it is still awaiting a request when the
   * requests given to the model run out.
   */
  datatype Outcome<T> = Returned(result: Option<T>) | Faulted(fault: Fault) | Pending

  /** What the outside world can observe of a listener. */
  datatype Event =
    | ListenerStarted(prefix: string)  // HttpListener.Start on this prefix
    | PortAnnounced(port: string)      // the port handler is invoked
    | Responded(response: Response)    // a response is closed, i.e. sent
    | ListenerClosed                   // HttpListener.Close
    | BrowserOpened(url: string)       // Application.OpenURL
    | WalletReceived(publicKey: string) // onWalletReceived is invoked

  /**
   * The end of one listening session over a sequence of requests: its
   * outcome, the events it produced, how many requests it read and whether
   * it closed the listener.
   */
  datatype SessionEnd<T> = SessionEnd(outcome: Outcome<T>, events: seq<Event>, consumed: nat, closed: bool)
}
