/**
 * WalletAuthenticator: a one-shot loopback listener on a free port that
 * answers any number of CORS preflights and resolves on the first POST.
 */
module Authenticator {
  import opened Wrappers
  import opened Http
  import opened Decimal
  import opened Cors
  import opened Wallet

  /**
   * GetWalletResponse: the payload of a POST when its first Origin value is
   * `authURL`, null when it is not; an absent Origin header and an
   * undecodable body throw.
   */
  function GetWalletResponse(request: Request, authURL: string, decode: string -> Json<WalletResponse>)
    : (r: Result<Option<WalletResponse>, Fault>)
    ensures r.Failure? <==> request.origins.None? || (CheckOrigin(request.origins, authURL) == Success(true) && decode(request.body).Malformed?)
    ensures r.Success? && r.value.Some? <==> CheckOrigin(request.origins, authURL) == Success(true) && decode(request.body).Parsed?
    ensures r.Success? && r.value.Some? ==> decode(request.body) == Parsed(r.value.value)
  {
    match CheckOrigin(request.origins, authURL)
    case Failure(f) => Failure(f)
    case Success(valid) =>
      if !valid then Success(None)
      else match decode(request.body)
        case Parsed(w) => Success(Some(w))
        case JsonNull => Success(None)
        case Malformed => Failure(MalformedBody)
  }

  /**
   * How one request that is not a preflight ends the session (the part of
   * CaptureRequest after its OPTIONS test).
   */
  function Resolve(authURL: string, request: Request, decode: string -> Json<WalletResponse>): SessionEnd<WalletResponse>
    requires !IsPreflight(request)
  {
    if IsPost(request) then
      match GetWalletResponse(request, authURL, decode)
      case Failure(f) => SessionEnd(Faulted(f), [], 1, false)
      case Success(w) => SessionEnd(Returned(w), [Responded(PostResponse(authURL)), ListenerClosed], 1, true)
    else
      SessionEnd(Returned(None), [], 1, false)
  }

  /**
   * A POST is answered and closes the listener unless reading it throws;
   * a request of any other method returns null, is not answered, and
   * leaves the listener open. The session yields a payload exactly when the
   * request is a POST from `authURL` whose body decodes to it.
   */
  lemma ResolveCases(authURL: string, request: Request, decode: string -> Json<WalletResponse>)
    requires !IsPreflight(request)
    ensures var s := Resolve(authURL, request, decode);
      && s.consumed == 1 && !s.outcome.Pending?
      && (s.closed <==> IsPost(request) && s.outcome.Returned?)
      && (s.closed ==> s.events == [Responded(PostResponse(authURL)), ListenerClosed])
      && (!s.closed ==> s.events == [])
      && (s.outcome.Faulted? <==> IsPost(request) && GetWalletResponse(request, authURL, decode).Failure?)
      && (!IsPost(request) ==> s.outcome == Returned(None))
      && (s.outcome.Returned? && s.outcome.result.Some? <==>
            IsPost(request) && CheckOrigin(request.origins, authURL) == Success(true) && decode(request.body).Parsed?)
      && (s.outcome.Returned? && s.outcome.result.Some? ==> decode(request.body) == Parsed(s.outcome.result.value))
  {
  }

  /** The events of `n` answered preflights. */
  function Preflights(authURL: string, n: nat): seq<Event> {
    seq(n, _ => Responded(PreflightResponse(authURL)))
  }

  /** A session that first answered `n` preflights and then went on as `s`. */
  function AfterPreflights(authURL: string, n: nat, s: SessionEnd<WalletResponse>): SessionEnd<WalletResponse> {
    SessionEnd(s.outcome, Preflights(authURL, n) + s.events, s.consumed + n, s.closed)
  }

  /**
   * CaptureRequest over the requests that arrive, in order: every OPTIONS is
   * answered and the wait goes on; the first other request ends it. When
   * the requests run out first, the call is still pending.
   */
  function Capture(authURL: string, requests: seq<Request>, decode: string -> Json<WalletResponse>): SessionEnd<WalletResponse>
    decreases |requests|
  {
    if requests == [] then SessionEnd(Pending, [], 0, false)
    else if IsPreflight(requests[0]) then
      AfterPreflights(authURL, 1, Capture(authURL, requests[1..], decode))
    else
      Resolve(authURL, requests[0], decode)
  }

  /**
   * The shape of every session: it reads a run of preflights and at most
   * one more request; it is still pending exactly when every request was a
   * preflight; and it closes the listener only on a POST that returned.
   */
  lemma {:induction false} CaptureShape(authURL: string, requests: seq<Request>, decode: string -> Json<WalletResponse>)
    ensures var s := Capture(authURL, requests, decode);
      && s.consumed <= |requests|
      && (s.outcome.Pending? <==> forall i :: 0 <= i < |requests| ==> IsPreflight(requests[i]))
      && (s.outcome.Pending? ==> s.consumed == |requests| && !s.closed)
      && (forall i :: 0 <= i < s.consumed - 1 ==> IsPreflight(requests[i]))
      && (s.closed ==> 0 < s.consumed && IsPost(requests[s.consumed - 1]) && s.outcome.Returned?)
    decreases |requests|
  {
    if requests != [] {
      if IsPreflight(requests[0]) {
        CaptureShape(authURL, requests[1..], decode);
        var rest := requests[1..];
        forall i | 1 <= i < |requests|
          ensures requests[i] == rest[i - 1]
        {
        }
      } else {
        ResolveCases(authURL, requests[0], decode);
      }
    }
  }

  /** Preflights in front of a request sequence only add their answers: the session otherwise ends as without them. */
  lemma {:induction false} SkipPreflights(authURL: string, pre: seq<Request>, rest: seq<Request>, decode: string -> Json<WalletResponse>)
    requires forall i :: 0 <= i < |pre| ==> IsPreflight(pre[i])
    ensures Capture(authURL, pre + rest, decode) == AfterPreflights(authURL, |pre|, Capture(authURL, rest, decode))
    decreases |pre|
  {
    var s := Capture(authURL, rest, decode);
    if pre == [] {
      assert pre + rest == rest;
      assert Preflights(authURL, 0) + s.events == s.events;
    } else {
      var tail := pre[1..];
      assert (pre + rest)[1..] == tail + rest;
      SkipPreflights(authURL, tail, rest, decode);
      var p := Responded(PreflightResponse(authURL));
      assert [p] + (Preflights(authURL, |tail|) + s.events) == Preflights(authURL, |pre|) + s.events;
    }
  }

  /** A preflight followed by a POST ends the same way as the POST alone. */
  lemma PreflightThenPostEqualsPost(authURL: string, preflight: Request, post: Request, decode: string -> Json<WalletResponse>)
    requires IsPreflight(preflight) && IsPost(post)
    ensures Capture(authURL, [preflight, post], decode).outcome == Capture(authURL, [post], decode).outcome
    ensures Capture(authURL, [preflight, post], decode).closed == Capture(authURL, [post], decode).closed
    ensures Capture(authURL, [preflight, post], decode).events
         == [Responded(PreflightResponse(authURL))] + Capture(authURL, [post], decode).events
  {
    SkipPreflights(authURL, [preflight], [post], decode);
  }

  /**
   * The first request that is not a preflight decides the session: it is
   * the last one read, and the session ends as that request alone would.
   */
  lemma FirstNonPreflightDecides(authURL: string, pre: seq<Request>, request: Request, rest: seq<Request>, decode: string -> Json<WalletResponse>)
    requires forall i :: 0 <= i < |pre| ==> IsPreflight(pre[i])
    requires !IsPreflight(request)
    ensures Capture(authURL, pre + [request] + rest, decode) == AfterPreflights(authURL, |pre|, Resolve(authURL, request, decode))
    ensures Capture(authURL, pre + [request] + rest, decode).consumed == |pre| + 1
  {
    assert pre + [request] + rest == pre + ([request] + rest);
    SkipPreflights(authURL, pre, [request] + rest, decode);
  }

  /**
   * The session yields a payload exactly when the deciding request is a
   * POST whose first Origin value is `authURL` and whose body decodes to it.
   */
  lemma ResultIffOriginMatches(authURL: string, pre: seq<Request>, post: Request, rest: seq<Request>,
                               decode: string -> Json<WalletResponse>, w: WalletResponse)
    requires forall i :: 0 <= i < |pre| ==> IsPreflight(pre[i])
    requires IsPost(post)
    ensures Capture(authURL, pre + [post] + rest, decode).outcome == Returned(Some(w)) <==>
      post.origins.Some? && |post.origins.value| > 0 && post.origins.value[0] == authURL && decode(post.body) == Parsed(w)
  {
    FirstNonPreflightDecides(authURL, pre, post, rest, decode);
  }

  /** A POST from another origin is still answered and still closes the listener, but yields null. */
  lemma WrongOriginYieldsNull(authURL: string, post: Request, rest: seq<Request>, decode: string -> Json<WalletResponse>)
    requires IsPost(post)
    requires post.origins.Some? && (post.origins.value == [] || post.origins.value[0] != authURL)
    ensures var s := Capture(authURL, [post] + rest, decode);
      s.outcome == Returned(None) && s.closed && s.events == [Responded(PostResponse(authURL)), ListenerClosed]
  {
  }

  /** Once the session has ended, requests arriving afterwards are never read. */
  lemma {:induction false} LaterRequestsIgnored(authURL: string, requests: seq<Request>, more: seq<Request>, decode: string -> Json<WalletResponse>)
    requires !Capture(authURL, requests, decode).outcome.Pending?
    ensures Capture(authURL, requests + more, decode) == Capture(authURL, requests, decode)
    decreases |requests|
  {
    assert requests != [];
    if IsPreflight(requests[0]) {
      assert (requests + more)[1..] == requests[1..] + more;
      LaterRequestsIgnored(authURL, requests[1..], more, decode);
    }
  }

  /** The event is not a response, or it is a 200 that allows `authURL`. */
  predicate AllowsAuthOrigin(e: Event, authURL: string) {
    e.Responded? ==> e.response.status == StatusOK && HeaderValue(e.response.headers, AllowOriginHeader) == Some(authURL)
  }

  /** Every response the session sends, preflight or POST acknowledgement, is a 200 that allows `authURL`. */
  lemma {:induction false} ResponsesAllowAuthOrigin(authURL: string, requests: seq<Request>, decode: string -> Json<WalletResponse>)
    ensures forall e :: e in Capture(authURL, requests, decode).events ==> AllowsAuthOrigin(e, authURL)
    decreases |requests|
  {
    if requests == [] {
    } else if IsPreflight(requests[0]) {
      ResponsesAllowAuthOrigin(authURL, requests[1..], decode);
      var rest := Capture(authURL, requests[1..], decode);
      assert AllowsAuthOrigin(Responded(PreflightResponse(authURL)), authURL) by {
        PreflightResponseIsCors(authURL);
      }
      assert Capture(authURL, requests, decode).events == [Responded(PreflightResponse(authURL))] + rest.events;
    } else {
      assert AllowsAuthOrigin(Responded(PostResponse(authURL)), authURL) by {
        PostResponseIsCors(authURL);
      }
      var s := Resolve(authURL, requests[0], decode);
      assert s.events == [] || s.events == [Responded(PostResponse(authURL)), ListenerClosed];
    }
  }

  /** ListenerClosed occurs in the events only as their last one, and only in a session that closed. */
  predicate ClosesLast<T>(s: SessionEnd<T>) {
    forall i :: 0 <= i < |s.events| && s.events[i].ListenerClosed? ==> s.closed && i == |s.events| - 1
  }

  /** The listener is closed only as the very last thing the session does. */
  lemma {:induction false} CloseIsLast(authURL: string, requests: seq<Request>, decode: string -> Json<WalletResponse>)
    ensures ClosesLast(Capture(authURL, requests, decode))
    decreases |requests|
  {
    if requests != [] && IsPreflight(requests[0]) {
      CloseIsLast(authURL, requests[1..], decode);
      var rest := Capture(authURL, requests[1..], decode);
      var s := Capture(authURL, requests, decode);
      assert s.events == [Responded(PreflightResponse(authURL))] + rest.events && s.closed == rest.closed;
      forall i | 0 <= i < |s.events| && s.events[i].ListenerClosed?
        ensures s.closed && i == |s.events| - 1
      {
        assert i != 0;
        assert s.events[i] == rest.events[i - 1];
      }
    } else if requests != [] {
      var s := Resolve(authURL, requests[0], decode);
      assert s.events == [] || (s.closed && s.events == [Responded(PostResponse(authURL)), ListenerClosed]);
    }
  }

  /** The `portHandler` argument: null, a handler that returns, or one that throws. */
  datatype PortHandler = NoHandler | HandlerReturns | HandlerThrows

  /**
   * The listener of one WalletAuthenticator. `isListening` is true while a
   * listener it started has not been closed; `log` records what the outside
   * world observes.
   */
  class WalletAuthenticator {
    const authURL: string
    var isListening: bool
    ghost var listenerOpen: bool
    ghost var log: seq<Event>

    /**
     * A set `isListening` always has an open listener behind it. The
     * converse fails only after a port handler threw: the listener was
     * started but the flag was never set.
     */
    ghost predicate Valid()
      reads this
    {
      isListening ==> listenerOpen
    }

    constructor(authURL: string)
      ensures Valid() && this.authURL == authURL
      ensures !isListening && !listenerOpen && log == []
    {
      this.authURL := authURL;
      isListening := false;
      listenerOpen := false;
      log := [];
    }

    /**
     * ListenForWalletResponse. While already listening it returns null and
     * changes nothing. Otherwise it binds a listener to `port` (`bindOk`
     * says whether that succeeds), invokes the port handler when there is
     * one, sets `isListening`, and captures the requests that arrive. A
     * handler that throws leaves the listener started and the flag unset.
     */
    method ListenForWalletResponse(port: nat, bindOk: bool, handler: PortHandler,
                                   requests: seq<Request>, decode: string -> Json<WalletResponse>)
      returns (result: Outcome<WalletResponse>)
      requires Valid()
      modifies this
      ensures Valid()
      ensures old(isListening) ==> result == Returned(None) && unchanged(this)
      ensures !old(isListening) && !bindOk ==> result == Faulted(BindFailure) && unchanged(this)
      ensures !old(isListening) && bindOk && handler == HandlerThrows ==>
        && result == Faulted(HandlerFault)
        && !isListening && listenerOpen
        && log == old(log) + [ListenerStarted(ListenerPrefix(port)), PortAnnounced(NatToDecimal(port))]
      ensures !old(isListening) && bindOk && handler != HandlerThrows ==>
        var s := Capture(authURL, requests, decode);
        && result == s.outcome
        && isListening == !s.closed && listenerOpen == !s.closed
        && log == old(log) + [ListenerStarted(ListenerPrefix(port))]
                           + (if handler == HandlerReturns then [PortAnnounced(NatToDecimal(port))] else [])
                           + s.events
    {
      if isListening {
        return Returned(None);
      }
      if !bindOk {
        return Faulted(BindFailure);
      }
      var portText := NatToDecimal(port);
      log := log + [ListenerStarted(ListenerPrefix(port))];
      listenerOpen := true;
      if handler != NoHandler {
        log := log + [PortAnnounced(portText)];
        if handler == HandlerThrows {
          return Faulted(HandlerFault);
        }
      }
      isListening := true;
      result := CaptureRequest(requests, decode);
    }

    /**
     * CaptureRequest, with its recursion on OPTIONS as a loop over the
     * requests that arrive. A POST that throws leaves the listener open and
     * `isListening` set; so does a request of any other method.
     */
    method CaptureRequest(requests: seq<Request>, decode: string -> Json<WalletResponse>)
      returns (wallet: Outcome<WalletResponse>)
      requires Valid() && isListening
      modifies this
      ensures Valid()
      ensures var s := Capture(authURL, requests, decode);
        && wallet == s.outcome && log == old(log) + s.events
        && isListening == !s.closed && listenerOpen == !s.closed
    {
      var i := 0;
      while i < |requests| && IsPreflight(requests[i])
        invariant 0 <= i <= |requests|
        invariant Valid() && isListening
        invariant forall j :: 0 <= j < i ==> IsPreflight(requests[j])
        invariant log == old(log) + Preflights(authURL, i)
        decreases |requests| - i
      {
        SendPreflightResponse();
        i := i + 1;
      }
      if i == |requests| {
        assert Capture(authURL, requests, decode) == AfterPreflights(authURL, i, SessionEnd(Pending, [], 0, false)) by {
          SkipPreflights(authURL, requests, [], decode);
          assert requests + [] == requests;
        }
        return Pending;
      }
      var request := requests[i];
      ghost var r := Resolve(authURL, request, decode);
      assert Capture(authURL, requests, decode) == AfterPreflights(authURL, i, r) by {
        FirstNonPreflightDecides(authURL, requests[..i], request, requests[i + 1..], decode);
        assert requests[..i] + [request] + requests[i + 1..] == requests;
      }
      if IsPost(request) {
        var response := GetWalletResponse(request, authURL, decode);
        if response.Failure? {
          return Faulted(response.error);
        }
        SendPostResponse();
        log := log + [ListenerClosed];
        listenerOpen := false;
        isListening := false;
        return Returned(response.value);
      }
      return Returned(None);
    }

    /** SendPostResponse: the POST acknowledgement is sent. */
    method SendPostResponse()
      modifies this`log
      ensures log == old(log) + [Responded(PostResponse(authURL))]
    {
      log := log + [Responded(PostResponse(authURL))];
    }

    /** SendPreflightResponse: the preflight answer is sent. */
    method SendPreflightResponse()
      modifies this`log
      ensures log == old(log) + [Responded(PreflightResponse(authURL))]
    {
      log := log + [Responded(PreflightResponse(authURL))];
    }
  }
}
