/**
 * The older WalletLink component: a listener on the fixed port 8080 that
 * handles exactly one request of any method and then always closes.
 */
module Legacy {
  import opened Wrappers
  import opened Http
  import opened Decimal
  import opened Cors
  import Authenticator
  import Wallet

  /** The authenticator app, which is also the origin the POST must come from. */
  const AuthURL := "https://auth.re-evolution.io"

  /** listenerIP + ":8080/" */
  const FixedPrefix := "http://127.0.0.1:8080/"

  /** The fixed prefix is the one the newer variant would build for port 8080. */
  lemma FixedPrefixIsPort8080()
    ensures FixedPrefix == ListenerPrefix(8080)
  {
    assert NatToDecimal(8) == "8";
    assert NatToDecimal(80) == "80";
    assert NatToDecimal(808) == "808";
    assert NatToDecimal(8080) == "8080";
  }

  /** The struct the body is deserialized into: a single, possibly null, publicKey. */
  datatype KeyRecord = KeyRecord(publicKey: Option<string>)

  /**
   * GetPublicKey: the posted publicKey when the first Origin value is
   * `authURL`, null otherwise; an absent Origin header and an undecodable
   * body throw. The body is deserialized into a struct, which cannot hold
   * a JSON null: such a body throws like any other the deserializer rejects.
   */
  function GetPublicKey(request: Request, authURL: string, decode: string -> Json<KeyRecord>): (r: Result<Option<string>, Fault>)
    ensures r.Failure? <==> request.origins.None? || (CheckOrigin(request.origins, authURL) == Success(true) && !decode(request.body).Parsed?)
    ensures r.Success? && r.value.Some? <==>
      CheckOrigin(request.origins, authURL) == Success(true) && decode(request.body).Parsed? && decode(request.body).value.publicKey.Some?
    ensures r.Success? && r.value.Some? ==> decode(request.body) == Parsed(KeyRecord(r.value))
  {
    match CheckOrigin(request.origins, authURL)
    case Failure(f) => Failure(f)
    case Success(valid) =>
      if !valid then Success(None)
      else match decode(request.body)
        case Parsed(wallet) => Success(wallet.publicKey)
        case JsonNull => Failure(MalformedBody)
        case Malformed => Failure(MalformedBody)
  }

  /**
   * What the single listen does with the requests that arrive: it reads the
   * first one only. OPTIONS is answered with a preflight and yields null; a
   * POST is answered and yields the key; any other method yields null
   * unanswered. The listener is then closed, unless reading the POST threw.
   */
  function HandleOnce(authURL: string, requests: seq<Request>, decode: string -> Json<KeyRecord>): SessionEnd<string> {
    if requests == [] then SessionEnd(Pending, [], 0, false)
    else
      var request := requests[0];
      if IsPreflight(request) then
        SessionEnd(Returned(None), [Responded(PreflightResponse(authURL)), ListenerClosed], 1, true)
      else if IsPost(request) then
        match GetPublicKey(request, authURL, decode)
        case Failure(f) => SessionEnd(Faulted(f), [], 1, false)
        case Success(key) => SessionEnd(Returned(key), [Responded(PostResponse(authURL)), ListenerClosed], 1, true)
      else
        SessionEnd(Returned(None), [ListenerClosed], 1, true)
  }

  /**
   * Exactly one request is read, whatever follows it; the listener is closed
   * whenever the call returns, and stays open only when an exception escapes.
   */
  lemma HandlesExactlyOne(authURL: string, requests: seq<Request>, decode: string -> Json<KeyRecord>)
    requires requests != []
    ensures var s := HandleOnce(authURL, requests, decode);
      && s == HandleOnce(authURL, requests[..1], decode)
      && s.consumed == 1
      && (s.closed <==> s.outcome.Returned?)
      && (s.closed ==> s.events[|s.events| - 1] == ListenerClosed)
      && !s.outcome.Pending?
  {
  }

  /** A key is obtained exactly from a POST whose first Origin value is `authURL` and whose body carries it. */
  lemma KeyIffOriginMatches(authURL: string, requests: seq<Request>, decode: string -> Json<KeyRecord>, key: string)
    requires requests != []
    ensures HandleOnce(authURL, requests, decode).outcome == Returned(Some(key)) <==>
      && IsPost(requests[0])
      && requests[0].origins.Some? && |requests[0].origins.value| > 0 && requests[0].origins.value[0] == authURL
      && decode(requests[0].body) == Parsed(KeyRecord(Some(key)))
  {
  }

  /** A preflight ends the session: it is answered, the listener is closed, and the result is null. */
  lemma PreflightEndsSession(authURL: string, requests: seq<Request>, decode: string -> Json<KeyRecord>)
    requires requests != [] && IsPreflight(requests[0])
    ensures HandleOnce(authURL, requests, decode)
         == SessionEnd(Returned(None), [Responded(PreflightResponse(authURL)), ListenerClosed], 1, true)
  {
  }

  /**
   * The two variants part ways on the usual browser exchange: after a
   * preflight the newer listener still accepts the POST, while this one has
   * already closed and returned null.
   */
  lemma VariantsDivergeAfterPreflight(authURL: string, preflight: Request, post: Request,
                                      decode: string -> Json<Wallet.WalletResponse>, decodeKey: string -> Json<KeyRecord>,
                                      w: Wallet.WalletResponse)
    requires IsPreflight(preflight) && IsPost(post)
    requires post.origins == Some([authURL]) && decode(post.body) == Parsed(w)
    ensures Authenticator.Capture(authURL, [preflight, post], decode).outcome == Returned(Some(w))
    ensures HandleOnce(authURL, [preflight, post], decodeKey).outcome == Returned(None)
  {
    Authenticator.PreflightThenPostEqualsPost(authURL, preflight, post, decode);
  }

  /**
   * The WalletLink component. `isListening` is set on entry to a listen and
   * cleared only when the listen returns.
   */
  class WalletLink {
    var isListening: bool
    ghost var listenerOpen: bool
    ghost var log: seq<Event>

    /** An open listener is always flagged; the flag can outlive the listener (after a failed bind). */
    ghost predicate Valid()
      reads this
    {
      listenerOpen ==> isListening
    }

    constructor()
      ensures Valid() && !isListening && !listenerOpen && log == []
    {
      isListening := false;
      listenerOpen := false;
      log := [];
    }

    /**
     * StartListeningForWalletResponse: opens the authenticator page
     * unconditionally, then listens only when not already listening, and
     * invokes onWalletReceived only with a non-null key.
     */
    method StartListeningForWalletResponse(bindOk: bool, requests: seq<Request>, decode: string -> Json<KeyRecord>)
      requires Valid()
      modifies this
      ensures Valid()
      ensures old(isListening) ==>
        isListening && listenerOpen == old(listenerOpen) && log == old(log) + [BrowserOpened(AuthURL)]
      ensures !old(isListening) && !bindOk ==>
        isListening && !listenerOpen && log == old(log) + [BrowserOpened(AuthURL)]
      ensures !old(isListening) && bindOk ==>
        var s := HandleOnce(AuthURL, requests, decode);
        && isListening == !s.closed && listenerOpen == !s.closed
        && log == old(log) + [BrowserOpened(AuthURL), ListenerStarted(FixedPrefix)] + s.events
                           + (if s.outcome.Returned? && s.outcome.result.Some? then [WalletReceived(s.outcome.result.value)] else [])
    {
      log := log + [BrowserOpened(AuthURL)];
      if !isListening {
        var publicKey := ListenForWalletResponse(bindOk, requests, decode);
        if publicKey.Returned? && publicKey.result.Some? {
          log := log + [WalletReceived(publicKey.result.value)];
        }
      }
    }

    /**
     * ListenForWalletResponse: sets `isListening`, binds port 8080 (`bindOk`
     * says whether that succeeds), handles one request, closes the listener
     * and clears `isListening`. An exception leaves `isListening` set.
     */
    method ListenForWalletResponse(bindOk: bool, requests: seq<Request>, decode: string -> Json<KeyRecord>)
      returns (publicKey: Outcome<string>)
      requires Valid() && !isListening
      modifies this
      ensures Valid()
      ensures !bindOk ==> publicKey == Faulted(BindFailure) && isListening && !listenerOpen && log == old(log)
      ensures bindOk ==>
        var s := HandleOnce(AuthURL, requests, decode);
        && publicKey == s.outcome
        && isListening == !s.closed && listenerOpen == !s.closed
        && log == old(log) + [ListenerStarted(FixedPrefix)] + s.events
    {
      isListening := true;
      if !bindOk {
        return Faulted(BindFailure);
      }
      log := log + [ListenerStarted(FixedPrefix)];
      listenerOpen := true;
      if requests == [] {
        return Pending;
      }
      var request := requests[0];
      publicKey := Returned(None);
      if IsPreflight(request) {
        SendPreflightResponse();
      } else if IsPost(request) {
        var key := GetPublicKey(request, AuthURL, decode);
        if key.Failure? {
          return Faulted(key.error);
        }
        publicKey := Returned(key.value);
        SendPostResponse();
      }
      log := log + [ListenerClosed];
      listenerOpen := false;
      isListening := false;
    }

    /** SendPostResponse: the POST acknowledgement is sent. */
    method SendPostResponse()
      modifies this`log
      ensures log == old(log) + [Responded(PostResponse(AuthURL))]
    {
      log := log + [Responded(PostResponse(AuthURL))];
    }

    /** SendPreflightResponse: the preflight answer is sent. */
    method SendPreflightResponse()
      modifies this`log
      ensures log == old(log) + [Responded(PreflightResponse(AuthURL))]
    {
      log := log + [Responded(PreflightResponse(AuthURL))];
    }
  }
}
