# Wallet link loopback listener, modelled in Dafny

Unity-Wallet-Link lets a game prove that its player owns a Solana wallet. It
opens a browser page, the authenticator web app, which has the wallet sign and
then POSTs the result back to a short-lived HTTP listener on the player's own
machine (`http://127.0.0.1:<port>/`). This project models that listener: the
protocol that decides, for each incoming request, which CORS response is sent,
whether the session resolves, and what the caller gets back.

Two variants of the listener share one abstract request and response model:

- `WalletAuthenticator` (module `Authenticator`) is the current design. It
  listens on a free port and refuses to start while already listening. It
  answers any number of `OPTIONS` preflights. The first `POST` resolves the
  session: the origin is checked, the body is decoded, the POST is
  acknowledged, the listener is closed and the flag is cleared. The result
  is the payload only when the first `Origin` value equals `authURL`.
- `WalletLink` (module `Legacy`) is the older component. It listens on the
  fixed port 8080, handles exactly one request of any method, and then always
  closes.

## How the model is built

- `Http` holds the request, response and event datatypes. A request has its
  method name, its `Origin` values and its body. `origins` is `None` when
  the header is absent, which is when `Headers.GetValues` returns null. A
  response has a status code and a list of headers.
- Each listener class keeps a ghost `log` of what the outside world sees.
  The events are: listener started on a prefix, port handed to the handler,
  response sent, listener closed, browser opened, wallet delivered. Each
  class also keeps a ghost `listenerOpen` flag beside the real `isListening`.
- The requests that reach the listener are a sequence parameter.
  `CaptureRequest` calls itself again after each `OPTIONS`; the model does the
  same with a loop over that sequence. If the sequence runs out before the
  session is decided, the outcome is `Pending`: the real task is still
  awaiting a request.
- Whether `HttpListener.Start` succeeds is a `bool` parameter.
- `JsonConvert.DeserializeObject` is a function parameter from body text to
  `Json<T>`: an object, a JSON null, or `Malformed` (the library throws).
  The newer variant deserializes into a class, so a JSON null gives a null
  wallet. The older one deserializes into a struct, which cannot be null,
  so there a JSON null throws like a malformed body.
- `GetFreeTcpPort` is replaced by an arbitrary `nat` port, and the
  `portHandler` argument by `PortHandler`: absent, returning, or throwing.
- `Outcome<T>` separates the three ways a call can end: a returned value
  (possibly null), an exception that escapes, or still pending.
- `Capture` (newer variant) and `HandleOnce` (older variant) are the
  specification functions. Each listening method's postcondition ties its
  result, its new flag and its new log to them. The lemmas state what those
  functions promise.
- The preflight answers with `Access-Control-Allow-Origin: <authURL>`,
  `Access-Control-Allow-Methods: POST` and `Access-Control-Max-Age: 120000`.
  These are the CORS response headers of the WHATWG Fetch Standard, section
  3.2.3 ("HTTP responses"). The model keeps the literal text `"120000"` and
  proves that it is the decimal text of the `preflightTimeout` constant. The
  source comment calls this value milliseconds; the Fetch Standard reads it
  as seconds.

## Where the code and the intended design differ

The model follows the code in each of these cases:

- A POST without an `Origin` header is not rejected. `GetValues` returns
  null and reading `.Length` throws, so the outcome is
  `Faulted(MissingOriginHeader)`. No acknowledgement is sent, the listener
  stays open and `isListening` stays set. From then on, every
  `ListenForWalletResponse` on that `WalletAuthenticator` returns null
  (`Scenarios.MissingOriginSticks`).
- A body the deserializer rejects throws in the same way
  (`Faulted(MalformedBody)`), with the same stuck state.
- A method other than `OPTIONS` or `POST` gets no response. The call returns
  null, but the listener stays open and `isListening` stays set. It is not
  refused with a 4xx status.
- In `WalletAuthenticator`, the port handler runs after `listener.Start()`
  and before `isListening` is set. A handler that throws escapes with
  `Faulted(HandlerFault)`: the listener stays open but the flag is unset, so
  the next call starts a second listener
  (`Scenarios.HandlerThrowLeavesListenerOpen`). That is why its invariant is
  only `isListening ==> listenerOpen`.
- In `WalletLink`, `isListening` is set before the listener is bound. A bind
  failure on port 8080 therefore leaves the flag set for good, and later
  starts only open the browser. That is why its invariant is only
  `listenerOpen ==> isListening`.
- `WalletLink` closes after a preflight and returns null. A browser that sends
  a preflight before its POST never delivers a key to it
  (`Legacy.VariantsDivergeAfterPreflight`).

## Model

| member | source | states |
|---|---|---|
| `Decimal.NatToDecimal` | Runtime/WalletLink/WalletAuthenticator.cs:70 | the text of a port or constant is non-empty, all digits, and starts with '0' exactly when the number is 0 (no leading zeros) |
| `Decimal.DecimalRoundTrip` | Runtime/WalletLink/WalletAuthenticator.cs:70 | reading the decimal text back gives the original number |
| `Decimal.NatToDecimalInjective` | Runtime/WalletLink/WalletAuthenticator.cs:70 | different ports are announced with different texts |
| `Cors.MaxAgeText` | Runtime/WalletLink/WalletAuthenticator.cs:188-191 | `preflightTimeout.ToString()` is exactly "120000", the Max-Age value sent |
| `Cors.ListenerPrefix` | Runtime/WalletLink/WalletAuthenticator.cs:73-75 | the prefix is `http://127.0.0.1:` then the port text then `/`, and the port can be read back from it |
| `Cors.CheckOrigin` | Runtime/WalletLink/WalletAuthenticator.cs:142-145 | an absent Origin header throws; otherwise the check passes iff there is a first value and it equals `authURL` exactly |
| `Cors.OnlyFirstOriginCounts` | Runtime/WalletLink/WalletAuthenticator.cs:145 | only the first Origin value decides; a matching later value does not rescue a mismatching first one |
| `Cors.PreflightResponseIsCors` | Runtime/WalletLink/WalletAuthenticator.cs:179-193 | the preflight answer is 200 with Allow-Origin = authURL, Allow-Methods = POST, Max-Age = 120000 and no other header |
| `Cors.PostResponseIsCors` | Runtime/WalletLink/WalletAuthenticator.cs:162-168 | the POST acknowledgement is 200 with Allow-Origin = authURL and no other header |
| `Cors.PostResponseGrantsNoMethods` | Runtime/WalletLink/WalletAuthenticator.cs:162-168 | the POST acknowledgement carries neither Allow-Methods nor Max-Age |
| `Wallet.IsVerified` | Runtime/WalletLink/WalletResponse.cs:23-30 | a response is verified iff the verifier accepts its signature; a verifier that throws ArgumentException makes it unverified, never verified |
| `Authenticator.GetWalletResponse` | Runtime/WalletLink/WalletAuthenticator.cs:141-155 | it throws iff the Origin header is absent, or the origin matches and the body does not decode; it yields a payload iff the first origin is authURL and the body decodes, and then the payload is the decoded body |
| `Authenticator.ResolveCases` | Runtime/WalletLink/WalletAuthenticator.cs:117-130 | a non-preflight request reads one request and decides the session; it closes iff it is a POST that returned, and then sends exactly the acknowledgement and the close; any other method returns null with no response |
| `Authenticator.CaptureShape` | Runtime/WalletLink/WalletAuthenticator.cs:103-131 | a session reads a run of preflights and at most one more request; it is pending iff every request so far was a preflight; it closes only on a POST that returned |
| `Authenticator.SkipPreflights` | Runtime/WalletLink/WalletAuthenticator.cs:114-116 | preflights in front of any request sequence only add their answers; outcome, closing and the rest of the trace are unchanged |
| `Authenticator.PreflightThenPostEqualsPost` | Tests/Editor/WalletListenerTests.cs:61-78 | a preflight then a POST yields the same result and closing as the POST alone, with one preflight answer in front |
| `Authenticator.FirstNonPreflightDecides` | Runtime/WalletLink/WalletAuthenticator.cs:114-130 | after any preflights, the first other request decides the session exactly as it would alone, and nothing after it is read |
| `Authenticator.ResultIffOriginMatches` | Runtime/WalletLink/WalletAuthenticator.cs:142-148 | after any preflights, a POST yields payload w iff its first Origin value equals authURL and its body decodes to w |
| `Authenticator.WrongOriginYieldsNull` | Tests/Editor/WalletListenerTests.cs:85-96 | a POST from another origin is still acknowledged and still closes the listener, and the result is null |
| `Authenticator.LaterRequestsIgnored` | Runtime/WalletLink/WalletAuthenticator.cs:117-127 | once a session is decided, further requests change nothing: only one POST is ever processed |
| `Authenticator.ResponsesAllowAuthOrigin` | Runtime/WalletLink/WalletAuthenticator.cs:162-193 | every response a session sends is a 200 carrying Allow-Origin = authURL |
| `Authenticator.CloseIsLast` | Runtime/WalletLink/WalletAuthenticator.cs:122-124 | the listener is closed only as the last event of a session that closed |
| `Authenticator.WalletAuthenticator.constructor` | Runtime/WalletLink/WalletAuthenticator.cs:49-52 | a new authenticator keeps authURL and is not listening |
| `Authenticator.WalletAuthenticator.ListenForWalletResponse` | Runtime/WalletLink/WalletAuthenticator.cs:65-88 | while listening: returns null, changes nothing; bind failure: throws, changes nothing; a throwing port handler: throws after the start and the handler call, leaving the listener open and isListening unset; else logs listener start then port handler, then the session's events; result, new flag and listener state are those of the session |
| `Authenticator.WalletAuthenticator.CaptureRequest` | Runtime/WalletLink/WalletAuthenticator.cs:103-131 | the loop answers preflights until another request arrives; result, log and isListening equal the `Capture` session's; isListening and the listener are cleared together, exactly when the session closes |
| `Authenticator.WalletAuthenticator.SendPostResponse` | Runtime/WalletLink/WalletAuthenticator.cs:162-172 | sends the POST acknowledgement and nothing else |
| `Authenticator.WalletAuthenticator.SendPreflightResponse` | Runtime/WalletLink/WalletAuthenticator.cs:179-197 | sends the preflight answer and nothing else |
| `Legacy.FixedPrefixIsPort8080` | Runtime/WalletLink/WalletLink.cs:87 | the fixed prefix `http://127.0.0.1:8080/` is the prefix the newer variant builds for port 8080 |
| `Legacy.GetPublicKey` | Runtime/WalletLink/WalletLink.cs:123-143 | throws iff the Origin header is absent, or the origin matches and the body does not deserialize into the struct (a JSON null included); yields a key iff the first origin is authURL and the decoded struct has a key, and that key is the decoded one |
| `Legacy.HandlesExactlyOne` | Runtime/WalletLink/WalletLink.cs:95-113 | exactly the first request is read; the listener is closed, last, whenever the call returns, and stays open only when an exception escapes |
| `Legacy.KeyIffOriginMatches` | Runtime/WalletLink/WalletLink.cs:101-106 | a key is obtained iff the request is a POST whose first Origin value is authURL and whose body carries that key |
| `Legacy.PreflightEndsSession` | Runtime/WalletLink/WalletLink.cs:101-102 | an OPTIONS request is answered with the preflight, the listener is closed and the result is null |
| `Legacy.VariantsDivergeAfterPreflight` | Runtime/WalletLink/WalletLink.cs:95-113 | for a preflight followed by a valid POST, the newer variant yields the wallet while this one yields null |
| `Legacy.WalletLink.constructor` | Runtime/WalletLink/WalletLink.cs:55 | a new component is not listening |
| `Legacy.WalletLink.StartListeningForWalletResponse` | Runtime/WalletLink/WalletLink.cs:61-72 | the browser is opened first, always; the listen happens only when not already listening, and then the flag and the listener are both cleared exactly when the session closes; onWalletReceived fires only with a non-null key |
| `Legacy.WalletLink.ListenForWalletResponse` | Runtime/WalletLink/WalletLink.cs:82-114 | called only when not listening; sets isListening on entry; a bind failure leaves it set with no listener open; otherwise logs the start on the fixed prefix and then the one-request session; isListening is cleared exactly when the listener is closed |
| `Legacy.WalletLink.SendPostResponse` | Runtime/WalletLink/WalletLink.cs:150-157 | sends the POST acknowledgement and nothing else |
| `Legacy.WalletLink.SendPreflightResponse` | Runtime/WalletLink/WalletLink.cs:164-179 | sends the preflight answer and nothing else |

`Scenarios` holds client methods shaped like the unit tests in
Tests/Editor/WalletListenerTests.cs, plus a few more. They cover a
successful POST, a preflight then a POST, a wrong origin, a case-changed
origin, a second start refused, a stuck authenticator after a missing Origin
header, a throwing port handler, and both outcomes of the older component. Each one is proved from
the contracts alone.

## Left out

- Sockets, `HttpListener` and `TcpListener`: binding, `GetContextAsync`,
  reading the request stream and `response.Close()` are I/O. The model has a
  request sequence and an event log instead. `GetFreeTcpPort` is an arbitrary
  port, and the race between releasing the port and binding it appears only
  as the `bindOk` parameter.
- `async`/`await` and concurrency: the model is sequential. The port handler
  runs before `isListening` is set. A handler that itself called
  `ListenForWalletResponse` would therefore not be refused; the model treats
  the handler as one logged event that returns or throws, and cannot show
  this.
- Authenticator.WalletAuthenticator.ListenForWalletResponse: the ghost
  `listenerOpen` tracks only the most recently started listener. A listener
  abandoned by a throwing port handler stays open in the source after a later
  call starts another; the log shows it (a start with no close), the flag
  does not.
- `JsonConvert`: the deserializer is a parameter. Its exceptions are not
  caught in the source, and the model keeps them as `Faulted(MalformedBody)`.
- The `activeListener == null` guard in `CaptureRequest`
  (WalletAuthenticator.cs:104-107) is not modelled. Its only caller always
  passes the listener it has just started.
- Logging (`useLogging`, `Debug.Log`) has no effect on behaviour.
- Ed25519 verification and the Base58 `PublicKeyBase58` encoding belong to
  libraries that are not part of this model. `IsVerified` takes the
  verifier as a parameter.
- `onWalletReceived?.Invoke` in `WalletLink` is logged as `WalletReceived`
  even when no listener is subscribed, because UnityEvent dispatch is not
  part of this model.
- Runtime/WalletLink/Components/WalletLink.cs (Unity glue that opens
  `authURL?port=<port>`) and Editor/WalletLink/WalletLinkEditor.cs (an
  inspector button) are not part of this model.
