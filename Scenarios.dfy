/**
 * Client code in the shape of the listener's unit tests: what a caller
 * can conclude from the contracts alone.
 */
module Scenarios {
  import opened Wrappers
  import opened Http
  import opened Cors
  import opened Wallet
  import opened Authenticator
  import Legacy

  const TestAuthURL := "https://www.Test.com"
  const InvalidOriginURL := "https://www.invalid.com"

  /** The UTF-8 bytes of "Test1234". */
  const TestKey: seq<byte> := [84, 101, 115, 116, 49, 50, 51, 52]
  const TestWallet := WalletResponse(TestKey, [], [])
  const TestBody := "{\"PublicKey\":\"VGVzdDEyMzQ=\",\"MsgSig\":\"\",\"Message\":\"\"}"

  /** A deserializer that knows the one body the tests post. */
  function TestDecode(body: string): Json<WalletResponse> {
    if body == TestBody then Parsed(TestWallet) else Malformed
  }

  /** A POST from the expected origin yields the posted wallet and ends the session. */
  method SuccessfulResponse(port: nat) {
    var subject := new WalletAuthenticator(TestAuthURL);
    var post := Request(PostMethod, Some([TestAuthURL]), TestBody);
    var wallet := subject.ListenForWalletResponse(port, true, HandlerReturns, [post], TestDecode);
    assert wallet == Returned(Some(TestWallet));
    assert wallet.result.value.publicKey == TestKey;
    assert !subject.isListening;
  }

  /** A preflight and then the POST: both answered, same wallet. */
  method PreflightThenPost(port: nat) {
    var subject := new WalletAuthenticator(TestAuthURL);
    var preflight := Request(OptionsMethod, None, "");
    var post := Request(PostMethod, Some([TestAuthURL]), TestBody);
    var wallet := subject.ListenForWalletResponse(port, true, HandlerReturns, [preflight, post], TestDecode);
    assert Capture(TestAuthURL, [preflight, post], TestDecode).events
        == [Responded(PreflightResponse(TestAuthURL)), Responded(PostResponse(TestAuthURL)), ListenerClosed];
    assert wallet == Returned(Some(TestWallet));
    assert !subject.isListening;
  }

  /** A POST from another origin is acknowledged, closes the session, and yields null. */
  method InvalidOrigin(port: nat) {
    var subject := new WalletAuthenticator(TestAuthURL);
    var post := Request(PostMethod, Some([InvalidOriginURL]), TestBody);
    var wallet := subject.ListenForWalletResponse(port, true, HandlerReturns, [post], TestDecode);
    assert wallet == Returned(None);
    assert !subject.isListening;
  }

  /** The origin comparison is case-sensitive. */
  method OriginCaseMatters(port: nat) {
    var subject := new WalletAuthenticator(TestAuthURL);
    var post := Request(PostMethod, Some(["https://www.test.com"]), TestBody);
    var wallet := subject.ListenForWalletResponse(port, true, HandlerReturns, [post], TestDecode);
    assert "https://www.test.com"[12] != TestAuthURL[12];
    assert wallet == Returned(None);
  }

  /** A second start while the first is still waiting is refused and leaves the first untouched. */
  method SecondStartRefused(port: nat, otherPort: nat) {
    var subject := new WalletAuthenticator(TestAuthURL);
    var first := subject.ListenForWalletResponse(port, true, HandlerReturns, [], TestDecode);
    assert first == Pending && subject.isListening;
    var logBefore := subject.log;
    var second := subject.ListenForWalletResponse(otherPort, true, HandlerReturns, [], TestDecode);
    assert second == Returned(None) && subject.log == logBefore && subject.isListening;
  }

  /** A POST without an Origin header throws, and the authenticator then refuses every later start. */
  method MissingOriginSticks(port: nat) {
    var subject := new WalletAuthenticator(TestAuthURL);
    var post := Request(PostMethod, None, TestBody);
    var first := subject.ListenForWalletResponse(port, true, HandlerReturns, [post], TestDecode);
    assert first == Faulted(MissingOriginHeader);
    assert subject.isListening && subject.listenerOpen;
    var retry := Request(PostMethod, Some([TestAuthURL]), TestBody);
    var second := subject.ListenForWalletResponse(port, true, HandlerReturns, [retry], TestDecode);
    assert second == Returned(None);
  }

  /**
   * A port handler that throws escapes with the listener still open and the
   * flag unset, so the next call is not refused and starts a second listener.
   */
  method HandlerThrowLeavesListenerOpen(port: nat, otherPort: nat) {
    var subject := new WalletAuthenticator(TestAuthURL);
    var first := subject.ListenForWalletResponse(port, true, HandlerThrows, [], TestDecode);
    assert first == Faulted(HandlerFault);
    assert !subject.isListening && subject.listenerOpen;
    var post := Request(PostMethod, Some([TestAuthURL]), TestBody);
    var second := subject.ListenForWalletResponse(otherPort, true, HandlerReturns, [post], TestDecode);
    assert second == Returned(Some(TestWallet));
    assert subject.log[0] == ListenerStarted(ListenerPrefix(port)) && subject.log[2] == ListenerStarted(ListenerPrefix(otherPort));
  }

  /** The older component: a preflight alone ends the session with no key delivered. */
  method LegacyPreflightEndsSession() {
    var link := new Legacy.WalletLink();
    var preflight := Request(OptionsMethod, None, "");
    var post := Request(PostMethod, Some([Legacy.AuthURL]), "{\"publicKey\":\"Test1234\"}");
    link.StartListeningForWalletResponse(true, [preflight, post], _ => Parsed(Legacy.KeyRecord(Some("Test1234"))));
    assert !link.isListening;
    assert link.log == [BrowserOpened(Legacy.AuthURL), ListenerStarted(Legacy.FixedPrefix),
                        Responded(PreflightResponse(Legacy.AuthURL)), ListenerClosed];
  }

  /** The older component: a POST from the authenticator app delivers its key. */
  method LegacyKeyDelivered() {
    var link := new Legacy.WalletLink();
    var post := Request(PostMethod, Some([Legacy.AuthURL]), "{\"publicKey\":\"Test1234\"}");
    link.StartListeningForWalletResponse(true, [post], _ => Parsed(Legacy.KeyRecord(Some("Test1234"))));
    assert link.log == [BrowserOpened(Legacy.AuthURL), ListenerStarted(Legacy.FixedPrefix),
                        Responded(PostResponse(Legacy.AuthURL)), ListenerClosed, WalletReceived("Test1234")];
  }
}
