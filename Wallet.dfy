/** The payload the authenticator web app posts back: three opaque byte arrays. */
module Wallet {

  newtype byte = b: int | 0 <= b < 256

  /** WalletResponse as serialized to and from JSON (PublicKey, MsgSig, Message). */
  datatype WalletResponse = WalletResponse(publicKey: seq<byte>, msgSig: seq<byte>, message: seq<byte>)

  /** What Ed25519.Verify(signature, message, publicKey) does: decides, or throws ArgumentException on malformed input. */
  datatype Verdict = Checked(valid: bool) | ArgumentRejected

  /**
   * IsVerified: the Ed25519 verdict, with an ArgumentException caught and
   * read as "not verified". The signature scheme itself is a parameter.
   */
  function IsVerified(w: WalletResponse, verify: (seq<byte>, seq<byte>, seq<byte>) -> Verdict): (ok: bool)
    ensures ok <==> verify(w.msgSig, w.message, w.publicKey) == Checked(true)
    ensures verify(w.msgSig, w.message, w.publicKey) == ArgumentRejected ==> !ok
  {
    match verify(w.msgSig, w.message, w.publicKey)
    case Checked(valid) => valid
    case ArgumentRejected => false
  }
}
