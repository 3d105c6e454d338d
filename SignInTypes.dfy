/**
  Values shared by the Sign in with Apple bridge: bytes, the optional and
  result wrappers Swift provides natively, the bridge's own error enum with
  its descriptions, and the records that cross its boundary.
 */
module SignInTypes {

  /** Swift's `UInt8`. */
  type uint8 = x: int | 0 <= x < 0x100

  datatype Option<+T> = None | Some(value: T)

  /** Swift's `Result<Success, Failure>`. */
  datatype Result<+T, +E> = Success(value: T) | Failure(error: E)

  /** The private `SignInWithAppleError` enum. */
  datatype SignInWithAppleError = NoViewController | InvalidCredential | BadResponse | UnableToFindNonce

  /**
    Swift's `any Error` as the bridge sees it: either one of its own
    `SignInWithAppleError` cases, or an error raised by a framework it calls
    (AuthenticationServices, Firebase) that it only ever forwards unchanged.
   */
  datatype Error =
    | SignInWithApple(reason: SignInWithAppleError)
    | Foreign(domain: string, code: int)

  /** `LocalizedError.errorDescription`: every case has a non-empty description. */
  function ErrorDescription(e: SignInWithAppleError): (r: Option<string>)
    ensures r.Some? && |r.value| > 0
  {
    match e
    case NoViewController => Some("Could not find top view controller.")
    case InvalidCredential => Some("Invalid sign in credential.")
    case BadResponse => Some("Apple Sign In had a bad response.")
    case UnableToFindNonce => Some("Apple Sign In token expired.")
  }

  /** The four descriptions tell the four cases apart. */
  lemma DescriptionsDistinct(a: SignInWithAppleError, b: SignInWithAppleError)
    ensures ErrorDescription(a) == ErrorDescription(b) <==> a == b
  {
  }

  /** What the Apple flow hands back on success: the identity token and the RAW nonce. */
  datatype SignInWithAppleResult = SignInWithAppleResult(token: string, nonce: string)

  /** The application's identity record. A URL is kept as its string form. */
  datatype AuthDataModel = AuthDataModel(uid: string, email: string, fullName: string, photoURL: Option<string>)
}
