/**
  `AppleSignInHelper`: the object that starts an authorization request with a
  hashed nonce, keeps the raw nonce and the caller's completion in two
  optional fields, and answers the two delegate callbacks by calling that
  completion; and `startSignWithAppleFlow`, which turns the completion's
  result into an `AuthDataModel` through the Firebase credential exchange.

  The frameworks are inputs: whether a top view controller exists, what the
  random source yields, the SHA-256 function, the credential and error the
  delegate receives, the UTF-8 decoding of the identity token, and the
  Firebase sign-in reply. Completions are closures the bridge only calls, so
  they are modelled by identity and every call is recorded in a ghost log.
 */
module AppleSignIn {
  import opened SignInTypes
  import opened NonceGenerator
  import opened DigestHex
  import Utf8

  /** A completion closure, known by its identity. */
  datatype Completion = Completion(id: nat)

  /** One call of a completion closure, with the result passed to it. */
  datatype Delivery = Delivery(to: Completion, result: Result<SignInWithAppleResult, Error>)

  /** The results `log` passed to completion `c`, in order. */
  function DeliveredTo(log: seq<Delivery>, c: Completion): seq<Result<SignInWithAppleResult, Error>>
  {
    if log == [] then [] else (if log[0].to == c then [log[0].result] else []) + DeliveredTo(log[1..], c)
  }

  /** One more call adds one result for its own completion and none for any other. */
  lemma {:induction false} DeliveredToAppend(log: seq<Delivery>, d: Delivery, c: Completion)
    ensures DeliveredTo(log + [d], c) == DeliveredTo(log, c) + (if d.to == c then [d.result] else [])
  {
    if log == [] {
      assert [d][1..] == [];
    } else {
      assert (log + [d])[1..] == log[1..] + [d];
      DeliveredToAppend(log[1..], d, c);
    }
  }

  /** `ASAuthorization.Scope`. */
  datatype Scope = FullName | Email

  /** The `ASAuthorizationAppleIDRequest` handed to `performRequests`. */
  datatype AuthorizationRequest = AuthorizationRequest(requestedScopes: seq<Scope>, nonce: string)

  /** `authorization.credential`: an Apple ID credential, whose identity token may be missing, or any other kind. */
  datatype Credential = AppleIDCredential(identityToken: Option<seq<uint8>>) | OtherCredential

  /** What `startSignInWithAppleFlow` did. */
  datatype StartOutcome =
    | NoTopViewController                      // returned after calling the completion
    | Performed(request: AuthorizationRequest) // the request went to the authorization controller
    | Crashed(status: int)                     // `fatalError` inside `randomNonceString`

  /**
    The guard of the success callback: an Apple ID credential, with an
    identity token, that decodes as UTF-8, and a stored nonce. The result
    carries the RAW nonce; any failed condition gives `invalidCredential`.
   */
  function AuthorizationResult(credential: Credential, decodeUtf8: seq<uint8> -> Option<string>, nonce: Option<string>)
    : (r: Result<SignInWithAppleResult, Error>)
    ensures r.Success? <==>
              && credential.AppleIDCredential?
              && credential.identityToken.Some?
              && decodeUtf8(credential.identityToken.value).Some?
              && nonce.Some?
    ensures r.Success? ==> r.value == SignInWithAppleResult(decodeUtf8(credential.identityToken.value).value, nonce.value)
    ensures r.Failure? ==> r.error == SignInWithApple(InvalidCredential)
  {
    if credential.OtherCredential? || credential.identityToken.None? then
      Failure(SignInWithApple(InvalidCredential))
    else
      match (decodeUtf8(credential.identityToken.value), nonce)
      case (Some(token), Some(n)) => Success(SignInWithAppleResult(token, n))
      case _ => Failure(SignInWithApple(InvalidCredential))
  }

  /** The platform event that ends the authorization UI: one of the two delegate callbacks. */
  datatype AuthorizationEvent = Authorized(credential: Credential) | Errored(error: Error)

  /** `OAuthProvider.credential(withProviderID:idToken:rawNonce:)`. */
  datatype OAuthCredential = OAuthCredential(providerID: string, idToken: string, rawNonce: string)

  /** The Firebase user record: only the uid is guaranteed. */
  datatype FirebaseUser = FirebaseUser(uid: string, email: Option<string>, displayName: Option<string>, photoURL: Option<string>)

  /**
    What `Auth.auth().signIn(with:)` answers. Its callback may in principle get
    neither an error nor a result, in which case the continuation is never
    resumed; that case is not modelled.
   */
  datatype AuthReply = Rejected(error: Error) | SignedIn(user: FirebaseUser)

  /** What `startSignWithAppleFlow` ends with: a value, a thrown error, or the process stopped by `fatalError`. */
  datatype FlowOutcome = Returned(model: AuthDataModel) | Threw(error: Error) | Aborted(status: int)

  /** The credential exchanged with Firebase: provider "apple.com", the identity token and the RAW nonce. */
  function AppleCredential(result: SignInWithAppleResult): (c: OAuthCredential)
    ensures c.providerID == "apple.com" && c.idToken == result.token && c.rawNonce == result.nonce
  {
    OAuthCredential("apple.com", result.token, result.nonce)
  }

  /** `AuthDataModel` from a Firebase user: a missing email or display name becomes "", never an error. */
  function AuthDataModelOf(user: FirebaseUser): (m: AuthDataModel)
    ensures m.uid == user.uid && m.photoURL == user.photoURL
    ensures user.email.Some? ==> m.email == user.email.value
    ensures user.email.None? ==> m.email == ""
    ensures user.displayName.Some? ==> m.fullName == user.displayName.value
    ensures user.displayName.None? ==> m.fullName == ""
  {
    AuthDataModel(user.uid,
                  match user.email case Some(e) => e case None => "",
                  match user.displayName case Some(n) => n case None => "",
                  user.photoURL)
  }

  /** A Firebase error is rethrown unchanged; a user is returned as an `AuthDataModel`. */
  function ReplyOutcome(reply: AuthReply): (r: FlowOutcome)
    ensures reply.Rejected? <==> r.Threw?
    ensures reply.Rejected? ==> r.error == reply.error
    ensures reply.SignedIn? ==> r == Returned(AuthDataModelOf(reply.user))
  {
    match reply
    case Rejected(e) => Threw(e)
    case SignedIn(user) => Returned(AuthDataModelOf(user))
  }

  /** The result the Apple flow delivers, given the view-controller lookup, the nonce it mints and the platform event. */
  function AppleFlowResult(topViewController: bool, nonce: string, event: AuthorizationEvent,
                           decodeUtf8: seq<uint8> -> Option<string>): (r: Result<SignInWithAppleResult, Error>)
    ensures !topViewController ==> r == Failure(SignInWithApple(NoViewController))
    ensures topViewController && event.Errored? ==> r == Failure(event.error)
    ensures topViewController && event.Authorized? ==> r == AuthorizationResult(event.credential, decodeUtf8, Some(nonce))
    ensures r.Success? ==> r.value.nonce == nonce
  {
    if !topViewController then Failure(SignInWithApple(NoViewController))
    else match event
      case Errored(e) => Failure(e)
      case Authorized(credential) => AuthorizationResult(credential, decodeUtf8, Some(nonce))
  }

  /**
    The nonce's characters are ASCII, so the bytes `sha256` hashes are the
    nonce's character codes, one per character.
   */
  lemma NonceUtf8(bytes: seq<uint8>)
    ensures |Utf8.Encode(NonceOf(bytes))| == |bytes|
    ensures forall i :: 0 <= i < |bytes| ==> Utf8.Encode(NonceOf(bytes))[i] == NonceOf(bytes)[i] as int < 0x80
  {
    var n := NonceOf(bytes);
    forall i | 0 <= i < |n| ensures n[i] as int < 0x80 {
      PositionFinds(n[i]);
      CharsetAscii();
    }
    Utf8.EncodeAscii(n);
  }

  class AppleSignInHelper {
    var currentNonce: Option<string>
    var completionHandler: Option<Completion>
    /** Every call of a completion made by this object. */
    ghost var deliveries: seq<Delivery>

    constructor ()
      ensures currentNonce == None && completionHandler == None && deliveries == []
    {
      currentNonce := None;
      completionHandler := None;
      deliveries := [];
    }

    /**
      `startSignInWithAppleFlow(completion:)`. Without a top view controller the
      completion is called at once with `noViewController` and nothing else
      happens. Otherwise a fresh nonce overwrites `currentNonce`, the completion
      overwrites `completionHandler` (there is no check for a session already in
      progress), and the request carries the SHA-256 hex of the nonce and the
      scopes full name and email.
     */
    method StartSignInWithAppleFlow(completion: Completion, topViewController: bool, rng: SecRandomCopy,
                                    hash: seq<uint8> -> Digest)
      returns (outcome: StartOutcome, delivered: Option<Delivery>)
      requires |rng.bytes| >= DefaultNonceLength
      modifies this
      ensures !topViewController ==>
                && outcome == NoTopViewController
                && delivered == Some(Delivery(completion, Failure(SignInWithApple(NoViewController))))
      ensures topViewController && rng.status != ErrSecSuccess ==> outcome == Crashed(rng.status) && delivered == None
      ensures !outcome.Performed? ==>
                && currentNonce == old(currentNonce) && completionHandler == old(completionHandler)
      ensures topViewController && rng.status == ErrSecSuccess ==>
                var nonce := NonceOf(rng.bytes[..DefaultNonceLength]);
                && outcome == Performed(AuthorizationRequest([FullName, Email], Sha256(nonce, hash)))
                && currentNonce == Some(nonce)
                && completionHandler == Some(completion)
                && delivered == None
      ensures deliveries == old(deliveries) + (if delivered.Some? then [delivered.value] else [])
    {
      if !topViewController {
        delivered := Some(Delivery(completion, Failure(SignInWithApple(NoViewController))));
        deliveries := deliveries + [delivered.value];
        return NoTopViewController, delivered;
      }
      delivered := None;
      var generated := RandomNonceString(DefaultNonceLength, rng);
      if generated.FatalError? {
        return Crashed(generated.status), delivered;
      }
      var nonce := generated.nonce;
      currentNonce := Some(nonce);
      completionHandler := Some(completion);
      var request := AuthorizationRequest([FullName, Email], Sha256(nonce, hash));
      outcome := Performed(request);
    }

    /**
      `authorizationController(controller:didCompleteWithAuthorization:)`: call
      the stored completion, if any, with the guarded result. Neither field changes.
     */
    method DidCompleteWithAuthorization(credential: Credential, decodeUtf8: seq<uint8> -> Option<string>)
      returns (delivered: Option<Delivery>)
      modifies this`deliveries
      ensures completionHandler.None? ==> delivered == None
      ensures completionHandler.Some? ==>
                delivered == Some(Delivery(completionHandler.value, AuthorizationResult(credential, decodeUtf8, currentNonce)))
      ensures deliveries == old(deliveries) + (if delivered.Some? then [delivered.value] else [])
    {
      var result := AuthorizationResult(credential, decodeUtf8, currentNonce);
      delivered := None;
      if completionHandler.Some? {
        delivered := Some(Delivery(completionHandler.value, result));
        deliveries := deliveries + [delivered.value];
      }
    }

    /**
      `authorizationController(controller:didCompleteWithError:)`: forward the
      platform's error unchanged to the stored completion, if any. Neither field changes.
     */
    method DidCompleteWithError(error: Error) returns (delivered: Option<Delivery>)
      modifies this`deliveries
      ensures completionHandler.None? ==> delivered == None
      ensures completionHandler.Some? ==> delivered == Some(Delivery(completionHandler.value, Failure(error)))
      ensures deliveries == old(deliveries) + (if delivered.Some? then [delivered.value] else [])
    {
      delivered := None;
      if completionHandler.Some? {
        delivered := Some(Delivery(completionHandler.value, Failure(error)));
        deliveries := deliveries + [delivered.value];
      }
    }

    /**
      `startSignWithAppleFlow()`, with the continuation as plain sequential
      code: start the Apple flow with a fresh completion, let the platform
      event reach its delegate callback, then act on what the completion
      received. A failure is rethrown and Firebase is never asked; a success is
      exchanged for a Firebase user, whose error is rethrown or whose record is
      returned as an `AuthDataModel`. The completion is called exactly once.
     */
    method StartSignWithAppleFlow(continuation: Completion, topViewController: bool, rng: SecRandomCopy,
                                  hash: seq<uint8> -> Digest, event: AuthorizationEvent,
                                  decodeUtf8: seq<uint8> -> Option<string>, signIn: OAuthCredential -> AuthReply)
      returns (r: FlowOutcome, exchanged: Option<OAuthCredential>)
      requires |rng.bytes| >= DefaultNonceLength
      requires DeliveredTo(deliveries, continuation) == []
      modifies this
      ensures r.Aborted? <==> topViewController && rng.status != ErrSecSuccess
      ensures r.Aborted? ==> r.status == rng.status && exchanged == None
      ensures deliveries == old(deliveries) +
                (if r.Aborted? then []
                 else [Delivery(continuation, AppleFlowResult(topViewController, NonceOf(rng.bytes[..DefaultNonceLength]), event, decodeUtf8))])
      ensures topViewController && !r.Aborted? ==>
                currentNonce == Some(NonceOf(rng.bytes[..DefaultNonceLength])) && completionHandler == Some(continuation)
      ensures !topViewController || r.Aborted? ==>
                currentNonce == old(currentNonce) && completionHandler == old(completionHandler)
      ensures !r.Aborted? ==>
                var result := AppleFlowResult(topViewController, NonceOf(rng.bytes[..DefaultNonceLength]), event, decodeUtf8);
                && DeliveredTo(deliveries, continuation) == [result]
                && (result.Failure? ==> r == Threw(result.error) && exchanged == None)
                && (result.Success? ==>
                      && exchanged == Some(AppleCredential(result.value))
                      && r == ReplyOutcome(signIn(exchanged.value)))
    {
      ghost var log0 := deliveries;
      var nonce := NonceOf(rng.bytes[..DefaultNonceLength]);
      ghost var expected := AppleFlowResult(topViewController, nonce, event, decodeUtf8);
      var started, delivered := StartSignInWithAppleFlow(continuation, topViewController, rng, hash);
      if started.Crashed? {
        return Aborted(started.status), None;
      }
      if started.Performed? {
        assert completionHandler == Some(continuation) && currentNonce == Some(nonce);
        match event {
          case Authorized(credential) =>
            delivered := DidCompleteWithAuthorization(credential, decodeUtf8);
          case Errored(e) =>
            delivered := DidCompleteWithError(e);
        }
      }
      assert delivered == Some(Delivery(continuation, expected));
      assert deliveries == log0 + [Delivery(continuation, expected)];
      DeliveredToAppend(log0, Delivery(continuation, expected), continuation);
      var result := delivered.value.result;
      if result.Failure? {
        r, exchanged := Threw(result.error), None;
      } else {
        var credential := AppleCredential(result.value);
        var reply := signIn(credential);
        r, exchanged := ReplyOutcome(reply), Some(credential);
      }
    }
  }

  /**
    The nonce binding of section 3.1.2.1 of OpenID Connect Core 1.0: after a
    started flow and a good credential, the completion receives the RAW nonce
    (32 characters of the set), while the request carried the SHA-256 hex of
    that nonce's character codes, which are its UTF-8 bytes.
   */
  method NonceBinding(rng: SecRandomCopy, hash: seq<uint8> -> Digest, credential: Credential,
                      decodeUtf8: seq<uint8> -> Option<string>)
    returns (started: StartOutcome, delivered: Option<Delivery>)
    requires |rng.bytes| >= DefaultNonceLength && rng.status == ErrSecSuccess
    ensures started.Performed? && delivered.Some? && delivered.value.to == Completion(0)
    ensures delivered.value.result.Success? ==>
              var raw := delivered.value.result.value.nonce;
              && started.request.nonce == Sha256(raw, hash)
              && Unhex(started.request.nonce) == Some(hash(Utf8.Encode(raw)))
              && |raw| == DefaultNonceLength && (forall i :: 0 <= i < |raw| ==> raw[i] in Charset)
              && |Utf8.Encode(raw)| == |raw| && (forall i :: 0 <= i < |raw| ==> Utf8.Encode(raw)[i] == raw[i] as int)
              && raw != started.request.nonce
  {
    var helper := new AppleSignInHelper();
    var none;
    started, none := helper.StartSignInWithAppleFlow(Completion(0), true, rng, hash);
    delivered := helper.DidCompleteWithAuthorization(credential, decodeUtf8);
    NonceUtf8(rng.bytes[..DefaultNonceLength]);
  }

  /**
    `startSignWithAppleFlow` leaves its own continuation stored as the
    completion, so a stray error callback after the flow has finished resumes
    that continuation a second time.
   */
  method StrayCallbackAfterFlow(continuation: Completion, rng: SecRandomCopy, hash: seq<uint8> -> Digest,
                                event: AuthorizationEvent, decodeUtf8: seq<uint8> -> Option<string>,
                                signIn: OAuthCredential -> AuthReply, stray: Error)
    returns (delivered: Option<Delivery>, ghost results: seq<Result<SignInWithAppleResult, Error>>)
    requires |rng.bytes| >= DefaultNonceLength && rng.status == ErrSecSuccess
    ensures delivered == Some(Delivery(continuation, Failure(stray)))
    ensures |results| == 2
    ensures results[0] == AppleFlowResult(true, NonceOf(rng.bytes[..DefaultNonceLength]), event, decodeUtf8)
    ensures results[1] == Failure(stray)
  {
    var helper := new AppleSignInHelper();
    var r, exchanged := helper.StartSignWithAppleFlow(continuation, true, rng, hash, event, decodeUtf8, signIn);
    ghost var log1 := helper.deliveries;
    delivered := helper.DidCompleteWithError(stray);
    DeliveredToAppend(log1, delivered.value, continuation);
    results := DeliveredTo(helper.deliveries, continuation);
  }

  /**
    Two starts before any callback: the second overwrites the first's nonce and
    completion, so the callback answers the second completion, with the second
    nonce, and the first completion is never called (`firstResults` is every
    result it received).
   */
  method OverlappingStarts(first: Completion, second: Completion, rng1: SecRandomCopy, rng2: SecRandomCopy,
                           hash: seq<uint8> -> Digest, credential: Credential,
                           decodeUtf8: seq<uint8> -> Option<string>)
    returns (delivered: Option<Delivery>, ghost firstResults: seq<Result<SignInWithAppleResult, Error>>)
    requires |rng1.bytes| >= DefaultNonceLength && rng1.status == ErrSecSuccess
    requires |rng2.bytes| >= DefaultNonceLength && rng2.status == ErrSecSuccess
    requires first != second
    ensures delivered.Some? && delivered.value.to == second
    ensures delivered.value.result.Success? ==> delivered.value.result.value.nonce == NonceOf(rng2.bytes[..DefaultNonceLength])
    ensures firstResults == []
  {
    var helper := new AppleSignInHelper();
    var started, none := helper.StartSignInWithAppleFlow(first, true, rng1, hash);
    started, none := helper.StartSignInWithAppleFlow(second, true, rng2, hash);
    assert helper.deliveries == [];
    delivered := helper.DidCompleteWithAuthorization(credential, decodeUtf8);
    DeliveredToAppend([], delivered.value, first);
    firstResults := DeliveredTo(helper.deliveries, first);
  }

  /**
    The callbacks never clear the stored state: should the platform deliver a
    second callback after the first, the same completion is called again, with
    the same raw nonce.
   */
  method RepeatedCallback(completion: Completion, rng: SecRandomCopy, hash: seq<uint8> -> Digest,
                          credential: Credential, decodeUtf8: seq<uint8> -> Option<string>, error: Error)
    returns (firstCall: Option<Delivery>, secondCall: Option<Delivery>,
             ghost results: seq<Result<SignInWithAppleResult, Error>>)
    requires |rng.bytes| >= DefaultNonceLength && rng.status == ErrSecSuccess
    ensures firstCall.Some? && firstCall.value.to == completion
    ensures secondCall == Some(Delivery(completion, Failure(error)))
    ensures results == [firstCall.value.result, Failure(error)]
  {
    var helper := new AppleSignInHelper();
    var started, none := helper.StartSignInWithAppleFlow(completion, true, rng, hash);
    assert helper.deliveries == [];
    firstCall := helper.DidCompleteWithAuthorization(credential, decodeUtf8);
    DeliveredToAppend([], firstCall.value, completion);
    ghost var log1 := helper.deliveries;
    secondCall := helper.DidCompleteWithError(error);
    DeliveredToAppend(log1, secondCall.value, completion);
    results := DeliveredTo(helper.deliveries, completion);
  }
}
