# Sign in with Apple bridge — a Dafny model

This project models `AppleSignInHelper`, the bridge between the app and
Sign in with Apple in the rawggammers iOS app. The bridge has four parts:

- **Nonce generator** (`NonceGenerator`). `randomNonceString` takes 32
  secure random bytes and maps each one to `charset[byte % 64]`. The charset
  has 64 characters: digits, 25 upper-case letters (there is no `W`), 26
  lower-case letters and `-._`.
- **Digest rendering** (`Utf8`, `DigestHex`). `sha256` hashes the UTF-8
  bytes of the nonce. It then renders each digest byte as `%02x`, which is
  base 16 (section 8 of RFC 4648) with lowercase digits.
- **Session state** (`AppleSignIn.AppleSignInHelper`). This class has the
  two optional fields `currentNonce` and `completionHandler`, and a ghost log
  of every completion call. The request carries the hashed nonce. The success
  callback hands back the raw nonce, which is the `nonce` rule of section
  3.1.2.1 of OpenID Connect Core 1.0.
- **Result composition** (`StartSignWithAppleFlow`). A failure is rethrown.
  A success is exchanged with Firebase as `("apple.com", token, rawNonce)`.
  A Firebase error is rethrown. A Firebase user becomes an `AuthDataModel`,
  with `""` for a missing email or display name.

These external parts are inputs to the model:

- Whether a top view controller exists is a `bool`.
- `SecRandomCopyBytes` is a status plus the bytes it writes.
- SHA-256 is a function parameter that returns 32 bytes.
- The UTF-8 decoding of the identity token is a partial-function parameter.
- The delegate event (credential or error) is an input.
- Firebase's sign-in is a function parameter.

Completions are closures, so they are modelled by identity.

The model follows the code as written, including three behaviours that a
more defensive design of this bridge would avoid:

- A second `startSignInWithAppleFlow` overwrites the stored nonce and
  completion without any check (`OverlappingStarts`).
- The callbacks never clear the stored state. A repeated callback therefore
  reaches the same completion again (`RepeatedCallback`). This includes the
  continuation of `startSignWithAppleFlow`, which a stray callback would
  resume a second time (`StrayCallbackAfterFlow`).
- Firebase errors are rethrown unchanged, not wrapped in a backend-specific
  error.

The nonce alphabet has a quirk of its own. Its literal has 64 characters and
leaves out `W` (`CharsetSpelledOut`). Because 256 is a multiple of 64, the
modulo mapping is proved uniform: every character comes from exactly four
byte values (`Unbiased`).

## Model

| member | source | states |
|---|---|---|
| `SignInTypes.ErrorDescription` | rawggammers/Core/Helper/AppleSignInHelper.swift:163-174 | every `SignInWithAppleError` case has a description, and it is non-empty |
| `SignInTypes.DescriptionsDistinct` | rawggammers/Core/Helper/AppleSignInHelper.swift:163-174 | two cases have equal descriptions exactly when they are the same case |
| `NonceGenerator.CharsetSpelledOut` | rawggammers/Core/Helper/AppleSignInHelper.swift:90 | the modelled set is exactly the source's literal: digits, `A`-`V`, `XYZ`, `a`-`z`, `-._` |
| `NonceGenerator.CharsetIndexed` | rawggammers/Core/Helper/AppleSignInHelper.swift:90 | the charset has 64 characters, and `Position` finds each one at its own index |
| `NonceGenerator.CharsetDistinct` | rawggammers/Core/Helper/AppleSignInHelper.swift:90 | the 64 characters are pairwise distinct |
| `NonceGenerator.PositionFinds` | rawggammers/Core/Helper/AppleSignInHelper.swift:90 | a character is in the charset iff `Position` is in 0..63, and then it sits at that index |
| `NonceGenerator.CharsetAscii` | rawggammers/Core/Helper/AppleSignInHelper.swift:90 | every charset character is ASCII |
| `NonceGenerator.NonceOf` | rawggammers/Core/Helper/AppleSignInHelper.swift:92-95 | one character per byte; character i is in the charset and its index is `bytes[i] % 64`, so the nonce determines each byte modulo 64 |
| `NonceGenerator.Unbiased` | rawggammers/Core/Helper/AppleSignInHelper.swift:90-95 | each charset character is produced by exactly the 4 bytes k, k+64, k+128, k+192: the wrap-around is onto and uniform |
| `NonceGenerator.RandomNonceString` | rawggammers/Core/Helper/AppleSignInHelper.swift:82-98 | for `length > 0`: fatal error iff the random status is not `errSecSuccess`; otherwise `length` charset characters mapped from the first `length` random bytes |
| `Utf8.EncodeScalar` | rawggammers/Core/Helper/AppleSignInHelper.swift:106 | one to four bytes; one byte equal to the code exactly for ASCII; lead byte at least 0xC0 and continuation bytes in 0x80..0xBF otherwise |
| `Utf8.Encode` | rawggammers/Core/Helper/AppleSignInHelper.swift:106 | the UTF-8 view has between n and 4n bytes for n scalars |
| `Utf8.EncodeAscii` | rawggammers/Core/Helper/AppleSignInHelper.swift:106 | on an ASCII string the UTF-8 bytes are the character codes, one per character |
| `DigestHex.DigitValue` | rawggammers/Core/Helper/AppleSignInHelper.swift:109 | defined exactly on `[0-9a-f]`, with a value in 0..15 that `HexDigit` renders as the same character |
| `DigestHex.DigitValueHexDigit` | rawggammers/Core/Helper/AppleSignInHelper.swift:109 | `DigitValue` reads every lowercase digit `HexDigit` writes back to its value |
| `DigestHex.HexByte` | rawggammers/Core/Helper/AppleSignInHelper.swift:109 | `%02x`: two lowercase hex digits whose value, high digit first, is the byte |
| `DigestHex.Hex` | rawggammers/Core/Helper/AppleSignInHelper.swift:108-110 | the joined rendering of n bytes has 2n characters, all in `[0-9a-f]` |
| `DigestHex.HexAt` | rawggammers/Core/Helper/AppleSignInHelper.swift:108-110 | byte order is kept: characters 2i and 2i+1 are the rendering of byte i |
| `DigestHex.Unhex` | rawggammers/Core/Helper/AppleSignInHelper.swift:108-110 | the lowercase base-16 decoder, the rendering's inverse: a decoded string has twice as many characters as bytes |
| `DigestHex.UnhexHex` | rawggammers/Core/Helper/AppleSignInHelper.swift:108-110 | decoding the rendering gives the bytes back |
| `DigestHex.HexUnhex` | rawggammers/Core/Helper/AppleSignInHelper.swift:108-110 | whatever decodes is the rendering of its decoding: the rendering is canonical |
| `DigestHex.Sha256` | rawggammers/Core/Helper/AppleSignInHelper.swift:105-113 | 64 lowercase hex characters that decode to the SHA-256 digest of the input's UTF-8 bytes |
| `AppleSignIn.DeliveredToAppend` | rawggammers/Core/Helper/AppleSignInHelper.swift:24 | one more completion call adds one result for its own completion and none for any other |
| `AppleSignIn.AuthorizationResult` | rawggammers/Core/Helper/AppleSignInHelper.swift:125-135 | success iff Apple ID credential, identity token, UTF-8 decodable, and a stored nonce; then (token, raw stored nonce); otherwise `invalidCredential` |
| `AppleSignIn.AppleCredential` | rawggammers/Core/Helper/AppleSignInHelper.swift:35 | Firebase gets provider "apple.com", the identity token and the raw nonce |
| `AppleSignIn.AuthDataModelOf` | rawggammers/Core/Helper/AppleSignInHelper.swift:40-44 | uid and photo URL are copied; a present email or display name is kept, a missing one becomes "" |
| `AppleSignIn.ReplyOutcome` | rawggammers/Core/Helper/AppleSignInHelper.swift:36-46 | a Firebase error is rethrown unchanged; a user is returned as its `AuthDataModel` |
| `AppleSignIn.AppleFlowResult` | rawggammers/Core/Helper/AppleSignInHelper.swift:58-76 | `noViewController` without a top view controller; otherwise the forwarded platform error or the guarded credential result, which carries the minted nonce |
| `AppleSignIn.NonceUtf8` | rawggammers/Core/Helper/AppleSignInHelper.swift:106 | the bytes `sha256` hashes for a nonce are its character codes, one per character, all below 0x80 |
| `AppleSignIn.AppleSignInHelper.constructor` | rawggammers/Core/Helper/AppleSignInHelper.swift:23-24 | both fields start nil and no completion has been called |
| `AppleSignIn.AppleSignInHelper.StartSignInWithAppleFlow` | rawggammers/Core/Helper/AppleSignInHelper.swift:58-76 | no view controller: the completion is called once with `noViewController` and both fields are unchanged; random failure: abort with fields unchanged; otherwise the fields are overwritten with the raw nonce and the completion, and the request has scopes [fullName, email] and nonce `sha256(raw)` |
| `AppleSignIn.AppleSignInHelper.DidCompleteWithAuthorization` | rawggammers/Core/Helper/AppleSignInHelper.swift:123-137 | the stored completion, if any, is called once with the guarded result; no call if none is stored; neither field changes |
| `AppleSignIn.AppleSignInHelper.DidCompleteWithError` | rawggammers/Core/Helper/AppleSignInHelper.swift:144-148 | the stored completion, if any, is called once with the platform error unchanged; neither field changes |
| `AppleSignIn.AppleSignInHelper.StartSignWithAppleFlow` | rawggammers/Core/Helper/AppleSignInHelper.swift:30-53 | the fresh completion is called exactly once, with the Apple flow result, and the log gains that one entry and nothing else; after a performed request the fields hold the minted nonce and the continuation, otherwise they are unchanged; a failure is rethrown and Firebase is not called; a success is exchanged and Firebase's error is rethrown or its user mapped |
| `AppleSignIn.NonceBinding` | rawggammers/Core/Helper/AppleSignInHelper.swift:64-135 | after a start and a good credential, the completion receives the raw 32-character nonce; the request carried `sha256` of it, which decodes to the hash of the nonce's character codes (its UTF-8 bytes), and is a different string |
| `AppleSignIn.StrayCallbackAfterFlow` | rawggammers/Core/Helper/AppleSignInHelper.swift:30-33 | after the flow, the continuation stays stored, so an error callback calls it a second time: it has received the flow result and then the stray error |
| `AppleSignIn.OverlappingStarts` | rawggammers/Core/Helper/AppleSignInHelper.swift:64-66 | after two starts the callback answers the second completion with the second nonce, and the first completion is never called |
| `AppleSignIn.RepeatedCallback` | rawggammers/Core/Helper/AppleSignInHelper.swift:129-147 | the callbacks keep the stored completion, so a second callback calls the same completion a second time |

## Left out

- The SHA-256 compression function (FIPS 180-4) is not modelled. It is a parameter of type `seq<uint8> -> Digest`.
- `SecRandomCopyBytes` is not modelled. Its status and bytes are an input, and the `fatalError` on failure is an `Aborted`/`Crashed` outcome.
- UTF-8 decoding of the identity token is not modelled. It is a partial-function parameter.
- AuthenticationServices is not modelled: the request, the controller and `performRequests`. The issued request is returned, and the delegate event is an input.
- Firebase is not modelled: `OAuthProvider.credential` and `Auth.auth().signIn`. The credential is a record, and the sign-in reply comes from a function parameter.
- `withCheckedThrowingContinuation` and `@MainActor` are modelled as sequential code. Threading and suspension are not captured.
- The case where Firebase's callback gets neither an error nor a result is not modelled. In that case the continuation would never resume.
- `Utilities.shared.topViewController()` is a boolean input. The `presentationAnchor` extension is a UI lookup and is left out.
- The `print` in the error callback is logging and is left out.
- Completion closures are modelled by identity only. Resuming a continuation twice, which Swift traps on, is visible only as two entries in the log.
- Utf8.Encode: only ASCII strings get their bytes specified (`EncodeAscii`), and no decoder is given. `sha256` only hashes nonces, which are ASCII.
- Swift strings are modelled as sequences of Unicode scalars, not grapheme clusters. For the ASCII nonce this makes no difference.
- A URL is modelled as its string.
- `badResponse` and `unableToFindNonce` have descriptions, but nothing in this file raises them.
- The SwiftUI views and the Core Data stack are out of scope. They are layout and persistence code, with no logic to state properties about.
