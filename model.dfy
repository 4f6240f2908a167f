/** The values the user controller works with: account records, the tokens it
    mints, the errors it throws, and the lower-casing applied to usernames. */
module Model {

  datatype Option<T> = None | Some(value: T)

  /** An account's identifier (the store's `_id`). */
  type Id = nat

  datatype Kind = Access | Refresh

  /** A signed token. Signing is abstract: a token carries its kind (which of
      the two secrets signed it), its subject (the `_id` claim) and a serial
      number drawn from the store's counter, so no two issued tokens are equal. */
  datatype Token = Token(kind: Kind, subject: Id, serial: nat)

  /** What `generateAccessAndRefreshTokens` hands back. */
  datatype Pair = Pair(accessToken: Token, refreshToken: Token)

  /** One stored user document. `password` is the stored credential (the
      account model hashes it before saving); `refreshToken` is the single
      refresh-token slot, `None` when cleared or never set. */
  datatype Account = Account(
    fullname: string,
    username: string,
    email: string,
    password: string,
    avatar: string,
    coverImage: string,
    refreshToken: Option<Token>)

  /** The message of each error the controller can produce. */
  datatype Reason =
    | FullNameRequired
    | UsernameRequired
    | EmailRequired
    | PasswordRequired
    | UserAlreadyExists
    | AvatarRequired
    | TokenGenerationFailed
    | IdentifierRequired
    | UserDoesNotExist
    | InvalidCredentials
    | UnauthorizedRequest
    | InvalidRefreshToken
    | ExpiredOrUsedRefreshToken
    | JwtMustBeProvided
    | JwtInvalid

  /** An `ApiError` carries an HTTP status; the errors thrown by the token
      verifier carry only a message. */
  datatype Error =
    | ApiError(status: nat, reason: Reason)
    | JwtError(reason: Reason)

  datatype Result<T> = Ok(value: T) | Err(error: Error)

  /** JavaScript truthiness of an optional string: absent or empty is false. */
  predicate Falsy(s: Option<string>) {
    s.None? || s.value == ""
  }

  predicate IsUpper(c: char) {
    'A' <= c <= 'Z'
  }

  /** `toLowerCase` on one character, for the ASCII letters. */
  function LowerChar(c: char): (d: char)
    ensures !IsUpper(d)
    ensures IsUpper(c) ==> d as int == c as int + 32
    ensures !IsUpper(c) ==> d == c
  {
    if IsUpper(c) then (c as int + 32) as char else c
  }

  /** `String.prototype.toLowerCase`, restricted to ASCII letters. */
  function ToLower(s: string): (r: string)
    ensures |r| == |s|
    ensures forall i :: 0 <= i < |s| ==> r[i] == LowerChar(s[i])
  {
    if s == [] then [] else [LowerChar(s[0])] + ToLower(s[1..])
  }

  predicate NoUpper(s: string) {
    forall i :: 0 <= i < |s| ==> !IsUpper(s[i])
  }

  /** Lower-casing yields a string with no upper-case letter, and leaves one
      that has none as it is; so it is idempotent. */
  lemma ToLowerIsLower(s: string)
    ensures NoUpper(ToLower(s))
    ensures NoUpper(s) ==> ToLower(s) == s
    ensures ToLower(ToLower(s)) == ToLower(s)
  {
  }
}
