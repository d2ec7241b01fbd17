/**
 * The failures an SDK call can end in.  `VaultError` and its subclasses carry the
 * structured fields of a vault error; everything else Python may raise on the way
 * (a failed `struct.pack`, a missing dict key, a bad hex string, a socket error)
 * is kept apart, because `SanctumClient.close` swallows only `VaultError`.
 */
module Errors {
  import opened Base
  import opened Json

  /** The exception classes the package exports. */
  datatype Kind =
    | VaultError
    | AuthError
    | AccessDenied
    | CredentialNotFound
    | VaultLocked
    | LeaseExpired
    | RateLimited
    | SessionExpired

  /**
   * A raised `VaultError` (or subclass) with the arguments it was built from.
   * A field the raising site does not pass is `Null`.
   */
  datatype VaultFailure = VaultFailure(
    kind: Kind,
    message: Json,
    code: Json,
    detail: Json,
    suggestion: Json,
    docsUrl: Json,
    context: Json)

  /** Python exceptions that are not `VaultError`s. */
  datatype PythonError =
    | StructError     // `struct.pack(">I", n)` with `n` of 2**32 or more
    | JsonDecodeError // `json.loads` on bytes that are not one JSON value
    | KeyError        // `r[key]` on a dict without `key`
    | TypeError       // `r[key]` on a non-dict, `fromhex` of a non-string, an unhashable code
    | AttributeError  // `.get` on a value that is not a dict
    | ValueError      // `bytes.fromhex` on text that is not hexadecimal
    | OSError         // the socket refused the connection or the write

  datatype Failure = Vault(vault: VaultFailure) | Python(python: PythonError)

  /** `VaultError(message, code=code)` as raised by the SDK itself. */
  function Raised(kind: Kind, message: string, code: string): Failure {
    Vault(VaultFailure(kind, Str(message), Str(code), Null, Null, Null, Null))
  }

  /** `VaultError(message, code="INTERNAL_ERROR")`. */
  function Internal(message: string): Failure {
    Raised(VaultError, message, "INTERNAL_ERROR")
  }

  /** `CODE_TO_EXCEPTION`: the wire error codes that have their own exception class. */
  function CodeToKind(code: Json): (r: Option<Kind>)
    ensures r.Some? ==> r.value != VaultError && code.Str?
  {
    match code
    case Str(c) =>
      if c == "AUTH_FAILED" then Some(AuthError)
      else if c == "ACCESS_DENIED" then Some(AccessDenied)
      else if c == "CREDENTIAL_NOT_FOUND" then Some(CredentialNotFound)
      else if c == "VAULT_LOCKED" then Some(VaultLocked)
      else if c == "LEASE_EXPIRED" then Some(LeaseExpired)
      else if c == "RATE_LIMITED" then Some(RateLimited)
      else if c == "SESSION_EXPIRED" then Some(SessionExpired)
      else None
    case _ => None
  }

  /** The wire code of each specific exception class. */
  function CodeOf(k: Kind): string {
    match k
    case VaultError => "INTERNAL_ERROR"
    case AuthError => "AUTH_FAILED"
    case AccessDenied => "ACCESS_DENIED"
    case CredentialNotFound => "CREDENTIAL_NOT_FOUND"
    case VaultLocked => "VAULT_LOCKED"
    case LeaseExpired => "LEASE_EXPIRED"
    case RateLimited => "RATE_LIMITED"
    case SessionExpired => "SESSION_EXPIRED"
  }

  /** `CODE_TO_EXCEPTION.get(code, VaultError)`. */
  function KindFor(code: Json): Kind {
    match CodeToKind(code)
    case Some(k) => k
    case None => VaultError
  }

  /** The table is a bijection between the seven codes and the seven specific kinds. */
  lemma {:induction false} CodeTableInverse(k: Kind, code: Json)
    ensures k != VaultError ==> CodeToKind(Str(CodeOf(k))) == Some(k)
    ensures CodeToKind(code) == Some(k) ==> code == Str(CodeOf(k))
  {
  }

  /** The fallback code `INTERNAL_ERROR` has no class of its own: it raises a plain `VaultError`. */
  lemma {:induction false} DefaultCodeUnmapped()
    ensures CodeToKind(Str(CodeOf(VaultError))) == None
    ensures KindFor(Str(CodeOf(VaultError))) == VaultError
  {
    var c := CodeOf(VaultError);
    assert |c| == 14 && c[0] == 'I';
  }
}
