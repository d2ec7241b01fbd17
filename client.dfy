/**
 * The session object of sanctum_ai/client.py, `SanctumClient`: target resolution,
 * request ids, the two-step challenge-response handshake and the bookkeeping of
 * credential leases.
 *
 * The socket is represented by the client's own view of it: `sock` says whether a
 * socket object exists and whether its `connect` succeeded, `sent` is the sequence
 * of requests written to it, and `replies` is what the server will answer, one
 * entry per `recv` (a decoded response, or the failure `recv` raises).
 */
module Client {
  import opened Base
  import opened Json
  import opened Errors
  import opened Protocol
  import Hex

  /** `SanctumClient.DEFAULT_SOCKET` (the path is kept unexpanded). */
  const DefaultSocket: string := "~/.sanctum/vault.sock"

  datatype Endpoint = Tcp(host: string, port: int) | Unix(path: string)

  /** A socket object; `open` is false when its `connect` raised. */
  datatype Conn = Conn(endpoint: Endpoint, open: bool)

  /** The `target` argument of `connect`: none, a socket path, or a host and port (dict or tuple). */
  datatype Target = NoTarget | PathTarget(path: string) | AddressTarget(host: string, port: int)

  /** The three connection settings `_socket_path`, `_host` and `_port`. */
  datatype Address = Address(socketPath: Option<string>, host: Option<string>, port: Option<int>)

  /** One JSON-RPC request as `_call` writes it. */
  datatype Request = Request(id: nat, rpc: string, params: Json)

  /** Where the signing key comes from; reading and decrypting the key files happen outside the model. */
  datatype KeySource =
    | KeyFile(text: string)             // contents of the plaintext key file
    | DecryptedKey(seed: seq<byte>)     // the seed recovered from the encrypted key file
    | KeyUnavailable(failure: Failure)  // reading or decrypting raised this

  // ---------------------------------------------------------------------------
  // Python idioms on decoded JSON.

  /** `r[key]`. */
  function Subscript(r: Json, key: string): Result<Json, Failure> {
    if !r.Obj? then Err(Python(TypeError))
    else
      match Get(r.fields, key)
      case Some(v) => Ok(v)
      case None => Err(Python(KeyError))
  }

  /** `r.get(key, default)`. */
  function GetDefault(r: Json, key: string, default: Json): Result<Json, Failure> {
    if !r.Obj? then Err(Python(AttributeError)) else Ok(GetOr(r.fields, key, default))
  }

  /** `bytes.fromhex(v)`. */
  function FromHex(v: Json): Result<seq<byte>, Failure> {
    match v
    case Str(s) =>
      (match Hex.Decode(s)
       case Some(b) => Ok(b)
       case None => Err(Python(ValueError)))
    case _ => Err(Python(TypeError))
  }

  /** The characters `str.isspace` accepts, which `str.strip()` removes. */
  predicate IsWhitespace(c: char) {
    || '\t' <= c <= '\r' || '\U{001C}' <= c <= ' ' || c == '\U{0085}' || c == '\U{00A0}' || c == '\U{1680}'
    || '\U{2000}' <= c <= '\U{200A}' || c == '\U{2028}' || c == '\U{2029}' || c == '\U{202F}'
    || c == '\U{205F}' || c == '\U{3000}'
  }

  /** `s.lstrip()`: the suffix of `s` after its leading whitespace. */
  function StripStart(s: string): (r: string)
    ensures |r| <= |s| && r == s[|s| - |r|..]
    ensures forall i :: 0 <= i < |s| - |r| ==> IsWhitespace(s[i])
    ensures r != [] ==> !IsWhitespace(r[0])
  {
    if s != [] && IsWhitespace(s[0]) then StripStart(s[1..]) else s
  }

  /** `s.rstrip()`: the prefix of `s` before its trailing whitespace. */
  function StripEnd(s: string): (r: string)
    ensures |r| <= |s| && r == s[..|r|]
    ensures forall i :: |r| <= i < |s| ==> IsWhitespace(s[i])
    ensures r != [] ==> !IsWhitespace(r[|r| - 1])
  {
    if s != [] && IsWhitespace(s[|s| - 1]) then StripEnd(s[..|s| - 1]) else s
  }

  /** `s.strip()`. */
  function Strip(s: string): (r: string)
    ensures |r| <= |s|
    ensures r != [] ==> !IsWhitespace(r[0]) && !IsWhitespace(r[|r| - 1])
  {
    StripEnd(StripStart(s))
  }

  /** `lstrip` removes exactly the leading whitespace `pre`. */
  lemma {:induction false} StripStartPadding(pre: string, u: string)
    requires forall i :: 0 <= i < |pre| ==> IsWhitespace(pre[i])
    requires u != [] ==> !IsWhitespace(u[0])
    ensures StripStart(pre + u) == u
  {
    var s := pre + u;
    var r := StripStart(s);
    assert r == s[|pre|..] == u;
  }

  /** `rstrip` removes exactly the trailing whitespace `post`. */
  lemma {:induction false} StripEndPadding(t: string, post: string)
    requires forall i :: 0 <= i < |post| ==> IsWhitespace(post[i])
    requires t != [] ==> !IsWhitespace(t[|t| - 1])
    ensures StripEnd(t + post) == t
  {
    var s := t + post;
    var r := StripEnd(s);
    assert r == s[..|t|] == t;
  }

  /** Whitespace around text that neither starts nor ends with whitespace is exactly what `strip` removes. */
  lemma {:induction false} StripPadding(pre: string, t: string, post: string)
    requires forall i :: 0 <= i < |pre| ==> IsWhitespace(pre[i])
    requires forall i :: 0 <= i < |post| ==> IsWhitespace(post[i])
    requires t != [] ==> !IsWhitespace(t[0]) && !IsWhitespace(t[|t| - 1])
    ensures Strip(pre + t + post) == t
  {
    if t == [] {
      var sp := pre + post;
      assert pre + t + post == sp + [];
      forall i | 0 <= i < |sp| ensures IsWhitespace(sp[i]) {
        if i < |pre| { assert sp[i] == pre[i]; } else { assert sp[i] == post[i - |pre|]; }
      }
      StripStartPadding(sp, []);
    } else {
      assert pre + t + post == pre + (t + post);
      StripStartPadding(pre, t + post);
      StripEndPadding(t, post);
    }
  }

  /** `list.remove(x)` on a list that holds `x`; the list itself otherwise. */
  function RemoveFirst(s: seq<Json>, x: Json): (r: seq<Json>)
    ensures |r| == if x in s then |s| - 1 else |s|
  {
    if s == [] then []
    else if s[0] == x then s[1..]
    else
      assert x in s <==> x in s[1..];
      [s[0]] + RemoveFirst(s[1..], x)
  }

  /** Removing an absent id leaves the list as it was. */
  lemma {:induction false} RemoveFirstAbsent(s: seq<Json>, x: Json)
    requires x !in s
    ensures RemoveFirst(s, x) == s
  {
    if s != [] {
      RemoveFirstAbsent(s[1..], x);
    }
  }

  /** Only the first occurrence is removed; the elements around it keep their order. */
  lemma {:induction false} RemoveFirstAt(s: seq<Json>, x: Json, i: nat)
    requires i < |s| && s[i] == x && x !in s[..i]
    ensures RemoveFirst(s, x) == s[..i] + s[i + 1..]
  {
    if i > 0 {
      assert s[0] != x by { assert s[0] == s[..i][0]; }
      assert s[1..][..i - 1] == s[1..i];
      RemoveFirstAt(s[1..], x, i - 1);
      assert s[..i] == [s[0]] + s[1..i];
      assert s[1..][i..] == s[i + 1..];
    }
  }

  /** Removal takes away exactly one copy of a present id. */
  lemma {:induction false} RemoveFirstMultiset(s: seq<Json>, x: Json)
    requires x in s
    ensures multiset(RemoveFirst(s, x)) == multiset(s) - multiset{x}
  {
    if s[0] == x {
      assert s == [x] + s[1..];
    } else {
      assert x in s[1..] by { var i :| 0 <= i < |s| && s[i] == x; assert s[1..][i - 1] == x; }
      RemoveFirstMultiset(s[1..], x);
      assert s == [s[0]] + s[1..];
    }
  }

  /** The decimal digits of `n`, as `str(n)` writes them. */
  function Decimal(n: nat): string
    decreases n
  {
    if n < 10 then [(n + '0' as int) as char] else Decimal(n / 10) + [(n % 10 + '0' as int) as char]
  }

  // ---------------------------------------------------------------------------
  // connect: target resolution

  /** How `connect` overrides the constructor's settings with its `target`. */
  function Retarget(a: Address, t: Target): (r: Address)
    ensures t.NoTarget? ==> r == a
    ensures !t.NoTarget? ==> r.socketPath.None? || r.host.None?
    ensures t.AddressTarget? ==> r.host.Some? && r.port.Some?
  {
    match t
    case NoTarget => a
    case PathTarget(p) => Address(Some(p), None, a.port)
    case AddressTarget(h, p) => Address(None, Some(h), Some(p))
  }

  /** Python truthiness of an optional string or number. */
  predicate GivenStr(o: Option<string>) { o.Some? && o.value != "" }
  predicate GivenInt(o: Option<int>) { o.Some? && o.value != 0 }

  /** TCP when host and port are both truthy, else the Unix socket at the path or `DEFAULT_SOCKET`. */
  function ChooseEndpoint(a: Address): (e: Endpoint)
    ensures e.Unix? ==> e.path != ""
    ensures e.Tcp? ==> e.host != "" && e.port != 0
  {
    if GivenStr(a.host) && GivenInt(a.port) then Tcp(a.host.value, a.port.value)
    else Unix(if GivenStr(a.socketPath) then a.socketPath.value else DefaultSocket)
  }

  /** TCP is chosen exactly when host and port are both truthy. */
  lemma {:induction false} EndpointChoice(a: Address)
    ensures ChooseEndpoint(a).Tcp? <==> GivenStr(a.host) && GivenInt(a.port)
    ensures ChooseEndpoint(a).Tcp? ==> ChooseEndpoint(a) == Tcp(a.host.value, a.port.value)
    ensures ChooseEndpoint(a).Unix? ==>
      ChooseEndpoint(a).path == if GivenStr(a.socketPath) then a.socketPath.value else DefaultSocket
  {
  }

  /**
   * An explicit target decides the transport on its own, whatever the constructor
   * was given: a path means that Unix socket (or the default one for an empty
   * path), a host and port mean TCP (or the default socket when either is falsy).
   */
  lemma {:induction false} TargetDecides(a: Address, t: Target)
    requires !t.NoTarget?
    ensures t.PathTarget? ==> ChooseEndpoint(Retarget(a, t)) == Unix(if t.path != "" then t.path else DefaultSocket)
    ensures t.AddressTarget? ==>
      ChooseEndpoint(Retarget(a, t)) == if t.host != "" && t.port != 0 then Tcp(t.host, t.port) else Unix(DefaultSocket)
    ensures forall b: Address :: ChooseEndpoint(Retarget(b, t)) == ChooseEndpoint(Retarget(a, t))
  {
  }

  // ---------------------------------------------------------------------------
  // The session state and _call

  /**
   * Everything a `SanctumClient` changes while talking to the daemon: `_sock`,
   * `_session_id` (`Null` for `None`), `_req_id`, `_leases`, the requests written so
   * far and the replies the daemon has still to send.
   */
  datatype Session = Session(
    sock: Option<Conn>,
    sessionId: Json,
    reqId: nat,
    leases: seq<Json>,
    sent: seq<Request>,
    replies: seq<Result<Json, Failure>>)

  /** Request ids are handed out 1, 2, 3, ...: each written request carries a new, larger one. */
  ghost predicate IdsIncreasing(s: Session) {
    && (forall i :: 0 <= i < |s.sent| ==> 1 <= s.sent[i].id <= s.reqId)
    && (forall i, j :: 0 <= i < j < |s.sent| ==> s.sent[i].id < s.sent[j].id)
  }

  /** The dict `_call` hands to `send`. */
  function RequestJson(req: Request): Json {
    Obj([Member("id", Int(req.id)), Member("method", Str(req.rpc)), Member("params", req.params)])
  }

  /** `recv`, then `raise_on_error`, then `resp.get("result", {})`; an exhausted server has closed the connection. */
  function Answer(replies: seq<Result<Json, Failure>>): (r: Result<Json, Failure>)
    ensures r.Ok? ==> replies != [] && replies[0].Ok? && replies[0].value.Obj?
  {
    if replies == [] then Err(Internal("Connection closed"))
    else
      match replies[0]
      case Err(f) => Err(f)
      case Ok(resp) =>
        match RaiseOnError(resp)
        case Err(f) => Err(f)
        case Ok(_) => Ok(GetOr(resp.fields, "result", Obj([])))
  }

  /** A successful call returns `result`, or `{}` when the response has none; any failure is passed on. */
  lemma {:induction false} AnswerOk(replies: seq<Result<Json, Failure>>)
    ensures Answer(replies).Ok? <==> replies != [] && replies[0].Ok? && RaiseOnError(replies[0].value).Ok?
    ensures Answer(replies).Ok? ==>
      Answer(replies).value == match Get(replies[0].value.fields, "result") case Some(v) => v case None => Obj([])
    ensures replies != [] && replies[0].Err? ==> Answer(replies) == replies[0]
  {
  }

  /** Whether `send` puts the request on the wire: there is a socket, it connected, and the frame can be packed. */
  predicate Writes(s: Session, req: Request) {
    s.sock.Some? && EncodeFrame(RequestJson(req)).Ok? && s.sock.value.open
  }

  /**
   * `_call(method, params)`: without a socket, "Not connected" and nothing changes;
   * otherwise the id is drawn first, then `send` (which may fail packing the frame or
   * writing to a socket that never connected) and `recv` of one reply.
   */
  function CallStep(s: Session, rpc: string, params: Json): (r: (Result<Json, Failure>, Session))
    ensures r.1.sock == s.sock && r.1.sessionId == s.sessionId && r.1.leases == s.leases
    ensures r.1.reqId == if s.sock.Some? then s.reqId + 1 else s.reqId
  {
    if s.sock.None? then (Err(Internal("Not connected")), s)
    else
      var req := Request(s.reqId + 1, rpc, params);
      var drawn := s.(reqId := s.reqId + 1);
      if EncodeFrame(RequestJson(req)).Err? then (Err(Python(StructError)), drawn)
      else if !s.sock.value.open then (Err(Python(OSError)), drawn)
      else (Answer(s.replies), drawn.(sent := s.sent + [req], replies := if s.replies == [] then [] else s.replies[1..]))
  }

  /** Without a socket `_call` raises "Not connected" with code `INTERNAL_ERROR`, draws no id and sends nothing. */
  lemma {:induction false} CallUnconnected(s: Session, rpc: string, params: Json)
    requires s.sock.None?
    ensures CallStep(s, rpc, params).0 == Err(Internal("Not connected"))
    ensures CallStep(s, rpc, params).0.error.vault.code == Str("INTERNAL_ERROR")
    ensures CallStep(s, rpc, params).1 == s
  {
  }

  /**
   * With a socket, `_call` draws the next id; the request goes out with that id
   * exactly when `send` succeeds, and then the call returns the server's answer to it.
   * Nothing else in the session changes, and a failure before the reply is not a `VaultError`.
   */
  lemma {:induction false} CallConnected(s: Session, rpc: string, params: Json)
    requires s.sock.Some?
    ensures var (r, t) := CallStep(s, rpc, params);
      var req := Request(s.reqId + 1, rpc, params);
      && t.reqId == s.reqId + 1
      && t.sock == s.sock && t.sessionId == s.sessionId && t.leases == s.leases
      && (Writes(s, req) ==> r == Answer(s.replies) && t.sent == s.sent + [req] && (s.replies != [] ==> t.replies == s.replies[1..]))
      && (!Writes(s, req) ==> r.Err? && r.error.Python? && t.sent == s.sent && t.replies == s.replies)
  {
  }

  /** A call that returns normally has written its request and consumed a reply. */
  lemma {:induction false} CallOkWrites(s: Session, rpc: string, params: Json)
    requires CallStep(s, rpc, params).0.Ok?
    ensures Writes(s, Request(s.reqId + 1, rpc, params)) && s.replies != []
    ensures CallStep(s, rpc, params).1.sent == s.sent + [Request(s.reqId + 1, rpc, params)]
  {
  }

  /** Ids are 1, 2, 3, ... per client and strictly increasing across every call. */
  lemma {:induction false} CallKeepsIds(s: Session, rpc: string, params: Json)
    ensures IdsIncreasing(s) ==> IdsIncreasing(CallStep(s, rpc, params).1)
    ensures CallStep(s, rpc, params).1.reqId >= s.reqId
  {
    var t := CallStep(s, rpc, params).1;
    if t.sent != s.sent {
      assert t.sent == s.sent + [Request(s.reqId + 1, rpc, params)];
      assert forall i :: 0 <= i < |s.sent| ==> t.sent[i] == s.sent[i];
    }
  }

  // ---------------------------------------------------------------------------
  // Request parameters of the operations.

  function AuthenticateParams(agentName: string): Json {
    Obj([Member("agent_name", Str(agentName))])
  }

  function ChallengeParams(sessionId: Json, signature: string): Json {
    Obj([Member("session_id", sessionId), Member("signature", Str(signature))])
  }

  /** `params` of `retrieve`: `ttl` only when it is not `None`. */
  function RetrieveParams(sessionId: Json, path: string, ttl: Option<int>): Json {
    Obj([Member("session_id", sessionId), Member("path", Str(path))]
        + (if ttl.Some? then [Member("ttl", Int(ttl.value))] else []))
  }

  function ListParams(sessionId: Json): Json {
    Obj([Member("session_id", sessionId)])
  }

  function ReleaseParams(leaseId: Json): Json {
    Obj([Member("lease_id", leaseId)])
  }

  /** `params` of `use`: the caller's `params` only when they are truthy (a non-empty dict). */
  function UseParams(sessionId: Json, path: string, operation: string, params: Json): Json {
    Obj([Member("session_id", sessionId), Member("path", Str(path)), Member("operation", Str(operation))]
        + (if Truthy(params) then [Member("params", params)] else []))
  }

  lemma {:induction false} RetrieveParamsTtl(sessionId: Json, path: string, ttl: Option<int>)
    ensures var p := RetrieveParams(sessionId, path, ttl).fields;
      && (Get(p, "ttl").Some? <==> ttl.Some?)
      && (ttl.Some? ==> Get(p, "ttl") == Some(Int(ttl.value)))
      && Get(p, "session_id") == Some(sessionId) && Get(p, "path") == Some(Str(path))
  {
    var p := RetrieveParams(sessionId, path, ttl).fields;
    assert p[0].key == "session_id" && p[1].key == "path";
    assert Get(p, "ttl") == Get(p[1..], "ttl") == Get(p[2..], "ttl");
  }

  lemma {:induction false} UseParamsOptional(sessionId: Json, path: string, operation: string, params: Json)
    ensures var p := UseParams(sessionId, path, operation, params).fields;
      && (Get(p, "params").Some? <==> Truthy(params))
      && (Truthy(params) ==> Get(p, "params") == Some(params))
      && Get(p, "operation") == Some(Str(operation)) && Get(p, "path") == Some(Str(path))
  {
    var p := UseParams(sessionId, path, operation, params).fields;
    var extra := if Truthy(params) then [Member("params", params)] else [];
    assert p[3..] == extra;
    assert Get(extra, "params") == if Truthy(params) then Some(params) else None;
    assert Get(p, "params") == Get(p[1..], "params") == Get(p[2..], "params") == Get(p[3..], "params");
    assert Get(p, "operation") == Get(p[1..], "operation") == Get(p[2..], "operation");
    assert Get(p, "path") == Get(p[1..], "path");
  }

  // ---------------------------------------------------------------------------
  // _load_signing_key and _resolve_key

  /** `_load_signing_key`: the file's text, stripped, must be the hex of exactly 32 bytes. */
  function LoadSigningKey(text: string): (r: Result<seq<byte>, Failure>)
    ensures r.Ok? ==> |r.value| == 32
  {
    match Hex.Decode(Strip(text))
    case None => Err(Python(ValueError))
    case Some(seed) =>
      if |seed| != 32 then Err(Raised(AuthError, "Key file has " + Decimal(|seed|) + " bytes, expected 32", "AUTH_FAILED"))
      else Ok(seed)
  }

  /**
   * A key file is accepted iff its stripped text is the hex of 32 bytes; text that is
   * not hex raises `ValueError`, another length an `AuthError`.
   */
  lemma {:induction false} SigningKeyLength(text: string)
    ensures var d := Hex.Decode(Strip(text));
      && (LoadSigningKey(text).Ok? <==> d.Some? && |d.value| == 32)
      && (LoadSigningKey(text).Ok? ==> LoadSigningKey(text).value == d.value)
      && (d.None? ==> LoadSigningKey(text) == Err(Python(ValueError)))
      && (d.Some? && |d.value| != 32 ==>
            LoadSigningKey(text).Err? && LoadSigningKey(text).error.Vault?
            && LoadSigningKey(text).error.vault.kind == AuthError
            && LoadSigningKey(text).error.vault.code == Str("AUTH_FAILED"))
  {
  }

  /** A key file holding the hex of a 32-byte seed, with any whitespace around it, loads back to that seed. */
  lemma {:induction false} SigningKeyFile(seed: seq<byte>, pre: string, post: string)
    requires |seed| == 32
    requires forall i :: 0 <= i < |pre| ==> IsWhitespace(pre[i])
    requires forall i :: 0 <= i < |post| ==> IsWhitespace(post[i])
    ensures LoadSigningKey(pre + Hex.Encode(seed) + post) == Ok(seed)
  {
    var e := Hex.Encode(seed);
    assert Hex.DigitValue(e[0]).Some? && Hex.DigitValue(e[|e| - 1]).Some?;
    StripPadding(pre, e, post);
    Hex.DecodeEncode(seed);
  }

  /**
   * `_resolve_key`, from the key source it picks: `SigningKey(seed)` accepts only a
   * 32-byte seed, so a decrypted seed of another length raises `ValueError`.
   */
  function ResolveKey(key: KeySource): (r: Result<seq<byte>, Failure>)
    ensures r.Ok? ==> |r.value| == 32
  {
    match key
    case KeyFile(text) => LoadSigningKey(text)
    case DecryptedKey(seed) => if |seed| == 32 then Ok(seed) else Err(Python(ValueError))
    case KeyUnavailable(f) => Err(f)
  }

  /** A decrypted seed is used iff it has 32 bytes; otherwise the handshake stops with `ValueError` before sending. */
  lemma {:induction false} DecryptedSeedLength(s: Session, agentName: string, seed: seq<byte>,
                                               sign: (seq<byte>, seq<byte>) -> seq<byte>)
    ensures ResolveKey(DecryptedKey(seed)).Ok? <==> |seed| == 32
    ensures ResolveKey(DecryptedKey(seed)).Ok? ==> ResolveKey(DecryptedKey(seed)).value == seed
    ensures |seed| != 32 ==> AuthenticateStep(s, agentName, DecryptedKey(seed), sign) == (Err(Python(ValueError)), s)
  {
  }

  /** `r["challenge"]` decoded from hex. */
  function Challenge(r: Json): Result<seq<byte>, Failure> {
    match Subscript(r, "challenge")
    case Err(f) => Err(f)
    case Ok(c) => FromHex(c)
  }

  /** `r.get("authenticated")`, read for its truthiness. */
  function Confirmation(r: Json): Result<bool, Failure> {
    match GetDefault(r, "authenticated", Null)
    case Err(f) => Err(f)
    case Ok(v) => Ok(Truthy(v))
  }

  function NotConfirmed(): Failure {
    Raised(AuthError, "Authentication not confirmed", "AUTH_FAILED")
  }

  // ---------------------------------------------------------------------------
  // _authenticate

  /** The `authenticate` call of the handshake; its `session_id` is adopted at once. */
  function HelloStep(s: Session, agentName: string): (r: (Result<Json, Failure>, Session))
    ensures r.0.Ok? ==> Subscript(r.0.value, "session_id").Ok? && r.1.sessionId == Subscript(r.0.value, "session_id").value
    ensures r.0.Err? ==> r.1.sessionId == s.sessionId
  {
    var (first, t) := CallStep(s, "authenticate", AuthenticateParams(agentName));
    if first.Err? then (first, t)
    else
      match Subscript(first.value, "session_id")
      case Err(f) => (Err(f), t)
      case Ok(sid) => (first, t.(sessionId := sid))
  }

  /**
   * The rest of the handshake once `first` has been received: the challenge is decoded
   * and signed, sent back with the (already adopted) session id, and the daemon must
   * confirm with a truthy `authenticated`.
   */
  function RespondStep(s: Session, seed: seq<byte>, first: Json, sign: (seq<byte>, seq<byte>) -> seq<byte>)
    : (r: (Result<(), Failure>, Session))
    ensures r.1.sessionId == s.sessionId && r.1.sock == s.sock && r.1.leases == s.leases
  {
    match Challenge(first)
    case Err(f) => (Err(f), s)
    case Ok(challenge) =>
      var (second, t) := CallStep(s, "challenge_response", ChallengeParams(s.sessionId, Hex.Encode(sign(seed, challenge))));
      if second.Err? then (Err(second.error), t)
      else
        match Confirmation(second.value)
        case Err(f) => (Err(f), t)
        case Ok(confirmed) => if confirmed then (Ok(()), t) else (Err(NotConfirmed()), t)
  }

  /** The two calls of the handshake, signing with `seed`. */
  function HandshakeStep(s: Session, agentName: string, seed: seq<byte>,
                         sign: (seq<byte>, seq<byte>) -> seq<byte>): (r: (Result<(), Failure>, Session))
    ensures r.1.sock == s.sock && r.1.leases == s.leases
  {
    var (first, t) := HelloStep(s, agentName);
    if first.Err? then (Err(first.error), t) else RespondStep(t, seed, first.value, sign)
  }

  /** `_authenticate`: the key is resolved before anything is sent. */
  function AuthenticateStep(s: Session, agentName: string, key: KeySource,
                            sign: (seq<byte>, seq<byte>) -> seq<byte>): (r: (Result<(), Failure>, Session))
    ensures r.1.sock == s.sock && r.1.leases == s.leases
    ensures ResolveKey(key).Err? ==> r == (Err(ResolveKey(key).error), s)
  {
    match ResolveKey(key)
    case Err(f) => (Err(f), s)
    case Ok(seed) => HandshakeStep(s, agentName, seed, sign)
  }

  /** The first step writes the `authenticate` request and adopts the answer's session id; it touches nothing else. */
  lemma {:induction false} HelloFacts(s: Session, agentName: string)
    ensures var (first, t) := HelloStep(s, agentName);
      && t.sock == s.sock && t.leases == s.leases
      && (IdsIncreasing(s) ==> IdsIncreasing(t))
      && (first.Ok? ==>
            && t.sessionId == Subscript(first.value, "session_id").value
            && first == CallStep(s, "authenticate", AuthenticateParams(agentName)).0
            && t.sent == s.sent + [Request(s.reqId + 1, "authenticate", AuthenticateParams(agentName))]
            && t.reqId == s.reqId + 1)
      && (first.Err? ==> t.sessionId == s.sessionId)
  {
    var (first, c) := CallStep(s, "authenticate", AuthenticateParams(agentName));
    CallKeepsIds(s, "authenticate", AuthenticateParams(agentName));
    if s.sock.Some? {
      CallConnected(s, "authenticate", AuthenticateParams(agentName));
    }
    if first.Ok? {
      CallOkWrites(s, "authenticate", AuthenticateParams(agentName));
    }
  }

  /**
   * The second step keeps the session id; when it succeeds it has written exactly the
   * `challenge_response` request carrying that session id and the hex signature of
   * the decoded challenge, and the confirmation was truthy.
   */
  lemma {:induction false} RespondFacts(s: Session, seed: seq<byte>, first: Json, sign: (seq<byte>, seq<byte>) -> seq<byte>)
    ensures var (r, t) := RespondStep(s, seed, first, sign);
      && t.sock == s.sock && t.leases == s.leases && t.sessionId == s.sessionId
      && (IdsIncreasing(s) ==> IdsIncreasing(t))
      && (r.Ok? ==>
            && Challenge(first).Ok?
            && var response := ChallengeParams(s.sessionId, Hex.Encode(sign(seed, Challenge(first).value)));
            && t.sent == s.sent + [Request(s.reqId + 1, "challenge_response", response)]
            && t.reqId == s.reqId + 1
            && Confirmation(CallStep(s, "challenge_response", response).0.value) == Ok(true))
  {
    if Challenge(first).Ok? {
      var response := ChallengeParams(s.sessionId, Hex.Encode(sign(seed, Challenge(first).value)));
      var (second, c) := CallStep(s, "challenge_response", response);
      assert RespondStep(s, seed, first, sign).1 == c;
      CallKeepsIds(s, "challenge_response", response);
      if s.sock.Some? {
        CallConnected(s, "challenge_response", response);
      }
      if second.Ok? {
        CallOkWrites(s, "challenge_response", response);
      }
    }
  }

  /** A key that cannot be loaded fails the handshake before any request is sent. */
  lemma {:induction false} AuthenticateKeyFirst(s: Session, agentName: string, key: KeySource, sign: (seq<byte>, seq<byte>) -> seq<byte>)
    requires ResolveKey(key).Err?
    ensures AuthenticateStep(s, agentName, key, sign) == (Err(ResolveKey(key).error), s)
  {
  }

  /** A handshake succeeds only as a successful first step followed by a successful second step. */
  lemma {:induction false} AuthenticateOk(s: Session, agentName: string, key: KeySource,
                                          sign: (seq<byte>, seq<byte>) -> seq<byte>)
    requires AuthenticateStep(s, agentName, key, sign).0.Ok?
    ensures ResolveKey(key).Ok?
    ensures var (first, h) := HelloStep(s, agentName);
      && first.Ok? && first == CallStep(s, "authenticate", AuthenticateParams(agentName)).0
      && AuthenticateStep(s, agentName, key, sign) == RespondStep(h, ResolveKey(key).value, first.value, sign)
      && RespondStep(h, ResolveKey(key).value, first.value, sign).0.Ok?
  {
    HelloFacts(s, agentName);
  }

  /**
   * A successful handshake wrote exactly two requests, `authenticate` with the agent
   * name and `challenge_response` with the adopted session id and the hex signature
   * of the decoded challenge.
   */
  lemma {:induction false} AuthenticateWrites(s: Session, agentName: string, key: KeySource,
                                              sign: (seq<byte>, seq<byte>) -> seq<byte>)
    requires AuthenticateStep(s, agentName, key, sign).0.Ok?
    ensures ResolveKey(key).Ok?
    ensures var first := CallStep(s, "authenticate", AuthenticateParams(agentName)).0;
      && first.Ok? && Subscript(first.value, "session_id").Ok? && Challenge(first.value).Ok?
      && var t := AuthenticateStep(s, agentName, key, sign).1;
      && t.sessionId == Subscript(first.value, "session_id").value
      && var response := ChallengeParams(t.sessionId, Hex.Encode(sign(ResolveKey(key).value, Challenge(first.value).value)));
      && t.sent == s.sent + [Request(s.reqId + 1, "authenticate", AuthenticateParams(agentName)),
                             Request(s.reqId + 2, "challenge_response", response)]
      && t.reqId == s.reqId + 2
  {
    var seed := ResolveKey(key).value;
    var (first, h) := HelloStep(s, agentName);
    assert first.Ok?;
    var (r, t) := RespondStep(h, seed, first.value, sign);
    assert AuthenticateStep(s, agentName, key, sign) == (r, t);
    assert r.Ok?;
    HandshakeWrites(s, agentName, seed, sign, first.value, h, t);
  }

  /**
   * `AuthenticateWrites` for a key already resolved to `seed`, with the answer `first`
   * to the `authenticate` call, the session `h` after it and `t` after the second call.
   */
  lemma {:induction false} HandshakeWrites(s: Session, agentName: string, seed: seq<byte>,
                                           sign: (seq<byte>, seq<byte>) -> seq<byte>,
                                           first: Json, h: Session, t: Session)
    requires HelloStep(s, agentName) == (Ok(first), h)
    requires RespondStep(h, seed, first, sign).0.Ok? && RespondStep(h, seed, first, sign).1 == t
    ensures CallStep(s, "authenticate", AuthenticateParams(agentName)).0 == Ok(first)
    ensures Subscript(first, "session_id").Ok? && Challenge(first).Ok?
    ensures t.sessionId == Subscript(first, "session_id").value
    ensures var response := ChallengeParams(t.sessionId, Hex.Encode(sign(seed, Challenge(first).value)));
      && t.sent == s.sent + [Request(s.reqId + 1, "authenticate", AuthenticateParams(agentName)),
                             Request(s.reqId + 2, "challenge_response", response)]
    ensures t.reqId == s.reqId + 2
  {
    var hello := Request(s.reqId + 1, "authenticate", AuthenticateParams(agentName));
    assert CallStep(s, "authenticate", AuthenticateParams(agentName)).0 == Ok(first)
      && Subscript(first, "session_id").Ok?
      && h.sessionId == Subscript(first, "session_id").value
      && h.sent == s.sent + [hello] && h.reqId == s.reqId + 1 by {
      HelloFacts(s, agentName);
    }
    var response := ChallengeParams(h.sessionId, Hex.Encode(sign(seed, Challenge(first).value)));
    var reply := Request(s.reqId + 2, "challenge_response", response);
    assert Challenge(first).Ok? && t.sessionId == h.sessionId
      && t.sent == h.sent + [reply] && t.reqId == h.reqId + 1 by {
      RespondFacts(h, seed, first, sign);
    }
    assert s.sent + [hello] + [reply] == s.sent + [hello, reply];
  }

  /** Once the session id has been adopted, it stays, whatever happens to the challenge step. */
  lemma {:induction false} AuthenticateAdoptsSession(s: Session, agentName: string, key: KeySource, sign: (seq<byte>, seq<byte>) -> seq<byte>)
    requires ResolveKey(key).Ok?
    requires var first := CallStep(s, "authenticate", AuthenticateParams(agentName)).0;
      first.Ok? && Subscript(first.value, "session_id").Ok?
    ensures AuthenticateStep(s, agentName, key, sign).1.sessionId
      == Subscript(CallStep(s, "authenticate", AuthenticateParams(agentName)).0.value, "session_id").value
  {
    var (first, h) := HelloStep(s, agentName);
    RespondFacts(h, ResolveKey(key).value, first.value, sign);
  }

  /**
   * When the daemon answers the signed challenge without a truthy `authenticated`, the
   * handshake raises `AuthError` with code `AUTH_FAILED`, both requests having been written.
   */
  lemma {:induction false} AuthenticateNotConfirmed(s: Session, agentName: string, key: KeySource, sign: (seq<byte>, seq<byte>) -> seq<byte>)
    requires ResolveKey(key).Ok?
    requires var (first, h) := HelloStep(s, agentName);
      && first.Ok? && Challenge(first.value).Ok?
      && var response := ChallengeParams(h.sessionId, Hex.Encode(sign(ResolveKey(key).value, Challenge(first.value).value)));
      && var second := CallStep(h, "challenge_response", response).0;
      && second.Ok? && Confirmation(second.value) == Ok(false)
    ensures AuthenticateStep(s, agentName, key, sign).0 == Err(NotConfirmed())
    ensures NotConfirmed().vault.kind == AuthError && NotConfirmed().vault.code == Str("AUTH_FAILED")
    ensures |AuthenticateStep(s, agentName, key, sign).1.sent| == |s.sent| + 2
  {
    var (first, h) := HelloStep(s, agentName);
    HelloFacts(s, agentName);
    var response := ChallengeParams(h.sessionId, Hex.Encode(sign(ResolveKey(key).value, Challenge(first.value).value)));
    CallOkWrites(h, "challenge_response", response);
  }

  /** The handshake changes neither the socket nor the leases, and keeps request ids strictly increasing. */
  lemma {:induction false} AuthenticateFrame(s: Session, agentName: string, key: KeySource, sign: (seq<byte>, seq<byte>) -> seq<byte>)
    ensures AuthenticateStep(s, agentName, key, sign).1.sock == s.sock
    ensures AuthenticateStep(s, agentName, key, sign).1.leases == s.leases
    ensures IdsIncreasing(s) ==> IdsIncreasing(AuthenticateStep(s, agentName, key, sign).1)
  {
    var (first, h) := HelloStep(s, agentName);
    HelloFacts(s, agentName);
    if ResolveKey(key).Ok? && first.Ok? {
      RespondFacts(h, ResolveKey(key).value, first.value, sign);
    }
  }

  // ---------------------------------------------------------------------------
  // retrieve, retrieve_raw, list, release_lease, use

  /** The part `retrieve` and `retrieve_raw` share: the `retrieve` call, then tracking `r["lease_id"]`. */
  function FetchStep(s: Session, path: string, ttl: Option<int>): (r: (Result<Json, Failure>, Session))
    ensures r.1.sock == s.sock && r.1.sessionId == s.sessionId
    ensures |s.leases| <= |r.1.leases| <= |s.leases| + 1 && r.1.leases[..|s.leases|] == s.leases
  {
    var (r, s1) := CallStep(s, "retrieve", RetrieveParams(s.sessionId, path, ttl));
    if r.Err? then (r, s1)
    else
      match Subscript(r.value, "lease_id")
      case Err(f) => (Err(f), s1)
      case Ok(lid) => (r, s1.(leases := s1.leases + [lid]))
  }

  /** `retrieve`: the value field decoded from hex (the lossy UTF-8 decoding of those bytes is not modelled). */
  function RetrieveStep(s: Session, path: string, ttl: Option<int>): (r: (Result<seq<byte>, Failure>, Session))
    ensures r.1 == FetchStep(s, path, ttl).1
    ensures r.0.Ok? ==> FetchStep(s, path, ttl).0.Ok?
  {
    var (r, t) := FetchStep(s, path, ttl);
    if r.Err? then (Err(r.error), t)
    else
      match Subscript(r.value, "value")
      case Err(f) => (Err(f), t)
      case Ok(v) => (FromHex(v), t)
  }

  /** `retrieve_raw`: the whole result dict. */
  function RetrieveRawStep(s: Session, path: string, ttl: Option<int>): (r: (Result<Json, Failure>, Session))
    ensures r.0.Ok? ==>
      Subscript(r.0.value, "lease_id").Ok? && r.1.leases == s.leases + [Subscript(r.0.value, "lease_id").value]
  {
    FetchStep(s, path, ttl)
  }

  /**
   * The lease is appended exactly when the call succeeds and names a lease, and then
   * it is the last one; otherwise the leases are as they were.  A value that then
   * fails to decode leaves the lease tracked.
   */
  lemma {:induction false} FetchLeases(s: Session, path: string, ttl: Option<int>)
    ensures var (r, s1) := CallStep(s, "retrieve", RetrieveParams(s.sessionId, path, ttl));
      var t := FetchStep(s, path, ttl).1;
      && (r.Ok? && Subscript(r.value, "lease_id").Ok? ==> t.leases == s.leases + [Subscript(r.value, "lease_id").value])
      && (r.Err? || Subscript(r.value, "lease_id").Err? ==> t.leases == s.leases)
      && (FetchStep(s, path, ttl).0.Ok? <==> r.Ok? && Subscript(r.value, "lease_id").Ok?)
      && t.sent == s1.sent
    ensures RetrieveStep(s, path, ttl).1 == FetchStep(s, path, ttl).1
    ensures RetrieveStep(s, path, ttl).0.Ok? ==>
      |RetrieveStep(s, path, ttl).1.leases| == |s.leases| + 1 && FetchStep(s, path, ttl).0.Ok?
  {
    var (r, s1) := CallStep(s, "retrieve", RetrieveParams(s.sessionId, path, ttl));
    if s.sock.Some? {
      CallConnected(s, "retrieve", RetrieveParams(s.sessionId, path, ttl));
    }
  }

  /** A retrieved value is the bytes whose hex the daemon sent. */
  lemma {:induction false} RetrieveValue(s: Session, path: string, ttl: Option<int>, value: seq<byte>)
    requires var r := FetchStep(s, path, ttl).0; r.Ok? && Subscript(r.value, "value") == Ok(Str(Hex.Encode(value)))
    ensures RetrieveStep(s, path, ttl).0 == Ok(value)
  {
    Hex.DecodeEncode(value);
  }

  /** `list`: `r.get("credentials", [])`. */
  function ListStep(s: Session): (r: (Result<Json, Failure>, Session))
    ensures r.1 == CallStep(s, "list", ListParams(s.sessionId)).1
    ensures r.0.Ok? ==> CallStep(s, "list", ListParams(s.sessionId)).0.Ok?
  {
    var (r, t) := CallStep(s, "list", ListParams(s.sessionId));
    if r.Err? then (r, t) else (GetDefault(r.value, "credentials", Arr([])), t)
  }

  /** `release_lease`: the id is dropped (its first occurrence) only once the daemon has acknowledged it. */
  function ReleaseStep(s: Session, leaseId: Json): (r: (Result<(), Failure>, Session))
    ensures r.1.sock == s.sock && r.1.sessionId == s.sessionId
    ensures |r.1.leases| == if r.0.Ok? && leaseId in s.leases then |s.leases| - 1 else |s.leases|
  {
    var (r, t) := CallStep(s, "release_lease", ReleaseParams(leaseId));
    if r.Err? then (Err(r.error), t)
    else if leaseId in t.leases then (Ok(()), t.(leases := RemoveFirst(t.leases, leaseId)))
    else (Ok(()), t)
  }

  /** `use`: the call's result is the operation's result. */
  function UseStep(s: Session, path: string, operation: string, params: Json): (r: (Result<Json, Failure>, Session))
    ensures r.1.leases == s.leases && r.1.sock == s.sock && r.1.sessionId == s.sessionId
  {
    CallStep(s, "use", UseParams(s.sessionId, path, operation, params))
  }

  /**
   * A failed release leaves the leases alone; a successful one removes exactly one copy
   * of a tracked id and changes nothing for an untracked one.
   */
  lemma {:induction false} ReleaseLeases(s: Session, leaseId: Json)
    ensures var (r, t) := ReleaseStep(s, leaseId);
      && (r.Err? ==> t.leases == s.leases && r == Err(CallStep(s, "release_lease", ReleaseParams(leaseId)).0.error))
      && (r.Ok? && leaseId !in s.leases ==> t.leases == s.leases)
      && (r.Ok? && leaseId in s.leases ==> multiset(t.leases) == multiset(s.leases) - multiset{leaseId})
      && (r.Ok? <==> CallStep(s, "release_lease", ReleaseParams(leaseId)).0.Ok?)
      && t.sock == s.sock
  {
    var (r, t) := ReleaseStep(s, leaseId);
    if s.sock.Some? {
      CallConnected(s, "release_lease", ReleaseParams(leaseId));
    }
    if r.Ok? && leaseId in s.leases {
      RemoveFirstMultiset(s.leases, leaseId);
    }
  }

  /** `list` and `use` never touch the leases, the socket or the session id. */
  lemma {:induction false} ListAndUseKeepLeases(s: Session, path: string, operation: string, params: Json)
    ensures ListStep(s).1.leases == s.leases && UseStep(s, path, operation, params).1.leases == s.leases
    ensures ListStep(s).1.sessionId == s.sessionId && UseStep(s, path, operation, params).1.sessionId == s.sessionId
    ensures ListStep(s).1.sock == s.sock && UseStep(s, path, operation, params).1.sock == s.sock
    ensures ListStep(s).0.Ok? && CallStep(s, "list", ListParams(s.sessionId)).0.value.Obj? ==>
      ListStep(s).0.value == GetOr(CallStep(s, "list", ListParams(s.sessionId)).0.value.fields, "credentials", Arr([]))
  {
    if s.sock.Some? {
      CallConnected(s, "list", ListParams(s.sessionId));
      CallConnected(s, "use", UseParams(s.sessionId, path, operation, params));
    }
  }

  // ---------------------------------------------------------------------------
  // close

  /**
   * The loop of `close` over a snapshot of the lease ids: each is released in turn, a
   * `VaultError` is swallowed and the next id tried; any other exception ends `close`.
   */
  function Sweep(s: Session, ids: seq<Json>): (r: (Result<(), Failure>, Session))
    ensures r.0.Err? ==> r.0.error.Python?
    ensures r.1.sock == s.sock && r.1.sessionId == s.sessionId
    decreases |ids|
  {
    if ids == [] then (Ok(()), s)
    else
      var (r, t) := ReleaseStep(s, ids[0]);
      if r.Err? && r.error.Python? then (r, t) else Sweep(t, ids[1..])
  }

  /** One release of the sweep, with its outcome `(r, t)` given. */
  lemma {:induction false} SweepFirst(s: Session, ids: seq<Json>, r: Result<(), Failure>, t: Session)
    requires ids != [] && (r, t) == ReleaseStep(s, ids[0])
    ensures Sweep(s, ids) == if r.Err? && r.error.Python? then (r, t) else Sweep(t, ids[1..])
  {
  }

  /** `close`: the sweep, then `_sock` and `_session_id` are cleared. */
  function CloseStep(s: Session): (r: (Result<(), Failure>, Session))
    ensures r.0.Ok? ==> r.1.sock.None? && r.1.sessionId == Null
    ensures r.0.Err? ==> r.0.error.Python? && r.1.sock == s.sock && r.1.sessionId == s.sessionId
  {
    var (r, t) := Sweep(s, s.leases);
    if r.Err? then (r, t) else (Ok(()), t.(sock := None, sessionId := Null))
  }

  /** The ids of the sweep whose release raised a `VaultError`. */
  function Refused(s: Session, ids: seq<Json>): (refused: seq<Json>)
    ensures multiset(refused) <= multiset(ids)
    decreases |ids|
  {
    if ids == [] then []
    else
      var (r, t) := ReleaseStep(s, ids[0]);
      if r.Err? && r.error.Python? then []
      else
        assert ids == [ids[0]] + ids[1..];
        (if r.Err? then [ids[0]] else []) + Refused(t, ids[1..])
  }

  /** The refused ids of a sweep, with the outcome `(r, t)` of its first release given. */
  lemma {:induction false} RefusedFirst(s: Session, ids: seq<Json>, r: Result<(), Failure>, t: Session)
    requires ids != [] && (r, t) == ReleaseStep(s, ids[0])
    ensures Refused(s, ids) == if r.Err? && r.error.Python? then [] else (if r.Err? then [ids[0]] else []) + Refused(t, ids[1..])
  {
  }

  /** The multiset bookkeeping of one sweep step: `x` is removed when `released`, or else counted as refused. */
  lemma {:induction false} SweepCount<T>(before: multiset<T>, after: multiset<T>, x: T, rest: multiset<T>,
                                         refused: multiset<T>, more: multiset<T>, released: bool)
    requires multiset{x} + rest <= before
    requires after == if released then before - multiset{x} else before
    requires refused == if released then multiset{} else multiset{x}
    ensures rest <= after
    ensures after - rest + more == before - (multiset{x} + rest) + (refused + more)
  {
  }

  /** What one release does to the multiset of leases: a tracked id leaves exactly when the release succeeds. */
  lemma {:induction false} ReleaseCount(s: Session, x: Json)
    requires x in s.leases
    ensures var (r, t) := ReleaseStep(s, x);
      multiset(t.leases) == if r.Ok? then multiset(s.leases) - multiset{x} else multiset(s.leases)
  {
    if ReleaseStep(s, x).0.Ok? {
      RemoveFirstMultiset(CallStep(s, "release_lease", ReleaseParams(x)).1.leases, x);
    }
  }

  /** What one release of the sweep does to the leases and to the refused ids. */
  lemma {:induction false} SweepStepFacts(s: Session, ids: seq<Json>, r: Result<(), Failure>, t: Session)
    requires ids != [] && (r, t) == ReleaseStep(s, ids[0]) && !(r.Err? && r.error.Python?)
    requires ids[0] in s.leases
    ensures Refused(s, ids) == (if r.Ok? then [] else [ids[0]]) + Refused(t, ids[1..])
    ensures multiset(t.leases) == if r.Ok? then multiset(s.leases) - multiset{ids[0]} else multiset(s.leases)
  {
    RefusedFirst(s, ids, r, t);
    ReleaseCount(s, ids[0]);
  }

  /** The multiset bookkeeping of one swept id: released, or else counted as refused. */
  lemma {:induction false} SweepStepCount(ids: seq<Json>, before: seq<Json>, after: seq<Json>,
                                          refusedAll: seq<Json>, refusedRest: seq<Json>, released: bool)
    requires ids != [] && multiset(ids) <= multiset(before)
    requires multiset(after) == if released then multiset(before) - multiset{ids[0]} else multiset(before)
    requires refusedAll == (if released then [] else [ids[0]]) + refusedRest
    ensures multiset(ids[1..]) <= multiset(after)
    ensures multiset(after) - multiset(ids[1..]) + multiset(refusedRest)
         == multiset(before) - multiset(ids) + multiset(refusedAll)
  {
    var refused: seq<Json> := if released then [] else [ids[0]];
    assert multiset(ids) == multiset{ids[0]} + multiset(ids[1..]) by {
      assert ids == [ids[0]] + ids[1..];
    }
    assert multiset(refusedAll) == multiset(refused) + multiset(refusedRest);
    SweepCount(multiset(before), multiset(after), ids[0], multiset(ids[1..]), multiset(refused),
               multiset(refusedRest), released);
  }

  /**
   * A sweep that runs to the end leaves the leases that were not swept, plus the swept
   * ids whose release was refused.
   */
  lemma {:induction false} SweepLeases(s: Session, ids: seq<Json>)
    requires multiset(ids) <= multiset(s.leases)
    ensures Sweep(s, ids).0.Ok? ==>
      multiset(Sweep(s, ids).1.leases) == multiset(s.leases) - multiset(ids) + multiset(Refused(s, ids))
    decreases |ids|
  {
    if ids != [] {
      var (r, t) := ReleaseStep(s, ids[0]);
      assert Sweep(s, ids) == if r.Err? && r.error.Python? then (r, t) else Sweep(t, ids[1..]) by {
        SweepFirst(s, ids, r, t);
      }
      if !(r.Err? && r.error.Python?) {
        assert ids[0] in s.leases by {
          assert ids[0] in multiset(ids);
        }
        SweepStepFacts(s, ids, r, t);
        SweepStepCount(ids, s.leases, t.leases, Refused(s, ids), Refused(t, ids[1..]), r.Ok?);
        SweepLeases(t, ids[1..]);
      }
    }
  }

  /** After a `close` that returns, the socket and session are gone and every refused id is still tracked. */
  lemma {:induction false} CloseResets(s: Session)
    requires CloseStep(s).0.Ok?
    ensures CloseStep(s).1.sock.None? && CloseStep(s).1.sessionId == Null
    ensures multiset(CloseStep(s).1.leases) == multiset(Refused(s, s.leases))
    ensures forall x :: x in Refused(s, s.leases) ==> x in CloseStep(s).1.leases
  {
    SweepLeases(s, s.leases);
    var t := CloseStep(s).1;
    forall x | x in Refused(s, s.leases)
      ensures x in t.leases
    {
      assert x in multiset(Refused(s, s.leases));
      assert x in multiset(t.leases);
    }
  }

  /** Without a socket every release raises "Not connected", which is swallowed: nothing is sent and no lease is lost. */
  lemma {:induction false} SweepUnconnected(s: Session, ids: seq<Json>)
    requires s.sock.None?
    ensures Sweep(s, ids) == (Ok(()), s)
    ensures Refused(s, ids) == ids
    decreases |ids|
  {
    if ids != [] {
      assert ReleaseStep(s, ids[0]) == (Err(Internal("Not connected")), s);
      SweepUnconnected(s, ids[1..]);
    }
  }

  /** A second `close` raises nothing and changes nothing. */
  lemma {:induction false} CloseTwice(s: Session)
    requires CloseStep(s).0.Ok?
    ensures CloseStep(CloseStep(s).1) == (Ok(()), CloseStep(s).1)
  {
    var t := CloseStep(s).1;
    SweepUnconnected(t, t.leases);
  }

  // ---------------------------------------------------------------------------
  // connect

  /**
   * `connect` after the target has been resolved to `endpoint`: a socket object is
   * made; if its `connect` raises, it stays in `_sock` and the error propagates;
   * otherwise the handshake runs.  A failed handshake leaves the socket in place.
   */
  function ConnectStep(s: Session, endpoint: Endpoint, reachable: bool, agentName: string, key: KeySource,
                       sign: (seq<byte>, seq<byte>) -> seq<byte>): (r: (Result<(), Failure>, Session))
    ensures r.1.sock == Some(Conn(endpoint, reachable)) && r.1.leases == s.leases
    ensures !reachable ==> r.1.sent == s.sent
  {
    if !reachable then (Err(Python(OSError)), s.(sock := Some(Conn(endpoint, false))))
    else AuthenticateStep(s.(sock := Some(Conn(endpoint, true))), agentName, key, sign)
  }

  /** `retrieve` and `retrieve_raw` keep request ids strictly increasing. */
  lemma {:induction false} RetrieveKeepsIds(s: Session, path: string, ttl: Option<int>)
    requires IdsIncreasing(s)
    ensures IdsIncreasing(RetrieveStep(s, path, ttl).1) && IdsIncreasing(RetrieveRawStep(s, path, ttl).1)
  {
    var c := CallStep(s, "retrieve", RetrieveParams(s.sessionId, path, ttl)).1;
    CallKeepsIds(s, "retrieve", RetrieveParams(s.sessionId, path, ttl));
    assert FetchStep(s, path, ttl).1.sent == c.sent && FetchStep(s, path, ttl).1.reqId == c.reqId;
  }

  /** `list` and `use` keep request ids strictly increasing. */
  lemma {:induction false} ListAndUseKeepIds(s: Session, path: string, operation: string, params: Json)
    requires IdsIncreasing(s)
    ensures IdsIncreasing(ListStep(s).1) && IdsIncreasing(UseStep(s, path, operation, params).1)
  {
    CallKeepsIds(s, "list", ListParams(s.sessionId));
    CallKeepsIds(s, "use", UseParams(s.sessionId, path, operation, params));
  }

  /** The sweep of `close` keeps request ids strictly increasing too. */
  lemma {:induction false} SweepKeepsIds(s: Session, ids: seq<Json>)
    requires IdsIncreasing(s)
    ensures IdsIncreasing(Sweep(s, ids).1)
    decreases |ids|
  {
    if ids != [] {
      CallKeepsIds(s, "release_lease", ReleaseParams(ids[0]));
      var t := ReleaseStep(s, ids[0]).1;
      assert t.sent == CallStep(s, "release_lease", ReleaseParams(ids[0])).1.sent;
      assert t.reqId == CallStep(s, "release_lease", ReleaseParams(ids[0])).1.reqId;
      SweepKeepsIds(t, ids[1..]);
    }
  }

  // ---------------------------------------------------------------------------

  class SanctumClient {
    const agentName: string
    var socketPath: Option<string>
    var host: Option<string>
    var port: Option<int>
    /** `_sock`: `None` until `connect` and after `close`. */
    var sock: Option<Conn>
    /** `_session_id`; `Null` stands for `None`. */
    var sessionId: Json
    /** `_req_id`: the last request id handed out. */
    var reqId: nat
    /** `_leases`: the lease ids to release on `close`. */
    var leases: seq<Json>
    /** The requests written to the socket, in order. */
    var sent: seq<Request>
    /** The daemon's replies still to be received, in order. */
    var replies: seq<Result<Json, Failure>>

    function State(): Session
      reads this
    {
      Session(sock, sessionId, reqId, leases, sent, replies)
    }

    function Settings(): Address
      reads this
    {
      Address(socketPath, host, port)
    }

    /** `SanctumClient(agent_name, socket_path=..., host=..., port=...)` facing a daemon that will send `script`. */
    constructor (agentName: string, socketPath: Option<string>, host: Option<string>, port: Option<int>,
                 script: seq<Result<Json, Failure>>)
      ensures this.agentName == agentName && Settings() == Address(socketPath, host, port)
      ensures State() == Session(None, Null, 0, [], [], script)
      ensures IdsIncreasing(State())
    {
      this.agentName := agentName;
      this.socketPath, this.host, this.port := socketPath, host, port;
      sock, sessionId, reqId, leases := None, Null, 0, [];
      sent, replies := [], script;
    }

    /** `_next_id`. */
    method NextId() returns (id: nat)
      modifies this`reqId
      ensures reqId == old(reqId) + 1 && id == reqId
    {
      reqId := reqId + 1;
      id := reqId;
    }

    /** `_call(method, params)`. */
    method Call(rpc: string, params: Json) returns (r: Result<Json, Failure>)
      modifies this
      ensures (r, State()) == CallStep(old(State()), rpc, params)
      ensures Settings() == old(Settings())
    {
      if sock.None? {
        return Err(Internal("Not connected"));
      }
      var id := NextId();
      var req := Request(id, rpc, params);
      if EncodeFrame(RequestJson(req)).Err? {
        return Err(Python(StructError));
      }
      if !sock.value.open {
        return Err(Python(OSError));
      }
      sent := sent + [req];
      r := Answer(replies);
      if replies != [] {
        replies := replies[1..];
      }
    }

    /** `_authenticate`, with the key as `_resolve_key` finds it and Ed25519 signing as `sign`. */
    method Authenticate(key: KeySource, sign: (seq<byte>, seq<byte>) -> seq<byte>) returns (r: Result<(), Failure>)
      modifies this
      ensures (r, State()) == AuthenticateStep(old(State()), agentName, key, sign)
      ensures Settings() == old(Settings())
    {
      var seed := ResolveKey(key);
      if seed.Err? {
        return Err(seed.error);
      }
      var first := Call("authenticate", AuthenticateParams(agentName));
      if first.Err? {
        return Err(first.error);
      }
      var sid := Subscript(first.value, "session_id");
      if sid.Err? {
        return Err(sid.error);
      }
      sessionId := sid.value;
      var challenge := Challenge(first.value);
      if challenge.Err? {
        return Err(challenge.error);
      }
      var signature := sign(seed.value, challenge.value);
      var second := Call("challenge_response", ChallengeParams(sessionId, Hex.Encode(signature)));
      if second.Err? {
        return Err(second.error);
      }
      var confirmed := Confirmation(second.value);
      if confirmed.Err? {
        return Err(confirmed.error);
      }
      if !confirmed.value {
        return Err(NotConfirmed());
      }
      r := Ok(());
    }

    /**
     * `connect(target)`: the target overrides the settings, the endpoint is chosen
     * from them, and `reachable` says whether the socket's `connect` succeeds.
     */
    method Connect(target: Target, reachable: bool, key: KeySource, sign: (seq<byte>, seq<byte>) -> seq<byte>)
      returns (r: Result<(), Failure>)
      modifies this
      ensures Settings() == Retarget(old(Settings()), target)
      ensures (r, State()) == ConnectStep(old(State()), ChooseEndpoint(Settings()), reachable, agentName, key, sign)
    {
      var a := Retarget(Settings(), target);
      socketPath, host, port := a.socketPath, a.host, a.port;
      var endpoint := ChooseEndpoint(a);
      if !reachable {
        sock := Some(Conn(endpoint, false));
        return Err(Python(OSError));
      }
      sock := Some(Conn(endpoint, true));
      r := Authenticate(key, sign);
    }

    /** `retrieve(path, ttl=ttl)`, up to the UTF-8 decoding of the bytes. */
    method Retrieve(path: string, ttl: Option<int>) returns (r: Result<seq<byte>, Failure>)
      modifies this
      ensures (r, State()) == RetrieveStep(old(State()), path, ttl)
      ensures Settings() == old(Settings())
    {
      var result := Call("retrieve", RetrieveParams(sessionId, path, ttl));
      if result.Err? {
        return Err(result.error);
      }
      var lid := Subscript(result.value, "lease_id");
      if lid.Err? {
        return Err(lid.error);
      }
      leases := leases + [lid.value];
      var value := Subscript(result.value, "value");
      if value.Err? {
        return Err(value.error);
      }
      r := FromHex(value.value);
    }

    /** `retrieve_raw(path, ttl=ttl)`. */
    method RetrieveRaw(path: string, ttl: Option<int>) returns (r: Result<Json, Failure>)
      modifies this
      ensures (r, State()) == RetrieveRawStep(old(State()), path, ttl)
      ensures Settings() == old(Settings())
    {
      r := Call("retrieve", RetrieveParams(sessionId, path, ttl));
      if r.Err? {
        return;
      }
      var lid := Subscript(r.value, "lease_id");
      if lid.Err? {
        return Err(lid.error);
      }
      leases := leases + [lid.value];
    }

    /** `list()`. */
    method List() returns (r: Result<Json, Failure>)
      modifies this
      ensures (r, State()) == ListStep(old(State()))
      ensures Settings() == old(Settings())
    {
      var result := Call("list", ListParams(sessionId));
      if result.Err? {
        return result;
      }
      r := GetDefault(result.value, "credentials", Arr([]));
    }

    /** `release_lease(lease_id)`. */
    method ReleaseLease(leaseId: Json) returns (r: Result<(), Failure>)
      modifies this
      ensures (r, State()) == ReleaseStep(old(State()), leaseId)
      ensures Settings() == old(Settings())
    {
      var result := Call("release_lease", ReleaseParams(leaseId));
      if result.Err? {
        return Err(result.error);
      }
      if leaseId in leases {
        leases := RemoveFirst(leases, leaseId);
      }
      r := Ok(());
    }

    /** `use(path, operation, params)`; `Null` stands for `params=None`. */
    method Use(path: string, operation: string, params: Json) returns (r: Result<Json, Failure>)
      modifies this
      ensures (r, State()) == UseStep(old(State()), path, operation, params)
      ensures Settings() == old(Settings())
    {
      r := Call("use", UseParams(sessionId, path, operation, params));
    }

    /** `close()`. */
    method Close() returns (r: Result<(), Failure>)
      modifies this
      ensures (r, State()) == CloseStep(old(State()))
      ensures Settings() == old(Settings())
    {
      var snapshot := leases;
      var i := 0;
      while i < |snapshot|
        invariant i <= |snapshot|
        invariant Sweep(State(), snapshot[i..]) == Sweep(old(State()), snapshot)
        invariant Settings() == old(Settings())
      {
        ghost var before := State();
        var released := ReleaseLease(snapshot[i]);
        assert snapshot[i..][1..] == snapshot[i + 1..];
        SweepFirst(before, snapshot[i..], released, State());
        if released.Err? && released.error.Python? {
          return released;
        }
        i := i + 1;
      }
      sock := None;
      sessionId := Null;
      r := Ok(());
    }
  }
}
