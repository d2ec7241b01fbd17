# Sanctum Python SDK core, modelled in Dafny

This project models the client side of the Sanctum credential vault protocol, as the package
`sanctum_ai` implements it.

The wire layer (`sanctum_ai/protocol.py`) frames JSON-RPC messages. Each frame is a 4-byte
big-endian length followed by that many bytes of JSON. The layer also turns a response's `error`
field into a typed `VaultError`.

The session layer (`sanctum_ai/client.py`) is the `SanctumClient` object. It does the following:

- resolves the connection target;
- numbers its requests 1, 2, 3, ...;
- runs the Ed25519 challenge-response handshake;
- tracks every credential lease it is handed;
- releases those leases on `close`.

Modules:

- `Base` holds bytes, `Option` and `Result`.
- `Json` holds JSON values as `json.loads` returns them. It also holds a byte encoding with a
  proved round trip.
- `Hex` is `bytes.hex` / `bytes.fromhex`.
- `Errors` holds the exception classes and the wire error-code table.
- `Protocol` holds `struct.pack(">I")`, `encode_frame`, `decode_frame` and `raise_on_error`.
- `Stream` holds `send`, `recv` and `_read_exact` over an imperative socket model. That model has
  a queue of chunks the peer delivers and a log of written bytes.
- `Client` holds `SanctumClient`, in two parts:
  - The class `Client.SanctumClient` has the object's fields. Its methods update those fields
    step by step, as the Python methods do.
  - A `Session` value holds the object's state. Pure step functions (`CallStep`,
    `AuthenticateStep`, `FetchStep`, `ReleaseStep`, `Sweep`/`CloseStep`, `ConnectStep`, ...)
    say what each operation does to that state.

Every method of the class is proved to produce exactly the result and the new state its step
function gives. The properties of the operations are lemmas about the step functions.

Inside the client, the socket is the client's own record of it:

- `sock` says whether a socket object exists and whether its `connect` succeeded;
- `sent` is the list of requests written to it;
- `replies` holds what the daemon will answer, one decoded response (or the failure `recv`
  raises) per `recv`.

The byte-level behaviour of `send` and `recv` is modelled and proved separately, in `Stream`.

Where the design description and the code disagree, the model follows the code:

- A handshake failure inside `connect` does not close the socket: `_sock` stays set
  (`Client.ConnectStep`).
- Request ids count per client object, not per connection: `_req_id` is never reset, not even by
  `close` (`Client.CallKeepsIds`, `Client.SweepKeepsIds`).
- `retrieve` appends the lease id before it decodes the value. A value that is not hex therefore
  raises with the lease still tracked (`Client.FetchLeases`).
- `close` swallows only `VaultError` (client.py:94-95). Any other failure of a release, such as
  an `OSError` from the socket or a `JSONDecodeError` from a bad reply, ends the sweep and leaves
  `close`: `_sock` stays set and `_session_id` is kept (`Client.CloseStep`).

## Model

| member | source | states |
|---|---|---|
| Protocol.PackU32 | sanctum_ai/protocol.py:19 | the length prefix is always four bytes |
| Protocol.UnpackU32 | sanctum_ai/protocol.py:24 | an unpacked length is below 2**32 |
| Protocol.UnpackPack | sanctum_ai/protocol.py:54 | unpacking a packed length gives the length back |
| Protocol.PackUnpack | sanctum_ai/protocol.py:61 | packing the unpacked value of any four bytes gives those bytes back |
| Protocol.EncodeFrame | sanctum_ai/protocol.py:51-54 | a frame is four prefix bytes followed by exactly the serialized payload |
| Protocol.DecodeFrame | sanctum_ai/protocol.py:57-65 | what a decode leaves over is a suffix of the input, at least four bytes shorter than it |
| Protocol.FramePrefixIsLength | sanctum_ai/protocol.py:51-54 | a frame is 4 + payload bytes long, its prefix read big-endian is the payload length, and the payload parses back to the object |
| Protocol.EncodeFrameFails | sanctum_ai/protocol.py:54 | framing fails exactly when the payload has 2**32 bytes or more, and then with `struct.error` |
| Protocol.DecodeEncode | sanctum_ai/protocol.py:51-65 | decoding an encoded frame followed by any bytes gives the object and exactly those bytes |
| Protocol.DecodeTwoFrames | sanctum_ai/protocol.py:57-65 | two frames back to back decode one after the other, the first leaving the second intact |
| Protocol.DecodeInvertsEncode | sanctum_ai/protocol.py:57-65 | every successful decode consumed a 4-byte length, a payload of that length that parses to the object, and left the rest |
| Protocol.DecodeShortHeader | sanctum_ai/protocol.py:59-60 | "Incomplete frame header" is raised if and only if fewer than 4 bytes are given |
| Protocol.DecodeShortBody | sanctum_ai/protocol.py:61-63 | "Incomplete frame body" is raised if and only if the header is whole and fewer body bytes than it declares follow |
| Protocol.RaiseOnError | sanctum_ai/protocol.py:30-34 | a response passes if and only if it is a dict whose `error` is absent or null |
| Protocol.BareStringError | sanctum_ai/protocol.py:35-37 | a string error raises a plain `VaultError` with that message and no code |
| Protocol.StructuredFailure | sanctum_ai/protocol.py:38-48 | a structured error always raises; the only non-`VaultError` it can raise is `TypeError` (an unhashable code), and a specific class always carries its own wire code |
| Protocol.StructuredErrorKind | sanctum_ai/protocol.py:39-41 | the code defaults to `INTERNAL_ERROR`; the class is the one the code maps to, or `VaultError` for an unknown or absent code |
| Protocol.StructuredErrorFields | sanctum_ai/protocol.py:42-47 | the message defaults to "Unknown error" and the context to `{}`; detail, suggestion and docs_url pass through |
| Protocol.RaiseOnErrorTotal | sanctum_ai/protocol.py:30-48 | every response either passes, raises a `VaultError`, or fails with `AttributeError` / `TypeError` on a malformed error |
| Stream.Socket.Recv | sanctum_ai/protocol.py:71 | `sock.recv(k)` returns at most `k` bytes, the next ones of the stream, and returns empty only when `k` is 0 or the stream has ended |
| Stream.Socket.SendAll | sanctum_ai/protocol.py:19 | `sendall` appends the whole buffer to what was written |
| Stream.ReadExact | sanctum_ai/protocol.py:68-75 | exactly the next `n` bytes are returned when the stream holds them, else "Connection closed"; each `recv` asks for `n` minus the bytes already read, every chunk but the last is nonempty, and the loop ends at the first empty chunk |
| Stream.Send | sanctum_ai/protocol.py:16-19 | `send` writes exactly `encode_frame(obj)`, or writes nothing and raises `struct.error` |
| Stream.ReceiveOutcome | sanctum_ai/protocol.py:22-27 | `recv` never counts more bytes than the stream holds, and a message it returns took between 4 and 4 + 4 MiB bytes |
| Stream.Receive | sanctum_ai/protocol.py:22-27 | `recv` returns what `ReceiveOutcome` says of the stream and consumes exactly the bytes it counts |
| Stream.ReceiveFrame | sanctum_ai/protocol.py:22-27 | a framed message of at most 4 MiB is received whole and nothing after it is consumed |
| Stream.ReceiveTooLarge | sanctum_ai/protocol.py:24-26 | a declared length above `MAX_MESSAGE_SIZE` raises "Response too large" after reading the header only |
| Stream.ReceiveAgreesWithDecode | sanctum_ai/protocol.py:22-27 | up to 4 MiB, `recv` returns what `decode_frame` returns on the same bytes; an incomplete frame ends as "Connection closed" |
| Errors.CodeToKind | sanctum_ai/protocol.py:40 | only string codes map to a class, and never to the generic `VaultError` |
| Errors.CodeTableInverse | sanctum_ai/protocol.py:40 | the code table is a bijection between the seven wire codes and the seven specific classes |
| Errors.DefaultCodeUnmapped | sanctum_ai/protocol.py:39-40 | the fallback code `INTERNAL_ERROR` maps to the generic `VaultError` |
| Json.Get | sanctum_ai/protocol.py:32 | `d.get(key)` finds a value if and only if some member has that key, and the value is that member's |
| Json.Serialize | sanctum_ai/protocol.py:18 | the stand-in for `json.dumps` never writes an empty payload |
| Json.RoundTrip | sanctum_ai/protocol.py:53-64 | the payload decoder reads back what the encoder wrote |
| Json.ParseSerialize | sanctum_ai/protocol.py:64-65 | the value decoder stops exactly at the end of an encoded value, leaving what follows |
| Hex.Digit | sanctum_ai/client.py:165 | every hex digit written reads back as its value |
| Hex.Encode | sanctum_ai/client.py:165 | `bytes.hex()` writes two non-space characters per byte |
| Hex.Decode | sanctum_ai/client.py:140 | `bytes.fromhex` yields at most one byte per two characters |
| Hex.DecodeEncode | sanctum_ai/client.py:161-165 | `bytes.fromhex(b.hex()) == b` |
| Hex.DecodeSkipsSpace | sanctum_ai/client.py:139-140 | whitespace before the digits does not change what `fromhex` reads |
| Client.RemoveFirst | sanctum_ai/client.py:201-202 | removal shortens the list by one exactly when the id is present |
| Client.RemoveFirstAbsent | sanctum_ai/client.py:201-202 | an id that is not tracked leaves the list unchanged |
| Client.RemoveFirstAt | sanctum_ai/client.py:202 | only the first occurrence is removed, and the others keep their order |
| Client.RemoveFirstMultiset | sanctum_ai/client.py:202 | removing a present id takes away exactly one copy of it |
| Client.Retarget | sanctum_ai/client.py:66-76 | no target keeps the settings; any other target leaves at most one of the socket path and the host set, and an address target sets both host and port |
| Client.ChooseEndpoint | sanctum_ai/client.py:78-84 | a Unix endpoint always has a nonempty path, and a TCP endpoint a nonempty host and a nonzero port |
| Client.EndpointChoice | sanctum_ai/client.py:78-84 | TCP is used if and only if host and port are both truthy; otherwise the Unix socket at the path, or `DEFAULT_SOCKET` |
| Client.TargetDecides | sanctum_ai/client.py:66-84 | a path target means that socket (or the default for an empty path); a host/port target means TCP (or the default socket when either is falsy); either way the endpoint does not depend on the constructor's settings |
| Client.Answer | sanctum_ai/client.py:118-120 | a call returns only when a reply arrived, was received whole and is a dict |
| Client.CallStep | sanctum_ai/client.py:114-120 | `_call` never changes the socket, the session id or the leases; it draws one id exactly when a socket exists |
| Client.AnswerOk | sanctum_ai/client.py:118-120 | a call returns normally if and only if the reply arrived and carries no error, and then it returns `result` or `{}` |
| Client.CallUnconnected | sanctum_ai/client.py:115-116 | without a socket, "Not connected" with `INTERNAL_ERROR` is raised, and no id is drawn or request written |
| Client.CallConnected | sanctum_ai/client.py:117-120 | with a socket the next id is drawn; the request is written with it exactly when `send` succeeds, and the answer is the server's reply; otherwise a non-`VaultError` is raised and nothing is written |
| Client.CallOkWrites | sanctum_ai/client.py:117-120 | a call that returns has written its request and consumed a reply |
| Client.CallKeepsIds | sanctum_ai/client.py:110-117 | the ids written are strictly increasing across calls and `_req_id` never decreases; with the constructor's `_req_id` of 0 and the `+ 1` per connected call (`Client.CallConnected`) they are 1, 2, 3, ... |
| Client.RetrieveParamsTtl | sanctum_ai/client.py:177-179 | `ttl` is sent if and only if it is given; path and session id are always sent |
| Client.UseParamsOptional | sanctum_ai/client.py:220-226 | the caller's `params` are sent if and only if they are truthy; path and operation are always sent |
| Client.Strip | sanctum_ai/client.py:139 | `str.strip()` returns no longer text that neither starts nor ends with a character `str.isspace` accepts |
| Client.StripPadding | sanctum_ai/client.py:139 | stripping text surrounded by whitespace gives exactly that text back when it has no whitespace at its ends |
| Client.LoadSigningKey | sanctum_ai/client.py:136-145 | a loaded key is always 32 bytes |
| Client.SigningKeyLength | sanctum_ai/client.py:136-145 | a key file is accepted if and only if its stripped text decodes from hex to exactly 32 bytes, which are the key; text that is not hex raises `ValueError`; any other length raises `AuthError` with `AUTH_FAILED` |
| Client.SigningKeyFile | sanctum_ai/client.py:138-145 | the hex of a 32-byte seed, with any whitespace around it, loads back to that seed |
| Client.ResolveKey | sanctum_ai/client.py:124-134 | a resolved key is always 32 bytes |
| Client.DecryptedSeedLength | sanctum_ai/client.py:154-155 | a decrypted seed is used if and only if it has 32 bytes; otherwise `SigningKey` raises `ValueError` before anything is sent |
| Client.HelloStep | sanctum_ai/client.py:159-160 | after the first call the session id is the answer's `session_id`; if the call failed it is unchanged |
| Client.RespondStep | sanctum_ai/client.py:161-168 | the second call keeps the session id, the socket and the leases |
| Client.HandshakeStep | sanctum_ai/client.py:159-168 | the two calls of the handshake keep the socket and the leases |
| Client.AuthenticateStep | sanctum_ai/client.py:157-168 | `_authenticate` keeps the socket and the leases, and a key that cannot be resolved ends it with that failure and no change |
| Client.HelloFacts | sanctum_ai/client.py:159-160 | the first step writes only the `authenticate` request and adopts the answer's `session_id` |
| Client.RespondFacts | sanctum_ai/client.py:161-168 | the second step sends the hex signature of the decoded challenge with the adopted session id, and succeeds only on a truthy `authenticated` |
| Client.AuthenticateKeyFirst | sanctum_ai/client.py:157-158 | a key that cannot be loaded fails the handshake before anything is sent |
| Client.AuthenticateOk | sanctum_ai/client.py:157-168 | a handshake succeeds only as a successful key load, then a successful first step, then a successful second step |
| Client.AuthenticateWrites | sanctum_ai/client.py:157-166 | a successful handshake wrote exactly `authenticate` and then `challenge_response` with the next two ids, and holds the adopted session id |
| Client.HandshakeWrites | sanctum_ai/client.py:159-166 | the two successful calls wrote `authenticate` and `challenge_response` with the next two ids, the adopted session id and the signed challenge |
| Client.AuthenticateAdoptsSession | sanctum_ai/client.py:159-160 | once `session_id` is adopted it stays, whatever the challenge step does |
| Client.AuthenticateNotConfirmed | sanctum_ai/client.py:167-168 | a falsy `authenticated` raises `AuthError` with `AUTH_FAILED` after both requests were written |
| Client.AuthenticateFrame | sanctum_ai/client.py:157-168 | the handshake changes neither the socket nor the leases, and keeps ids increasing |
| Client.FetchStep | sanctum_ai/client.py:177-181 | the shared part of `retrieve` and `retrieve_raw` keeps socket and session and can only append one lease to the end |
| Client.RetrieveStep | sanctum_ai/client.py:172-182 | `retrieve` leaves the state the shared part leaves, and returns only when that part succeeded |
| Client.RetrieveRawStep | sanctum_ai/client.py:184-191 | a `retrieve_raw` that returns has appended exactly the returned dict's `lease_id` |
| Client.ListStep | sanctum_ai/client.py:193-196 | `list` leaves the state its call leaves and returns only when that call did |
| Client.ReleaseStep | sanctum_ai/client.py:198-202 | `release_lease` keeps socket and session and shortens the leases by one exactly when the call succeeded and the id was tracked |
| Client.UseStep | sanctum_ai/client.py:204-227 | `use` keeps the leases, the socket and the session id |
| Client.FetchLeases | sanctum_ai/client.py:180-181 | the returned `lease_id` is appended exactly when the call succeeds and names one; otherwise the leases are unchanged, even if the value later fails to decode |
| Client.RetrieveValue | sanctum_ai/client.py:182 | the value returned is the bytes whose hex the daemon sent |
| Client.ReleaseLeases | sanctum_ai/client.py:198-202 | a failed release keeps the leases; a successful one removes one copy of a tracked id, and nothing for an untracked one |
| Client.ReleaseCount | sanctum_ai/client.py:200-202 | for a tracked id, the multiset of leases loses that id exactly when the release succeeds |
| Client.Sweep | sanctum_ai/client.py:91-95 | the release loop of `close` only ever raises a non-`VaultError`, and keeps the socket and the session id |
| Client.Refused | sanctum_ai/client.py:91-95 | the ids whose release is refused are among the swept ones |
| Client.CloseStep | sanctum_ai/client.py:89-99 | a `close` that returns has cleared socket and session; one that raises raised a non-`VaultError` and kept both |
| Client.ListAndUseKeepLeases | sanctum_ai/client.py:193-227 | `list` and `use` leave the leases, the socket and the session id alone; `list` returns `credentials` or `[]` |
| Client.SweepLeases | sanctum_ai/client.py:91-95 | a loop that runs to the end leaves the unswept leases plus exactly the swept ids whose release raised a `VaultError` |
| Client.CloseResets | sanctum_ai/client.py:89-99 | after a `close` that returns, socket and session are cleared and the leases are exactly the refused ones |
| Client.SweepUnconnected | sanctum_ai/client.py:91-95 | without a socket every release is refused and swallowed: nothing changes |
| Client.CloseTwice | sanctum_ai/client.py:89-99 | a second `close` raises nothing and changes nothing |
| Client.ConnectStep | sanctum_ai/client.py:78-86 | after `connect`, `_sock` is the new socket whether or not its `connect` and the handshake succeeded; the leases are untouched, and nothing is written to a socket that did not connect |
| Client.RetrieveKeepsIds | sanctum_ai/client.py:172-191 | `retrieve` and `retrieve_raw` keep request ids strictly increasing |
| Client.ListAndUseKeepIds | sanctum_ai/client.py:193-227 | `list` and `use` keep request ids strictly increasing |
| Client.SweepKeepsIds | sanctum_ai/client.py:91-95 | the release loop keeps request ids strictly increasing |
| Client.SanctumClient.constructor | sanctum_ai/client.py:32-51 | a new client has no socket, no session, `_req_id` 0 and no leases |
| Client.SanctumClient.NextId | sanctum_ai/client.py:110-112 | `_next_id` increments `_req_id` and returns the new value |
| Client.SanctumClient.Call | sanctum_ai/client.py:114-120 | `_call` produces exactly the result and new state of `CallStep` |
| Client.SanctumClient.Authenticate | sanctum_ai/client.py:157-168 | `_authenticate` produces exactly the result and new state of `AuthenticateStep` |
| Client.SanctumClient.Connect | sanctum_ai/client.py:55-87 | `connect` stores the retargeted settings and then does what `ConnectStep` says on the chosen endpoint |
| Client.SanctumClient.Retrieve | sanctum_ai/client.py:172-182 | `retrieve` produces exactly the result and new state of `RetrieveStep` |
| Client.SanctumClient.RetrieveRaw | sanctum_ai/client.py:184-191 | `retrieve_raw` produces exactly the result and new state of `RetrieveRawStep` |
| Client.SanctumClient.List | sanctum_ai/client.py:193-196 | `list` produces exactly the result and new state of `ListStep` |
| Client.SanctumClient.ReleaseLease | sanctum_ai/client.py:198-202 | `release_lease` produces exactly the result and new state of `ReleaseStep` |
| Client.SanctumClient.Use | sanctum_ai/client.py:204-227 | `use` produces exactly the result and new state of `UseStep` |
| Client.SanctumClient.Close | sanctum_ai/client.py:89-99 | the loop of `close` over a snapshot of the leases produces exactly the result and new state of `CloseStep` |

## Left out

- Sockets, addresses and the operating system are not modelled:
  - Whether the socket's `connect` succeeds is the parameter `reachable`.
  - A write to a socket that never connected raises `OSError`.
  - Partial writes, timeouts and `socket.close()` itself are not modelled.
- Inside `Client`, `send` records the request rather than its bytes. `recv` takes the next
  scripted reply (decoded, or the failure it raises). The byte framing of both is modelled and
  proved in `Stream` and `Protocol`, not replayed inside the client.
- `json.dumps` / `json.loads` are replaced by a tagged byte encoding with the same round-trip
  property (`Json.RoundTrip`). The model does not cover:
  - the JSON text itself;
  - floating-point numbers;
  - that dict equality ignores key order;
  - duplicate keys, where `json.loads` keeps the last one.
- Json.Parse: its own contract states nothing; the model relies on `Json.RoundTrip` only. Which
  ill-formed payloads it rejects follows the stand-in encoding, not the JSON grammar.
- Ed25519 signing (`SigningKey.sign`) is the function parameter `sign`.
- The key sources are not modelled: reading the key files, `os.path.expanduser`, the existence
  test in `_resolve_key` and the decryption in `_load_encrypted_key` (PBKDF2, SecretBox) all sit
  outside the model. `KeySource` gives the text of the plaintext key file, the decrypted seed, or
  the failure raised while getting it. `_load_signing_key`'s `strip()`, hex decoding and length
  check are modelled, and so is the 32-byte check `SigningKey` makes on a decrypted seed.
- `os.path.expanduser` on the socket path is not modelled: paths are kept as written.
- The `target` of `connect` is assumed to be well formed. The model does not cover:
  - a dict target without `host` or `port` (`KeyError`);
  - a sequence target with fewer than two items (`IndexError`);
  - a target of another type, which the source ignores.
- `__enter__` / `__exit__` only call `connect` and `close`, and are not modelled separately.
- Client.SanctumClient.Retrieve: returns the decoded bytes of the value. The `decode("utf-8",
  errors="replace")` that turns them into text is not modelled, because the model has no Unicode
  codec.
- Python exceptions other than `VaultError` are kept only by class (`PythonError`), without their
  messages. `close` tells them apart from `VaultError`s, and nothing else depends on them.
- `sanctum_ai/exceptions.py` is not part of this model. The table of seven wire codes and their
  classes is assumed, not read from that file. Constructor arguments an error is not
  given are `Null`.
- Concurrency: a client is used by one thread at a time, as in the source.
