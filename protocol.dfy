/**
 * Wire framing of the Sanctum JSON-RPC protocol (sanctum_ai/protocol.py): a 4-byte
 * big-endian unsigned length, then that many bytes of JSON payload; and the mapping
 * of a response's `error` field onto a typed failure.
 */
module Protocol {
  import opened Base
  import opened Json
  import opened Errors

  /** `MAX_MESSAGE_SIZE`: 4 MiB. */
  const MaxMessageSize: nat := 4 * 1024 * 1024

  /** One more than the largest value `struct.pack(">I", n)` accepts. */
  const Two32: nat := 0x1_0000_0000

  // ---------------------------------------------------------------------------
  // struct.pack(">I", n) and struct.unpack(">I", b)[0]

  function PackU32(n: nat): (b: seq<byte>)
    requires n < Two32
    ensures |b| == 4
  {
    [n / 0x100_0000, (n / 0x1_0000) % 0x100, (n / 0x100) % 0x100, n % 0x100]
  }

  function UnpackU32(b: seq<byte>): (n: nat)
    requires |b| == 4
    ensures n < Two32
  {
    b[0] as int * 0x100_0000 + b[1] as int * 0x1_0000 + b[2] as int * 0x100 + b[3] as int
  }

  /** Euclidean division by 256 undoes appending one base-256 digit. */
  lemma {:induction false} DivModDigit(q: nat, d: nat)
    requires d < 0x100
    ensures (q * 0x100 + d) / 0x100 == q && (q * 0x100 + d) % 0x100 == d
  {
  }

  lemma {:induction false} UnpackPack(n: nat)
    requires n < Two32
    ensures UnpackU32(PackU32(n)) == n
  {
    var b := PackU32(n);
    var q1, q2, q3 := n / 0x100, n / 0x1_0000, n / 0x100_0000;
    assert n == q1 * 0x100 + b[3];
    assert q1 == q2 * 0x100 + b[2];
    assert q2 == q3 * 0x100 + b[1];
    assert q3 == b[0];
    assert UnpackU32(b) == ((b[0] as int * 0x100 + b[1] as int) * 0x100 + b[2] as int) * 0x100 + b[3] as int;
  }

  lemma {:induction false} PackUnpack(b: seq<byte>)
    requires |b| == 4
    ensures PackU32(UnpackU32(b)) == b
  {
    var n := UnpackU32(b);
    var h1: nat := b[0] as int;
    var h2: nat := h1 * 0x100 + b[1] as int;
    var h3: nat := h2 * 0x100 + b[2] as int;
    assert n == h3 * 0x100 + b[3] as int;
    DivModDigit(h3, b[3] as int);
    DivModDigit(h2, b[2] as int);
    DivModDigit(h1, b[1] as int);
    assert n / 0x1_0000 == h3 / 0x100 by {
      assert n / 0x100 == h3;
    }
    assert n / 0x100_0000 == h2 / 0x100 by {
      assert n / 0x1_0000 == h2;
    }
  }

  // ---------------------------------------------------------------------------
  // encode_frame / decode_frame

  /** `encode_frame(obj)`; `struct.pack` fails for a payload of 2**32 bytes or more. */
  function EncodeFrame(obj: Json): (r: Result<seq<byte>, Failure>)
    ensures r.Ok? ==> |r.value| == 4 + |Serialize(obj)| && r.value[4..] == Serialize(obj)
  {
    var payload := Serialize(obj);
    if |payload| < Two32 then Ok(PackU32(|payload|) + payload) else Err(Python(StructError))
  }

  /** `decode_frame(data)`: the payload and the bytes after the frame. */
  function DecodeFrame(data: seq<byte>): (r: Result<(Json, seq<byte>), Failure>)
    ensures r.Ok? ==> |r.value.1| <= |data| - 4 && r.value.1 == data[|data| - |r.value.1|..]
  {
    if |data| < 4 then Err(Internal("Incomplete frame header"))
    else
      var length := UnpackU32(data[..4]);
      if |data| < 4 + length then Err(Internal("Incomplete frame body"))
      else
        match Parse(data[4..4 + length])
        case None => Err(Python(JsonDecodeError))
        case Some(obj) => Ok((obj, data[4 + length..]))
  }

  /** The first four bytes of a frame, read big-endian, are the length of the rest. */
  lemma {:induction false} FramePrefixIsLength(obj: Json)
    requires EncodeFrame(obj).Ok?
    ensures var frame := EncodeFrame(obj).value;
      && |frame| == 4 + |Serialize(obj)|
      && UnpackU32(frame[..4]) == |frame| - 4
      && Parse(frame[4..]) == Some(obj)
  {
    var frame := EncodeFrame(obj).value;
    assert frame[..4] == PackU32(|Serialize(obj)|);
    assert frame[4..] == Serialize(obj);
    UnpackPack(|Serialize(obj)|);
    RoundTrip(obj);
  }

  /** Only a payload of 2**32 bytes or more cannot be framed. */
  lemma {:induction false} EncodeFrameFails(obj: Json)
    ensures EncodeFrame(obj).Err? <==> |Serialize(obj)| >= Two32
    ensures EncodeFrame(obj).Err? ==> EncodeFrame(obj).error == Python(StructError)
  {
  }

  /** `decode_frame(encode_frame(p) + rest) == (p, rest)`. */
  lemma {:induction false} DecodeEncode(obj: Json, rest: seq<byte>)
    requires EncodeFrame(obj).Ok?
    ensures DecodeFrame(EncodeFrame(obj).value + rest) == Ok((obj, rest))
  {
    var payload := Serialize(obj);
    var data := EncodeFrame(obj).value + rest;
    assert data[..4] == PackU32(|payload|);
    UnpackPack(|payload|);
    assert data[4..4 + |payload|] == payload;
    assert data[4 + |payload|..] == rest;
    RoundTrip(obj);
  }

  /** Two frames back to back decode one after the other. */
  lemma {:induction false} DecodeTwoFrames(a: Json, b: Json)
    requires EncodeFrame(a).Ok? && EncodeFrame(b).Ok?
    ensures DecodeFrame(EncodeFrame(a).value + EncodeFrame(b).value) == Ok((a, EncodeFrame(b).value))
    ensures DecodeFrame(EncodeFrame(b).value) == Ok((b, []))
  {
    DecodeEncode(a, EncodeFrame(b).value);
    DecodeEncode(b, []);
    assert EncodeFrame(b).value + [] == EncodeFrame(b).value;
  }

  /** Every successful decode reads a frame that `encode_frame` could have written. */
  lemma {:induction false} DecodeInvertsEncode(data: seq<byte>)
    requires DecodeFrame(data).Ok?
    ensures exists payload: seq<byte> ::
      && |payload| < Two32 && Parse(payload) == Some(DecodeFrame(data).value.0)
      && data == PackU32(|payload|) + payload + DecodeFrame(data).value.1
  {
    var length := UnpackU32(data[..4]);
    var payload := data[4..4 + length];
    assert Parse(payload) == Some(DecodeFrame(data).value.0) && data[4 + length..] == DecodeFrame(data).value.1;
    assert data == PackU32(|payload|) + payload + data[4 + length..] by {
      PackUnpack(data[..4]);
      assert data == data[..4] + payload + data[4 + length..];
    }
  }

  /** A buffer shorter than the header fails with "Incomplete frame header", and only such a one. */
  lemma {:induction false} DecodeShortHeader(data: seq<byte>)
    ensures DecodeFrame(data) == Err(Internal("Incomplete frame header")) <==> |data| < 4
  {
  }

  /** A whole header but too few body bytes fails with "Incomplete frame body", and only that. */
  lemma {:induction false} DecodeShortBody(data: seq<byte>)
    ensures DecodeFrame(data) == Err(Internal("Incomplete frame body"))
      <==> 4 <= |data| < 4 + UnpackU32(data[..4])
  {
  }

  // ---------------------------------------------------------------------------
  // raise_on_error

  /**
   * `raise_on_error(resp)`.  A response that is not a dict fails on `resp.get`; a
   * structured error whose code is a list or an object fails on `CODE_TO_EXCEPTION.get`.
   */
  function RaiseOnError(resp: Json): (r: Result<(), Failure>)
    ensures r.Ok? <==> resp.Obj? && Get(resp.fields, "error") in {None, Some(Null)}
  {
    if !resp.Obj? then Err(Python(AttributeError))
    else
      match Get(resp.fields, "error")
      case None => Ok(())
      case Some(Null) => Ok(())
      case Some(Str(message)) =>
        Err(Vault(VaultFailure(VaultError, Str(message), Null, Null, Null, Null, Null)))
      case Some(Obj(err)) => StructuredFailure(err)
      case Some(_) => Err(Python(AttributeError))
  }

  /**
   * The exception `raise_on_error` raises for an error dict `err`.  A specific class
   * is raised only together with that class's own wire code.
   */
  function StructuredFailure(err: seq<Member>): (r: Result<(), Failure>)
    ensures r.Err? && (r.error.Python? ==> r.error == Python(TypeError))
    ensures r.error.Vault? && r.error.vault.kind != VaultError ==> r.error.vault.code == Str(CodeOf(r.error.vault.kind))
  {
    var code := GetOr(err, "code", Str("INTERNAL_ERROR"));
    if code.Arr? || code.Obj? then Err(Python(TypeError))
    else
      CodeTableInverse(KindFor(code), code);
      Err(Vault(VaultFailure(
        KindFor(code),
        GetOr(err, "message", Str("Unknown error")),
        code,
        GetOr(err, "detail", Null),
        GetOr(err, "suggestion", Null),
        GetOr(err, "docs_url", Null),
        GetOr(err, "context", Obj([])))))
  }

  /** A bare string error is a plain `VaultError` whose message is that string. */
  lemma {:induction false} BareStringError(resp: Json, message: string)
    requires resp.Obj? && Get(resp.fields, "error") == Some(Str(message))
    ensures RaiseOnError(resp).Err? && RaiseOnError(resp).error.Vault?
    ensures var v := RaiseOnError(resp).error.vault;
      v.kind == VaultError && v.message == Str(message) && v.code == Null
  {
  }

  /** What `raise_on_error` builds from a structured error whose code is hashable. */
  lemma {:induction false} StructuredErrorValue(resp: Json, err: seq<Member>)
    requires resp.Obj? && Get(resp.fields, "error") == Some(Obj(err))
    requires var c := Get(err, "code"); c.None? || !(c.value.Arr? || c.value.Obj?)
    ensures var code := GetOr(err, "code", Str("INTERNAL_ERROR"));
      RaiseOnError(resp) == Err(Vault(VaultFailure(
        KindFor(code), GetOr(err, "message", Str("Unknown error")), code, GetOr(err, "detail", Null),
        GetOr(err, "suggestion", Null), GetOr(err, "docs_url", Null), GetOr(err, "context", Obj([])))))
  {
    assert RaiseOnError(resp) == StructuredFailure(err);
    assert !(GetOr(err, "code", Str("INTERNAL_ERROR")).Arr? || GetOr(err, "code", Str("INTERNAL_ERROR")).Obj?);
  }

  /**
   * A structured error raises the class its code maps to, `VaultError` for an
   * unknown code, and carries the code, `INTERNAL_ERROR` when there is none.
   */
  lemma {:induction false} StructuredErrorKind(resp: Json, err: seq<Member>)
    requires resp.Obj? && Get(resp.fields, "error") == Some(Obj(err))
    requires var c := Get(err, "code"); c.None? || !(c.value.Arr? || c.value.Obj?)
    ensures RaiseOnError(resp).Err? && RaiseOnError(resp).error.Vault?
    ensures var v := RaiseOnError(resp).error.vault;
      && (Get(err, "code").None? ==> v.code == Str("INTERNAL_ERROR") && v.kind == VaultError)
      && (Get(err, "code").Some? ==> v.code == Get(err, "code").value)
      && (CodeToKind(v.code).Some? ==> v.kind == CodeToKind(v.code).value)
      && (CodeToKind(v.code).None? ==> v.kind == VaultError)
  {
    StructuredErrorValue(resp, err);
    var v := RaiseOnError(resp).error.vault;
    assert v.code == GetOr(err, "code", Str("INTERNAL_ERROR")) && v.kind == KindFor(v.code);
    DefaultCodeUnmapped();
  }

  /**
   * A structured error's message defaults to "Unknown error" and its context to `{}`;
   * `detail`, `suggestion` and `docs_url` are passed through as they are.
   */
  lemma {:induction false} StructuredErrorFields(resp: Json, err: seq<Member>)
    requires resp.Obj? && Get(resp.fields, "error") == Some(Obj(err))
    requires var c := Get(err, "code"); c.None? || !(c.value.Arr? || c.value.Obj?)
    ensures RaiseOnError(resp).Err? && RaiseOnError(resp).error.Vault?
    ensures var v := RaiseOnError(resp).error.vault;
      && v.message == (if Get(err, "message").Some? then Get(err, "message").value else Str("Unknown error"))
      && v.context == (if Get(err, "context").Some? then Get(err, "context").value else Obj([]))
      && (Get(err, "detail").Some? ==> v.detail == Get(err, "detail").value)
      && (Get(err, "suggestion").Some? ==> v.suggestion == Get(err, "suggestion").value)
      && (Get(err, "docs_url").Some? ==> v.docsUrl == Get(err, "docs_url").value)
  {
    StructuredErrorValue(resp, err);
  }

  /** Every response is either accepted or mapped to exactly one failure: nothing else. */
  lemma {:induction false} RaiseOnErrorTotal(resp: Json)
    ensures RaiseOnError(resp).Ok?
      || (RaiseOnError(resp).Err? && RaiseOnError(resp).error.Vault?)
      || RaiseOnError(resp).error in {Python(AttributeError), Python(TypeError)}
  {
  }
}
