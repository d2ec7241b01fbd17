/**
 * The socket side of sanctum_ai/protocol.py: `send`, `recv` and `_read_exact`.
 * A socket is modelled by what the peer will deliver, as the queue of chunks that
 * successive `sock.recv` calls hand out, and by the bytes written to it.
 */
module Stream {
  import opened Base
  import opened Json
  import opened Errors
  import opened Protocol

  /** The bytes delivered before the peer closes: the chunks up to the first empty one. */
  function Delivered(chunks: seq<seq<byte>>): seq<byte> {
    if chunks == [] || chunks[0] == [] then [] else chunks[0] + Delivered(chunks[1..])
  }

  /** One `sock.recv(size)` call and the chunk it returned. */
  datatype RecvCall = RecvCall(size: nat, chunk: seq<byte>)

  /** The bytes a run of `recv` calls returned, in order. */
  function Got(calls: seq<RecvCall>): seq<byte> {
    if calls == [] then [] else Got(calls[..|calls| - 1]) + calls[|calls| - 1].chunk
  }

  /**
   * The calls `_read_exact(sock, n)` makes: each asks for the `n` bytes minus those
   * already returned, never for none, and only the last one may come back empty.
   */
  ghost predicate AsksForRest(calls: seq<RecvCall>, n: nat) {
    forall i :: 0 <= i < |calls| ==>
      && 0 < calls[i].size == n - |Got(calls[..i])|
      && (i < |calls| - 1 ==> calls[i].chunk != [])
  }

  class Socket {
    /** What the next `recv` calls return (at most the size asked for each time); an empty chunk is end of stream. */
    var pending: seq<seq<byte>>
    /** Everything written with `sendall`, in order. */
    var sent: seq<byte>
    /** Every `recv` call so far, in order: the size asked for and the chunk returned. */
    var calls: seq<RecvCall>

    constructor (script: seq<seq<byte>>)
      ensures pending == script && sent == [] && calls == []
    {
      pending, sent, calls := script, [], [];
    }

    /** The bytes the peer still has to deliver. */
    function Available(): seq<byte>
      reads this
    {
      Delivered(pending)
    }

    /** `sock.recv(k)`: the next bytes of the stream, at most `k`; empty only at end of stream. */
    method Recv(k: nat) returns (chunk: seq<byte>)
      modifies this
      ensures |chunk| <= k
      ensures old(Available()) == chunk + Available()
      ensures chunk == [] <==> k == 0 || old(Available()) == []
      ensures calls == old(calls) + [RecvCall(k, chunk)] && sent == old(sent)
    {
      if k == 0 || pending == [] || pending[0] == [] {
        chunk := [];
      } else if |pending[0]| <= k {
        chunk := pending[0];
        pending := pending[1..];
      } else {
        var head := pending[0];
        chunk := head[..k];
        pending := [head[k..]] + pending[1..];
        assert Delivered(pending) == head[k..] + Delivered(old(pending)[1..]);
        assert old(Available()) == chunk + Available();
      }
      calls := calls + [RecvCall(k, chunk)];
    }

    /** `sock.sendall(data)`. */
    method SendAll(data: seq<byte>)
      modifies this
      ensures sent == old(sent) + data
      ensures pending == old(pending) && calls == old(calls)
    {
      sent := sent + data;
    }
  }

  /**
   * `_read_exact(sock, n)`: exactly the next `n` bytes of the stream, or "Connection
   * closed" once the stream ends first (having consumed what was left).  Each `recv`
   * asks for what is still missing, and the first empty chunk ends the loop.
   */
  method ReadExact(sock: Socket, n: nat) returns (r: Result<seq<byte>, Failure>)
    modifies sock
    ensures r.Ok? <==> n <= |old(sock.Available())|
    ensures r.Ok? ==> r.value == old(sock.Available())[..n] && sock.Available() == old(sock.Available())[n..]
    ensures r.Err? ==> r.error == Internal("Connection closed") && sock.Available() == []
    ensures sock.sent == old(sock.sent)
    ensures |old(sock.calls)| <= |sock.calls| && sock.calls[..|old(sock.calls)|] == old(sock.calls)
    ensures AsksForRest(sock.calls[|old(sock.calls)|..], n)
    ensures r.Ok? ==> Got(sock.calls[|old(sock.calls)|..]) == r.value
    ensures r.Ok? ==> forall i :: |old(sock.calls)| <= i < |sock.calls| ==> sock.calls[i].chunk != []
    ensures r.Err? ==> |old(sock.calls)| < |sock.calls| && sock.calls[|sock.calls| - 1].chunk == []
  {
    ghost var start := sock.Available();
    ghost var c0 := sock.calls;
    var buf: seq<byte> := [];
    assert sock.calls[|c0|..] == [];
    while |buf| < n
      invariant |buf| <= n && |buf| <= |start|
      invariant buf == start[..|buf|]
      invariant sock.Available() == start[|buf|..]
      invariant sock.sent == old(sock.sent)
      invariant ReadLog(c0, sock.calls, n, buf)
      decreases n - |buf|
    {
      ghost var before := sock.calls;
      var chunk := sock.Recv(n - |buf|);
      NextCall(c0, before, RecvCall(n - |buf|, chunk), n, buf);
      if chunk == [] {
        return Err(Internal("Connection closed"));
      }
      assert start == buf + chunk + sock.Available();
      buf := buf + chunk;
    }
    r := Ok(buf);
  }

  /**
   * The calls `_read_exact`'s loop has made since the log was `c0`: they follow `c0`,
   * returned `buf`, asked for the rest each time and none came back empty.
   */
  ghost predicate ReadLog(c0: seq<RecvCall>, now: seq<RecvCall>, n: nat, buf: seq<byte>) {
    && |c0| <= |now| && now[..|c0|] == c0
    && Got(now[|c0|..]) == buf
    && AsksForRest(now[|c0|..], n)
    && forall i :: |c0| <= i < |now| ==> now[i].chunk != []
  }

  /** One more call of `_read_exact`'s loop, asking for the rest, keeps the log. */
  lemma {:induction false} NextCall(c0: seq<RecvCall>, before: seq<RecvCall>, c: RecvCall, n: nat, buf: seq<byte>)
    requires ReadLog(c0, before, n, buf) && 0 < c.size == n - |buf|
    ensures var now := before + [c];
      && |c0| < |now| && now[..|c0|] == c0
      && Got(now[|c0|..]) == buf + c.chunk
      && AsksForRest(now[|c0|..], n)
    ensures c.chunk != [] ==> ReadLog(c0, before + [c], n, buf + c.chunk)
  {
    var now := before + [c];
    var done := before[|c0|..];
    assert now[..|c0|] == before[..|c0|];
    assert now[|c0|..] == done + [c];
    var d := done + [c];
    assert d[..|done|] == done;
    forall i | 0 <= i < |d|
      ensures 0 < d[i].size == n - |Got(d[..i])| && (i < |d| - 1 ==> d[i].chunk != [])
    {
      if i < |done| {
        assert d[..i] == done[..i];
      }
    }
  }

  /** `send(sock, obj)`: one frame, or nothing when the payload cannot be framed. */
  method Send(sock: Socket, obj: Json) returns (r: Result<(), Failure>)
    modifies sock
    ensures r.Ok? <==> EncodeFrame(obj).Ok?
    ensures r.Ok? ==> sock.sent == old(sock.sent) + EncodeFrame(obj).value
    ensures r.Err? ==> r.error == Python(StructError) && sock.sent == old(sock.sent)
    ensures sock.pending == old(sock.pending) && sock.calls == old(sock.calls)
  {
    var frame := EncodeFrame(obj);
    if frame.Err? {
      return Err(frame.error);
    }
    sock.SendAll(frame.value);
    r := Ok(());
  }

  /**
   * What `recv` makes of a stream holding `a`, and how many bytes of it it consumes.
   * A declared length above `MAX_MESSAGE_SIZE` is refused after the header alone.
   */
  function ReceiveOutcome(a: seq<byte>): (r: (Result<Json, Failure>, nat))
    ensures r.1 <= |a|
    ensures r.0.Ok? ==> 4 <= r.1 <= 4 + MaxMessageSize
  {
    if |a| < 4 then (Err(Internal("Connection closed")), |a|)
    else
      var length := UnpackU32(a[..4]);
      if length > MaxMessageSize then (Err(Internal("Response too large")), 4)
      else if |a| < 4 + length then (Err(Internal("Connection closed")), |a|)
      else
        match Parse(a[4..4 + length])
        case None => (Err(Python(JsonDecodeError)), 4 + length)
        case Some(obj) => (Ok(obj), 4 + length)
  }

  /** `recv(sock)`: one frame off the stream, decoded. */
  method Receive(sock: Socket) returns (r: Result<Json, Failure>)
    modifies sock
    ensures r == ReceiveOutcome(old(sock.Available())).0
    ensures ReceiveOutcome(old(sock.Available())).1 <= |old(sock.Available())|
    ensures sock.Available() == old(sock.Available())[ReceiveOutcome(old(sock.Available())).1..]
    ensures sock.sent == old(sock.sent)
  {
    ghost var a := sock.Available();
    var header := ReadExact(sock, 4);
    if header.Err? {
      return Err(header.error);
    }
    var length := UnpackU32(header.value);
    if length > MaxMessageSize {
      return Err(Internal("Response too large"));
    }
    var body := ReadExact(sock, length);
    if body.Err? {
      return Err(body.error);
    }
    assert body.value == a[4..4 + length];
    assert sock.Available() == a[4 + length..];
    var obj := Parse(body.value);
    if obj.None? {
      return Err(Python(JsonDecodeError));
    }
    r := Ok(obj.value);
  }

  /** A framed message of at most 4 MiB is received whole, and nothing after it is consumed. */
  lemma {:induction false} ReceiveFrame(obj: Json, rest: seq<byte>)
    requires |Serialize(obj)| <= MaxMessageSize
    ensures EncodeFrame(obj).Ok?
    ensures ReceiveOutcome(EncodeFrame(obj).value + rest) == (Ok(obj), |EncodeFrame(obj).value|)
  {
    var payload := Serialize(obj);
    var a := EncodeFrame(obj).value + rest;
    assert a[..4] == PackU32(|payload|);
    UnpackPack(|payload|);
    assert a[4..4 + |payload|] == payload;
    RoundTrip(obj);
  }

  /** A declared length above 4 MiB is refused having consumed the header and nothing more. */
  lemma {:induction false} ReceiveTooLarge(a: seq<byte>)
    requires 4 <= |a| && UnpackU32(a[..4]) > MaxMessageSize
    ensures ReceiveOutcome(a) == (Err(Internal("Response too large")), 4)
  {
  }

  /**
   * On a stream, `recv` agrees with `decode_frame` on the same bytes for messages up
   * to 4 MiB; where the buffer decoder reports an incomplete frame, the stream ends
   * mid-message and the reader reports a closed connection.
   */
  lemma {:induction false} ReceiveAgreesWithDecode(a: seq<byte>)
    requires |a| < 4 || UnpackU32(a[..4]) <= MaxMessageSize
    ensures DecodeFrame(a).Ok? ==> ReceiveOutcome(a) == (Ok(DecodeFrame(a).value.0), |a| - |DecodeFrame(a).value.1|)
    ensures DecodeFrame(a) in {Err(Internal("Incomplete frame header")), Err(Internal("Incomplete frame body"))}
      ==> ReceiveOutcome(a) == (Err(Internal("Connection closed")), |a|)
  {
  }
}
