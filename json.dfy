/**
 * JSON values as the client sees them after `json.loads`, and a byte encoding of
 * them.  The wire format of the vault is compact JSON text; the framing and session
 * layers only rely on the encoder and the decoder being inverse to each other, so
 * the encoding defined here is a self-delimiting tagged one whose round trip is
 * proved, standing in for `json.dumps` / `json.loads`.
 */
module Json {
  import opened Base

  /** A JSON value.  Objects keep their members in insertion order, like a Python dict. */
  datatype Json =
    | Null
    | Bool(b: bool)
    | Int(i: int)
    | Str(s: string)
    | Arr(items: seq<Json>)
    | Obj(fields: seq<Member>)

  datatype Member = Member(key: string, value: Json)

  /** `d.get(key)` on a dict: the value under the first member with that key. */
  function Get(fields: seq<Member>, key: string): (r: Option<Json>)
    ensures r.Some? <==> exists i :: 0 <= i < |fields| && fields[i].key == key
    ensures r.Some? ==> exists i :: 0 <= i < |fields| && fields[i] == Member(key, r.value)
  {
    if fields == [] then None
    else if fields[0].key == key then Some(fields[0].value)
    else
      var r := Get(fields[1..], key);
      assert forall i :: 0 < i < |fields| ==> fields[i] == fields[1..][i - 1];
      r
  }

  /** `d.get(key, default)` on a dict. */
  function GetOr(fields: seq<Member>, key: string, default: Json): Json {
    match Get(fields, key)
    case Some(v) => v
    case None => default
  }

  /** Python truthiness of a decoded JSON value. */
  predicate Truthy(v: Json) {
    match v
    case Null => false
    case Bool(b) => b
    case Int(i) => i != 0
    case Str(s) => s != ""
    case Arr(xs) => xs != []
    case Obj(fs) => fs != []
  }

  // ---------------------------------------------------------------------------
  // Natural numbers: seven bits per byte, least significant group first; the
  // high bit of a byte says that more groups follow.

  function EncodeNat(n: nat): (r: seq<byte>)
    decreases n
  {
    if n < 128 then [n] else [128 + n % 128] + EncodeNat(n / 128)
  }

  function DecodeNat(b: seq<byte>): (r: Option<(nat, seq<byte>)>)
    ensures r.Some? ==> |r.value.1| < |b|
    decreases |b|
  {
    if |b| == 0 then None
    else if b[0] < 128 then Some((b[0], b[1..]))
    else
      match DecodeNat(b[1..])
      case None => None
      case Some((m, rest)) => Some((b[0] - 128 + 128 * m, rest))
  }

  lemma {:induction false} DecodeEncodeNat(n: nat, rest: seq<byte>)
    ensures DecodeNat(EncodeNat(n) + rest) == Some((n, rest))
    decreases n
  {
    if n >= 128 {
      var b := EncodeNat(n) + rest;
      assert b[1..] == EncodeNat(n / 128) + rest;
      DecodeEncodeNat(n / 128, rest);
    }
  }

  // ---------------------------------------------------------------------------
  // The value encoding.

  const NullTag: byte := 0
  const FalseTag: byte := 1
  const TrueTag: byte := 2
  const NatTag: byte := 3
  const NegTag: byte := 4
  const StrTag: byte := 5
  const ArrTag: byte := 6
  const ObjTag: byte := 7

  /** The bytes of a value: stands in for `json.dumps(obj).encode()`. */
  function Serialize(v: Json): (r: seq<byte>)
    ensures |r| > 0
    decreases v
  {
    match v
    case Null => [NullTag]
    case Bool(b) => if b then [TrueTag] else [FalseTag]
    case Int(i) => if i >= 0 then [NatTag] + EncodeNat(i) else [NegTag] + EncodeNat(-i - 1)
    case Str(s) => [StrTag] + EncodeText(s)
    case Arr(xs) => [ArrTag] + EncodeNat(|xs|) + SerializeItems(xs)
    case Obj(fs) => [ObjTag] + EncodeNat(|fs|) + SerializeMembers(fs)
  }

  function SerializeItems(xs: seq<Json>): seq<byte>
    decreases xs
  {
    if xs == [] then [] else Serialize(xs[0]) + SerializeItems(xs[1..])
  }

  function SerializeMembers(fs: seq<Member>): seq<byte>
    decreases fs
  {
    if fs == [] then [] else EncodeText(fs[0].key) + Serialize(fs[0].value) + SerializeMembers(fs[1..])
  }

  function EncodeText(s: string): seq<byte> {
    EncodeNat(|s|) + EncodeChars(s)
  }

  function EncodeChars(s: string): seq<byte> {
    if s == [] then [] else EncodeNat(s[0] as int) + EncodeChars(s[1..])
  }

  /** A Unicode scalar value, the range of Dafny's `char`. */
  predicate IsScalar(c: nat) {
    c < 0xD800 || (0xE000 <= c < 0x11_0000)
  }

  function DecodeChars(b: seq<byte>, n: nat): (r: Option<(string, seq<byte>)>)
    ensures r.Some? ==> |r.value.0| == n && |r.value.1| <= |b|
    decreases n
  {
    if n == 0 then Some(([], b))
    else
      match DecodeNat(b)
      case None => None
      case Some((c, rest)) =>
        if !IsScalar(c) then None
        else
          match DecodeChars(rest, n - 1)
          case None => None
          case Some((s, rest')) => Some(([c as char] + s, rest'))
  }

  function DecodeText(b: seq<byte>): (r: Option<(string, seq<byte>)>)
    ensures r.Some? ==> |r.value.1| < |b|
  {
    match DecodeNat(b)
    case None => None
    case Some((n, rest)) => DecodeChars(rest, n)
  }

  /** Reads a value that has no nested values, given its tag and the bytes after the tag. */
  function ParseAtom(tag: byte, rest: seq<byte>): (r: Option<(Json, seq<byte>)>)
    ensures r.Some? ==> |r.value.1| <= |rest|
  {
    if tag == NullTag then Some((Null, rest))
    else if tag == FalseTag then Some((Bool(false), rest))
    else if tag == TrueTag then Some((Bool(true), rest))
    else if tag == NatTag || tag == NegTag then
      match DecodeNat(rest)
      case None => None
      case Some((n, rest')) =>
        var i: int := if tag == NatTag then n else -(n as int) - 1;
        Some((Int(i), rest'))
    else if tag == StrTag then
      match DecodeText(rest)
      case None => None
      case Some((s, rest')) => Some((Str(s), rest'))
    else None
  }

  /** Reads one value off the front of `b` and returns it with the bytes after it. */
  function ParseValue(b: seq<byte>): (r: Option<(Json, seq<byte>)>)
    ensures r.Some? ==> |r.value.1| < |b|
    decreases |b|, 0
  {
    if |b| == 0 then None
    else if b[0] == ArrTag then
      match DecodeNat(b[1..])
      case None => None
      case Some((n, rest)) =>
        match ParseItems(rest, n)
        case None => None
        case Some((xs, rest')) => Some((Arr(xs), rest'))
    else if b[0] == ObjTag then
      match DecodeNat(b[1..])
      case None => None
      case Some((n, rest)) =>
        match ParseMembers(rest, n)
        case None => None
        case Some((fs, rest')) => Some((Obj(fs), rest'))
    else ParseAtom(b[0], b[1..])
  }

  function ParseItems(b: seq<byte>, n: nat): (r: Option<(seq<Json>, seq<byte>)>)
    ensures r.Some? ==> |r.value.1| <= |b|
    decreases |b|, 1, n
  {
    if n == 0 then Some(([], b))
    else
      match ParseValue(b)
      case None => None
      case Some((x, rest)) =>
        match ParseItems(rest, n - 1)
        case None => None
        case Some((xs, rest')) => Some(([x] + xs, rest'))
  }

  function ParseMembers(b: seq<byte>, n: nat): (r: Option<(seq<Member>, seq<byte>)>)
    ensures r.Some? ==> |r.value.1| <= |b|
    decreases |b|, 1, n
  {
    if n == 0 then Some(([], b))
    else
      match DecodeText(b)
      case None => None
      case Some((k, rest)) =>
        match ParseValue(rest)
        case None => None
        case Some((x, rest')) =>
          match ParseMembers(rest', n - 1)
          case None => None
          case Some((fs, rest'')) => Some(([Member(k, x)] + fs, rest''))
  }

  /** Stands in for `json.loads`: the whole input must be exactly one value. */
  function Parse(b: seq<byte>): Option<Json> {
    match ParseValue(b)
    case Some((v, rest)) => if rest == [] then Some(v) else None
    case None => None
  }

  // ---------------------------------------------------------------------------
  // Round trip.

  lemma {:induction false} DecodeEncodeChars(s: string, rest: seq<byte>)
    ensures DecodeChars(EncodeChars(s) + rest, |s|) == Some((s, rest))
    decreases s
  {
    if s != [] {
      var c := s[0] as int;
      var tail := EncodeChars(s[1..]) + rest;
      assert EncodeChars(s) + rest == EncodeNat(c) + tail;
      DecodeEncodeNat(c, tail);
      assert IsScalar(c);
      assert c as char == s[0];
      DecodeEncodeChars(s[1..], rest);
      assert DecodeChars(tail, |s| - 1) == Some((s[1..], rest));
      assert [s[0]] + s[1..] == s;
    } else {
      assert EncodeChars(s) + rest == rest;
    }
  }

  lemma {:induction false} DecodeEncodeText(s: string, rest: seq<byte>)
    ensures DecodeText(EncodeText(s) + rest) == Some((s, rest))
  {
    assert EncodeText(s) + rest == EncodeNat(|s|) + (EncodeChars(s) + rest);
    DecodeEncodeNat(|s|, EncodeChars(s) + rest);
    DecodeEncodeChars(s, rest);
  }

  lemma {:induction false} ParseSerializeAtom(v: Json, rest: seq<byte>)
    requires !v.Arr? && !v.Obj?
    ensures var b := Serialize(v) + rest; ParseAtom(b[0], b[1..]) == Some((v, rest))
  {
    var b := Serialize(v) + rest;
    match v
    case Null =>
    case Bool(_) =>
    case Int(i) =>
      var n: nat := if i >= 0 then i else -i - 1;
      assert b[1..] == EncodeNat(n) + rest;
      DecodeEncodeNat(n, rest);
    case Str(s) =>
      assert b[1..] == EncodeText(s) + rest;
      DecodeEncodeText(s, rest);
  }

  /** The decoder reads back exactly what the encoder wrote, leaving what follows alone. */
  lemma {:induction false} ParseSerialize(v: Json, rest: seq<byte>)
    ensures ParseValue(Serialize(v) + rest) == Some((v, rest))
    decreases v, 1
  {
    match v
    case Arr(xs) => ParseSerializeArr(xs, rest);
    case Obj(fs) => ParseSerializeObj(fs, rest);
    case _ => ParseSerializeAtom(v, rest);
  }

  lemma {:induction false} ParseSerializeArr(xs: seq<Json>, rest: seq<byte>)
    ensures ParseValue(Serialize(Arr(xs)) + rest) == Some((Arr(xs), rest))
    decreases Arr(xs), 0
  {
    var b := Serialize(Arr(xs)) + rest;
    assert b[0] == ArrTag;
    assert b[1..] == EncodeNat(|xs|) + (SerializeItems(xs) + rest);
    DecodeEncodeNat(|xs|, SerializeItems(xs) + rest);
    ParseSerializeItems(xs, rest);
  }

  lemma {:induction false} ParseSerializeObj(fs: seq<Member>, rest: seq<byte>)
    ensures ParseValue(Serialize(Obj(fs)) + rest) == Some((Obj(fs), rest))
    decreases Obj(fs), 0
  {
    var b := Serialize(Obj(fs)) + rest;
    assert b[0] == ObjTag;
    assert b[1..] == EncodeNat(|fs|) + (SerializeMembers(fs) + rest);
    DecodeEncodeNat(|fs|, SerializeMembers(fs) + rest);
    ParseSerializeMembers(fs, rest);
  }

  lemma {:induction false} ParseSerializeItems(xs: seq<Json>, rest: seq<byte>)
    ensures ParseItems(SerializeItems(xs) + rest, |xs|) == Some((xs, rest))
    decreases xs
  {
    if xs != [] {
      var tail := SerializeItems(xs[1..]) + rest;
      assert SerializeItems(xs) + rest == Serialize(xs[0]) + tail;
      ParseSerialize(xs[0], tail);
      ParseSerializeItems(xs[1..], rest);
      assert ParseItems(tail, |xs| - 1) == Some((xs[1..], rest));
      assert [xs[0]] + xs[1..] == xs;
    } else {
      assert SerializeItems(xs) + rest == rest;
    }
  }

  lemma {:induction false} ParseSerializeMembers(fs: seq<Member>, rest: seq<byte>)
    ensures ParseMembers(SerializeMembers(fs) + rest, |fs|) == Some((fs, rest))
    decreases fs
  {
    if fs != [] {
      var tail := SerializeMembers(fs[1..]) + rest;
      assert SerializeMembers(fs) + rest == EncodeText(fs[0].key) + (Serialize(fs[0].value) + tail);
      DecodeEncodeText(fs[0].key, Serialize(fs[0].value) + tail);
      ParseSerialize(fs[0].value, tail);
      ParseSerializeMembers(fs[1..], rest);
      assert ParseMembers(tail, |fs| - 1) == Some((fs[1..], rest));
      assert [Member(fs[0].key, fs[0].value)] + fs[1..] == fs;
    } else {
      assert SerializeMembers(fs) + rest == rest;
    }
  }

  /** `json.loads(json.dumps(v)) == v`. */
  lemma {:induction false} RoundTrip(v: Json)
    ensures Parse(Serialize(v)) == Some(v)
  {
    ParseSerialize(v, []);
    assert Serialize(v) + [] == Serialize(v);
  }
}
