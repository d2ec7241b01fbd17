/**
 * Hexadecimal text as Python's `bytes.hex()` writes it and `bytes.fromhex()` reads
 * it: two digits per byte, lower case on output, either case on input, and ASCII
 * whitespace allowed before any pair of digits.
 */
module Hex {
  import opened Base

  function DigitValue(c: char): (r: Option<nat>)
    ensures r.Some? ==> r.value < 16
  {
    if '0' <= c <= '9' then Some(c as int - '0' as int)
    else if 'a' <= c <= 'f' then Some(c as int - 'a' as int + 10)
    else if 'A' <= c <= 'F' then Some(c as int - 'A' as int + 10)
    else None
  }

  function Digit(d: nat): (c: char)
    requires d < 16
    ensures DigitValue(c) == Some(d)
  {
    if d < 10 then (d + '0' as int) as char else (d - 10 + 'a' as int) as char
  }

  /** The characters Python counts as ASCII whitespace. */
  predicate IsSpace(c: char) {
    c == ' ' || c == '\t' || c == '\n' || c == '\r' || c == '\U{000B}' || c == '\U{000C}'
  }

  /** `bytes.hex()`. */
  function Encode(b: seq<byte>): (s: string)
    ensures |s| == 2 * |b|
    ensures forall i :: 0 <= i < |s| ==> !IsSpace(s[i]) && DigitValue(s[i]).Some?
  {
    if b == [] then "" else [Digit(b[0] / 16), Digit(b[0] % 16)] + Encode(b[1..])
  }

  /** `bytes.fromhex(s)`; `None` where Python raises `ValueError`. */
  function Decode(s: string): (r: Option<seq<byte>>)
    ensures r.Some? ==> |r.value| <= |s| / 2
    decreases |s|
  {
    if s == [] then Some([])
    else if IsSpace(s[0]) then Decode(s[1..])
    else if |s| < 2 then None
    else
      match (DigitValue(s[0]), DigitValue(s[1]))
      case (Some(hi), Some(lo)) =>
        (match Decode(s[2..])
         case Some(tail) => Some([16 * hi + lo] + tail)
         case None => None)
      case _ => None
  }

  /** What `bytes.hex()` writes, `bytes.fromhex()` reads back. */
  lemma {:induction false} DecodeEncode(b: seq<byte>)
    ensures Decode(Encode(b)) == Some(b)
  {
    if b != [] {
      var s := Encode(b);
      assert s[2..] == Encode(b[1..]);
      DecodeEncode(b[1..]);
      assert [b[0]] + b[1..] == b;
    }
  }

  /** Whitespace between the pairs never changes what is decoded. */
  lemma {:induction false} DecodeSkipsSpace(sp: string, s: string)
    requires forall i :: 0 <= i < |sp| ==> IsSpace(sp[i])
    ensures Decode(sp + s) == Decode(s)
  {
    if sp != [] {
      assert (sp + s)[1..] == sp[1..] + s;
      DecodeSkipsSpace(sp[1..], s);
    } else {
      assert sp + s == s;
    }
  }
}
