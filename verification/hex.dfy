/** Lower-case hexadecimal encoding of a byte slice, as Go's `fmt` verb `%x`
    renders a `[]byte`: two digits per byte, high nibble first, zero-padded. */
module Hex {
  import opened Wrappers

  type byte = b: int | 0 <= b < 256

  predicate IsLowerHex(c: char) {
    '0' <= c <= '9' || 'a' <= c <= 'f'
  }

  /** The digit of a nibble. */
  function Digit(n: int): (c: char)
    requires 0 <= n < 16
    ensures IsLowerHex(c)
  {
    if n < 10 then ('0' as int + n) as char else ('a' as int + n - 10) as char
  }

  /** The nibble of a digit. */
  function Value(c: char): (n: int)
    requires IsLowerHex(c)
    ensures 0 <= n < 16
    ensures Digit(n) == c
  {
    if c <= '9' then c as int - '0' as int else c as int - 'a' as int + 10
  }

  function Encode(bytes: seq<byte>): (s: string)
    ensures |s| == 2 * |bytes|
    ensures forall i :: 0 <= i < |s| ==> IsLowerHex(s[i])
    ensures forall i :: 0 <= i < |bytes| ==>
              s[2 * i] == Digit(bytes[i] / 16) && s[2 * i + 1] == Digit(bytes[i] % 16)
  {
    if bytes == [] then []
    else
      var rest := Encode(bytes[1..]);
      assert forall i :: 1 <= i < |bytes| ==> bytes[i] == bytes[1..][i - 1];
      [Digit(bytes[0] / 16), Digit(bytes[0] % 16)] + rest
  }

  /** Inverse of Encode: None on odd length or a character that is not a
      lower-case hex digit. */
  function Decode(s: string): (r: Option<seq<byte>>)
    ensures r.Some? ==> |s| == 2 * |r.value|
  {
    if s == [] then Some([])
    else if |s| < 2 || !IsLowerHex(s[0]) || !IsLowerHex(s[1]) then None
    else
      match Decode(s[2..])
      case None => None
      case Some(rest) => Some([Value(s[0]) * 16 + Value(s[1])] + rest)
  }

  lemma {:induction false} DecodeEncode(bytes: seq<byte>)
    ensures Decode(Encode(bytes)) == Some(bytes)
  {
    if bytes != [] {
      var s := Encode(bytes);
      assert s[2..] == Encode(bytes[1..]);
      DecodeEncode(bytes[1..]);
      var b := bytes[0];
      assert Value(Digit(b / 16)) == b / 16;
      assert Value(Digit(b % 16)) == b % 16;
      assert [b] + bytes[1..] == bytes;
    }
  }

  lemma {:induction false} EncodeDecode(s: string, bytes: seq<byte>)
    requires Decode(s) == Some(bytes)
    ensures Encode(bytes) == s
  {
    if s != [] {
      var rest := Decode(s[2..]).value;
      assert bytes == [Value(s[0]) * 16 + Value(s[1])] + rest;
      EncodeDecode(s[2..], rest);
      assert bytes[1..] == rest;
      var b := bytes[0];
      assert b / 16 == Value(s[0]) && b % 16 == Value(s[1]);
      assert s == [s[0], s[1]] + s[2..];
    }
  }

  /** Distinct byte slices never print the same. */
  lemma EncodeInjective(a: seq<byte>, b: seq<byte>)
    ensures Encode(a) == Encode(b) <==> a == b
  {
    DecodeEncode(a);
    DecodeEncode(b);
  }
}
