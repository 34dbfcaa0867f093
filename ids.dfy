/** Identifier generation: 16 random bytes rendered as lower-case hexadecimal
    (handler/handlers.go:23-27). The random bytes themselves come from outside
    the model and are passed in. */
module Ids {
  import opened Wrappers

  newtype byte = x: int | 0 <= x < 256

  /** A block of random bytes of the size `generateID` draws. */
  type RandomBytes = b: seq<byte> | |b| == 16 witness seq(16, _ => 0)

  /** The characters the encoder emits. */
  predicate IsHexDigit(c: char) {
    '0' <= c <= '9' || 'a' <= c <= 'f'
  }

  predicate IsLowerHex(s: string) {
    forall i :: 0 <= i < |s| ==> IsHexDigit(s[i])
  }

  /** The shape of every identifier and session token the handlers create. */
  predicate IsId(s: string) {
    |s| == 32 && IsLowerHex(s)
  }

  /** The lower-case digit for a nibble. */
  function HexDigit(n: int): (c: char)
    requires 0 <= n < 16
    ensures IsHexDigit(c)
  {
    if n < 10 then ('0' as int + n) as char else ('a' as int + n - 10) as char
  }

  /** The value of a hexadecimal digit. */
  function DigitValue(c: char): (n: int)
    requires IsHexDigit(c)
    ensures 0 <= n < 16
  {
    if c <= '9' then c as int - '0' as int else c as int - 'a' as int + 10
  }

  lemma ValueOfDigit(n: int)
    requires 0 <= n < 16
    ensures DigitValue(HexDigit(n)) == n
  {
  }

  lemma DigitOfValue(c: char)
    requires IsHexDigit(c)
    ensures HexDigit(DigitValue(c)) == c
  {
  }

  /** Hexadecimal encoding, two lower-case digits per byte, high nibble first. */
  function HexEncode(bytes: seq<byte>): (s: string)
    ensures |s| == 2 * |bytes|
    ensures IsLowerHex(s)
  {
    if bytes == [] then ""
    else [HexDigit(bytes[0] as int / 16), HexDigit(bytes[0] as int % 16)] + HexEncode(bytes[1..])
  }

  /** The inverse of HexEncode: `None` for an odd length or a character
      HexEncode never emits. */
  function HexDecode(s: string): (r: Option<seq<byte>>)
    ensures r.Some? ==> |s| == 2 * |r.value|
  {
    if s == [] then Some([])
    else if |s| == 1 || !IsHexDigit(s[0]) || !IsHexDigit(s[1]) then None
    else
      match HexDecode(s[2..])
      case None => None
      case Some(rest) => Some([(DigitValue(s[0]) * 16 + DigitValue(s[1])) as byte] + rest)
  }

  lemma {:induction false} DecodeEncode(bytes: seq<byte>)
    ensures HexDecode(HexEncode(bytes)) == Some(bytes)
  {
    if bytes != [] {
      var b := bytes[0] as int;
      var s := HexEncode(bytes);
      assert s[2..] == HexEncode(bytes[1..]);
      DecodeEncode(bytes[1..]);
      ValueOfDigit(b / 16);
      ValueOfDigit(b % 16);
      assert DigitValue(s[0]) * 16 + DigitValue(s[1]) == b;
      assert bytes == [bytes[0]] + bytes[1..];
    }
  }

  lemma {:induction false} EncodeDecode(s: string)
    requires IsLowerHex(s) && |s| % 2 == 0
    ensures HexDecode(s).Some? && HexEncode(HexDecode(s).value) == s
  {
    if s != [] {
      assert IsLowerHex(s[2..]) by {
        forall i | 0 <= i < |s[2..]| ensures IsHexDigit(s[2..][i]) {
          assert s[2..][i] == s[i + 2];
        }
      }
      EncodeDecode(s[2..]);
      var hi, lo := DigitValue(s[0]), DigitValue(s[1]);
      var b := hi * 16 + lo;
      assert b / 16 == hi && b % 16 == lo;
      DigitOfValue(s[0]);
      DigitOfValue(s[1]);
      assert s == [s[0], s[1]] + s[2..];
    }
  }

  /** `generateID`: the hex encoding of one block of random bytes. */
  function GenerateId(random: RandomBytes): (id: string)
    ensures IsId(id)
    ensures HexDecode(id) == Some(random)
  {
    DecodeEncode(random);
    HexEncode(random)
  }

  /** Distinct random blocks give distinct identifiers. */
  lemma GenerateIdInjective(a: RandomBytes, b: RandomBytes)
    ensures GenerateId(a) == GenerateId(b) <==> a == b
  {
  }
}
