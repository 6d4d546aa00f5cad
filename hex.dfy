/**
 * The `%x` verb of Go's fmt package applied to a byte slice: every byte
 * becomes two lower-case hexadecimal digits, high nibble first.
 * `Decode` is its inverse on well-formed text.
 */
module Hex {
  import opened Wrappers

  predicate IsLowerHexDigit(c: char) {
    '0' <= c <= '9' || 'a' <= c <= 'f'
  }

  /** The digit that `%x` prints for a nibble. */
  function Digit(n: bv8): (c: char)
    requires n < 16
    ensures IsLowerHexDigit(c)
  {
    if n < 10 then ('0' as int + n as int) as char else ('a' as int + n as int - 10) as char
  }

  /** The nibble a lower-case hexadecimal digit stands for. */
  function Value(c: char): (n: bv8)
    requires IsLowerHexDigit(c)
    ensures n < 16
  {
    if c <= '9' then (c as int - '0' as int) as bv8 else (c as int - 'a' as int + 10) as bv8
  }

  lemma DigitValue(n: bv8)
    requires n < 16
    ensures Value(Digit(n)) == n
  {
  }

  lemma ValueDigit(c: char)
    requires IsLowerHexDigit(c)
    ensures Digit(Value(c)) == c
  {
  }

  /** `%x` of one byte. */
  function EncodeByte(b: bv8): (s: string)
    ensures |s| == 2 && IsLowerHexDigit(s[0]) && IsLowerHexDigit(s[1])
    ensures ((Value(s[0]) << 4) | Value(s[1])) == b
  {
    DigitValue(b >> 4);
    DigitValue(b & 0x0F);
    [Digit(b >> 4), Digit(b & 0x0F)]
  }

  /** `%x` of a byte slice: two digits per byte, in order, no separators. */
  function Encode(bytes: seq<bv8>): (s: string)
    ensures |s| == 2 * |bytes|
    ensures forall i :: 0 <= i < |s| ==> IsLowerHexDigit(s[i])
  {
    if bytes == [] then "" else EncodeByte(bytes[0]) + Encode(bytes[1..])
  }

  /** Reads back a run of digit pairs; `None` on odd length or a character `%x` never prints. */
  function Decode(s: string): (r: Option<seq<bv8>>)
    ensures r.Some? ==> 2 * |r.value| == |s|
    decreases |s|
  {
    if s == [] then Some([])
    else if |s| < 2 || !IsLowerHexDigit(s[0]) || !IsLowerHexDigit(s[1]) then None
    else
      match Decode(s[2..])
      case None => None
      case Some(rest) => Some([(Value(s[0]) << 4) | Value(s[1])] + rest)
  }

  lemma {:induction false} DecodeEncode(bytes: seq<bv8>)
    ensures Decode(Encode(bytes)) == Some(bytes)
  {
    if bytes != [] {
      var s := Encode(bytes);
      assert s == EncodeByte(bytes[0]) + Encode(bytes[1..]);
      assert s[2..] == Encode(bytes[1..]);
      DecodeEncode(bytes[1..]);
      assert bytes == [bytes[0]] + bytes[1..];
    }
  }

  lemma {:induction false} EncodeDecode(s: string)
    requires Decode(s).Some?
    ensures Encode(Decode(s).value) == s
  {
    if s != [] {
      EncodeDecode(s[2..]);
      var rest := Decode(s[2..]).value;
      var b := (Value(s[0]) << 4) | Value(s[1]);
      assert Decode(s).value == [b] + rest;
      assert ([b] + rest)[1..] == rest;
      var e := EncodeByte(b);
      DigitValue(b >> 4);
      DigitValue(b & 0x0F);
      ValueDigit(s[0]);
      ValueDigit(s[1]);
      NibblesOf(Value(s[0]), Value(s[1]));
      assert e == s[..2];
      assert s == s[..2] + s[2..];
    }
  }

  /** Splitting a byte assembled from two nibbles gives the nibbles back. */
  lemma NibblesOf(hi: bv8, lo: bv8)
    requires hi < 16 && lo < 16
    ensures ((hi << 4) | lo) >> 4 == hi && ((hi << 4) | lo) & 0x0F == lo
  {
  }

  /** Distinct byte slices print differently. */
  lemma EncodeInjective(a: seq<bv8>, b: seq<bv8>)
    ensures Encode(a) == Encode(b) <==> a == b
  {
    if Encode(a) == Encode(b) {
      DecodeEncode(a);
      DecodeEncode(b);
    }
  }
}
