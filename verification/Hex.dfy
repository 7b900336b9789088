/** Strict hexadecimal of a fixed length. */
module Hex {
  import opened ByteStrings
  import opened Wrappers

  /** The value of a hexadecimal digit, of either case. */
  function DigitValue(c: char): Option<nat> {
    if '0' <= c <= '9' then Some((c as int) - ('0' as int))
    else if 'a' <= c <= 'f' then Some((c as int) - ('a' as int) + 10)
    else if 'A' <= c <= 'F' then Some((c as int) - ('A' as int) + 10)
    else None
  }

  predicate AllDigits(hex: string) {
    forall i :: 0 <= i < |hex| ==> DigitValue(hex[i]).Some?
  }

  predicate WellFormed(hex: string, size: nat) {
    |hex| == 2 * size && hex != "" && AllDigits(hex)
  }

  /** The bytes of a well-formed string, two digits each. */
  function Decoded(hex: string): (b: Bytes)
    requires AllDigits(hex) && |hex| % 2 == 0
    ensures |b| == |hex| / 2
  {
    if hex == "" then []
    else
      Decoded(hex[..|hex| - 2]) + [ByteOf(hex[|hex| - 2], hex[|hex| - 1])]
  }

  function ByteOf(high: char, low: char): Byte
    requires DigitValue(high).Some? && DigitValue(low).Some?
  {
    (DigitValue(high).value * 16 + DigitValue(low).value) as Byte
  }

  function FromHex(hex: string, size: nat): Option<Bytes> {
    if WellFormed(hex, size) then Some(Decoded(hex)) else None
  }

  method HexToBytes(hex: string, size: nat) returns (r: Option<Bytes>)
    ensures r == FromHex(hex, size)
  {
    if !WellFormed(hex, size) {
      return None;
    }
    var out: Bytes := [];
    for i := 0 to size
      invariant out == Decoded(hex[..2 * i])
    {
      assert hex[..2 * i + 2][..2 * i] == hex[..2 * i];
      out := out + [ByteOf(hex[2 * i], hex[2 * i + 1])];
    }
    assert hex[..2 * size] == hex;
    return Some(out);
  }

  function DigitOf(n: nat): char
    requires n < 16
  {
    if n < 10 then ('0' as int + n) as char else ('a' as int + n - 10) as char
  }

  function ToHex(b: Bytes): string {
    if b == [] then ""
    else
      var last := b[|b| - 1] as int;
      ToHex(b[..|b| - 1]) + [DigitOf(last / 16), DigitOf(last % 16)]
  }

  /** Every byte string of the right size is the decoding of its own hexadecimal. */
  lemma {:induction false} HexRoundTrip(b: Bytes)
    requires b != []
    ensures FromHex(ToHex(b), |b|) == Some(b)
  {
    ToHexDecodes(b);
  }

  lemma {:induction false} ToHexDecodes(b: Bytes)
    ensures |ToHex(b)| == 2 * |b| && AllDigits(ToHex(b)) && Decoded(ToHex(b)) == b
  {
    if b != [] {
      var before, last := b[..|b| - 1], b[|b| - 1] as int;
      ToHexDecodes(before);
      var hex := ToHex(b);
      assert hex[..|hex| - 2] == ToHex(before);
      assert ByteOf(DigitOf(last / 16), DigitOf(last % 16)) as int == last;
    }
  }
}
