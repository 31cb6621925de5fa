/** Hexadecimal text for bytes: `bytes.hex()`, which writes two lower-case
    digits per byte, and `bytes.fromhex()`, which reads digits of either
    case and skips ASCII whitespace between byte pairs. */
module Hex {
  import opened Wrappers
  import opened Utf8

  const DIGITS: string := "0123456789abcdef"

  predicate IsLowerHexDigit(c: char) {
    '0' <= c <= '9' || 'a' <= c <= 'f'
  }

  /** The value of a hexadecimal digit of either case. */
  function DigitValue(c: char): Option<int> {
    if '0' <= c <= '9' then Some(c as int - '0' as int)
    else if 'a' <= c <= 'f' then Some(c as int - 'a' as int + 10)
    else if 'A' <= c <= 'F' then Some(c as int - 'A' as int + 10)
    else None
  }

  /** The characters `bytes.fromhex` skips between pairs. */
  predicate IsAsciiSpace(c: char) {
    c == ' ' || c == '\t' || c == '\n' || c == '\r' || c == '\U{0B}' || c == '\U{0C}'
  }

  /** `bytes.hex()`. */
  function ToHex(bs: seq<byte>): (s: string)
    ensures |s| == 2 * |bs|
    ensures forall i :: 0 <= i < |s| ==> IsLowerHexDigit(s[i])
  {
    if bs == [] then []
    else [DIGITS[bs[0] / 16], DIGITS[bs[0] % 16]] + ToHex(bs[1..])
  }

  /** `bytes.fromhex(s)`: None where Python raises ValueError (a character
      that is neither a digit nor whitespace, or an odd digit out). */
  function FromHex(s: string): Option<seq<byte>> {
    if s == [] then Some([])
    else if IsAsciiSpace(s[0]) then FromHex(s[1..])
    else if |s| < 2 || DigitValue(s[0]).None? || DigitValue(s[1]).None? then None
    else
      match FromHex(s[2..])
      case None => None
      case Some(rest) => Some([(DigitValue(s[0]).value * 16 + DigitValue(s[1]).value) as byte] + rest)
  }

  /** `bytes.fromhex` on two characters, the first of them not a space. */
  lemma FromHexPair(x: char, y: char)
    requires !IsAsciiSpace(x)
    ensures FromHex([x, y]) == if DigitValue(x).Some? && DigitValue(y).Some?
                               then Some([(DigitValue(x).value * 16 + DigitValue(y).value) as byte])
                               else None
  {
    var s := [x, y];
    assert s[0] == x && s[1] == y && |s| == 2;
    assert s[2..] == [] && FromHex(s[2..]) == Some([]);
    if DigitValue(x).Some? && DigitValue(y).Some? {
      var b := (DigitValue(x).value * 16 + DigitValue(y).value) as byte;
      assert [b] + [] == [b];
    }
  }

  lemma DigitValueOfDigit(n: int)
    requires 0 <= n < 16
    ensures DigitValue(DIGITS[n]) == Some(n)
  {
  }

  /** A byte is its high digit times sixteen plus its low digit. */
  lemma ByteDigits(b: byte)
    ensures (b as int / 16) * 16 + b as int % 16 == b as int
  {
  }

  /** `bytes.fromhex` reads a leading pair of hex digits as one byte. */
  lemma FromHexHead(s: string, hi: int, lo: int)
    requires |s| >= 2 && 0 <= hi < 16 && 0 <= lo < 16
    requires DigitValue(s[0]) == Some(hi) && DigitValue(s[1]) == Some(lo)
    requires FromHex(s[2..]).Some?
    ensures FromHex(s) == Some([(hi * 16 + lo) as byte] + FromHex(s[2..]).value)
  {
    assert !IsAsciiSpace(s[0]);
  }

  /** Round trip: reading back the hex text of any bytes gives the bytes. */
  lemma {:induction false} FromHexToHex(bs: seq<byte>)
    ensures FromHex(ToHex(bs)) == Some(bs)
  {
    if bs != [] {
      var s := ToHex(bs);
      var hi, lo := bs[0] as int / 16, bs[0] as int % 16;
      assert s == [DIGITS[hi], DIGITS[lo]] + ToHex(bs[1..]);
      assert s[2..] == ToHex(bs[1..]);
      DigitValueOfDigit(hi);
      DigitValueOfDigit(lo);
      FromHexToHex(bs[1..]);
      FromHexHead(s, hi, lo);
      ByteDigits(bs[0]);
      assert bs == [bs[0]] + bs[1..];
    }
  }
}
