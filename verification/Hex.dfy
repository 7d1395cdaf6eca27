/** Hexadecimal strings: the store keys of objects are the bytes of their ids, written so. */
module Hex {
  import opened CountedCodec

  function Digit(n: int): (r: char)
    requires 0 <= n < 16
  {
    (if n < 10 then '0' as int + n else 'a' as int + n - 10) as char
  }

  /** The value of a hex digit, in either case. */
  function DigitValue(c: char): (r: Option<int>) {
    if 'A' <= c <= 'F' then Some(c as int - 'A' as int + 10)
    else if 'a' <= c <= 'f' then Some(c as int - 'a' as int + 10)
    else if '0' <= c <= '9' then Some(c as int - '0' as int)
    else None
  }

  predicate IsHex(s: string) {
    forall i :: 0 <= i < |s| ==> DigitValue(s[i]).Some?
  }

  function ByteString(b: Byte): (r: string) {
    [Digit(b / 16), Digit(b % 16)]
  }

  function ToHex(bytes: seq<Byte>): (r: string)
    ensures |r| == 2 * |bytes|
  {
    if bytes == [] then [] else ToHex(bytes[..|bytes| - 1]) + ByteString(bytes[|bytes| - 1])
  }

  function PairValue(high: char, low: char): (r: int)
    requires DigitValue(high).Some? && DigitValue(low).Some?
    ensures 0 <= r < 256
  {
    DigitValue(high).value * 16 + DigitValue(low).value
  }

  /** The bytes of a string of hex digits; an odd digit at its end is ignored. */
  function Pairs(s: string): (r: seq<Byte>)
    requires IsHex(s)
  {
    if |s| < 2 then []
    else if |s| % 2 == 1 then Pairs(s[..|s| - 1])
    else Pairs(s[..|s| - 2]) + [PairValue(s[|s| - 2], s[|s| - 1])]
  }

  function LowerChar(c: char): (r: char) {
    if 'A' <= c <= 'F' then (c as int + 32) as char else c
  }

  function Lower(s: string): (r: string)
    ensures |r| == |s|
  {
    if s == [] then [] else Lower(s[..|s| - 1]) + [LowerChar(s[|s| - 1])]
  }

  lemma ByteReads(b: Byte)
    ensures var s := ByteString(b);
      DigitValue(s[0]).Some? && DigitValue(s[1]).Some? && PairValue(s[0], s[1]) == b
  {
    assert b == (b / 16) * 16 + b % 16;
  }

  lemma ByteWrites(high: char, low: char)
    requires DigitValue(high).Some? && DigitValue(low).Some?
    ensures ByteString(PairValue(high, low)) == [LowerChar(high), LowerChar(low)]
  {
    var h, l := DigitValue(high).value, DigitValue(low).value;
    assert (h * 16 + l) / 16 == h && (h * 16 + l) % 16 == l;
    assert Digit(h) == LowerChar(high) && Digit(l) == LowerChar(low);
  }

  /** What was written reads back. */
  lemma {:induction false} HexRoundTrip(bytes: seq<Byte>)
    ensures IsHex(ToHex(bytes)) && Pairs(ToHex(bytes)) == bytes
  {
    if bytes != [] {
      var n := |bytes| - 1;
      var front, last := ToHex(bytes[..n]), ByteString(bytes[n]);
      HexRoundTrip(bytes[..n]);
      ByteReads(bytes[n]);
      assert (front + last)[..|front|] == front;
      assert IsHex(front + last);
    }
  }

  /** Different ids never share a store key. */
  lemma HexInjective(a: seq<Byte>, b: seq<Byte>)
    requires ToHex(a) == ToHex(b)
    ensures a == b
  {
    HexRoundTrip(a);
    HexRoundTrip(b);
  }

  lemma LowerOfTwo(front: string, high: char, low: char)
    ensures Lower(front + [high, low]) == Lower(front) + [LowerChar(high), LowerChar(low)]
  {
    assert (front + [high, low])[..|front| + 1] == front + [high];
    assert (front + [high])[..|front|] == front;
  }

  lemma {:induction false} PairsWriteBack(s: string)
    requires IsHex(s) && |s| % 2 == 0
    ensures ToHex(Pairs(s)) == Lower(s)
  {
    if s != [] {
      var front, high, low := s[..|s| - 2], s[|s| - 2], s[|s| - 1];
      PairsWriteBack(front);
      ByteWrites(high, low);
      LowerOfTwo(front, high, low);
      assert s == front + [high, low];
      ToHexOneMore(Pairs(front), PairValue(high, low));
    }
  }

  lemma ToHexOneMore(bytes: seq<Byte>, b: Byte)
    ensures ToHex(bytes + [b]) == ToHex(bytes) + ByteString(b)
  {
    assert (bytes + [b])[..|bytes|] == bytes;
  }

  lemma OddDigitIgnored(s: string)
    requires IsHex(s) && |s| % 2 == 1
    ensures Pairs(s) == Pairs(s[..|s| - 1])
  {
  }

  /** What was read writes back as the same digits in lower case, up to an odd digit at the end. */
  lemma {:induction false} HexWritesBack(s: string)
    requires IsHex(s)
    ensures ToHex(Pairs(s)) == Lower(s[..|s| - |s| % 2])
  {
    if |s| % 2 == 0 {
      assert s[..|s|] == s;
      PairsWriteBack(s);
    } else {
      PairsWriteBack(s[..|s| - 1]);
      OddDigitIgnored(s);
    }
  }

  method ToString(value: seq<Byte>) returns (s: string)
    ensures s == ToHex(value)
  {
    s := "";
    for i := 0 to |value|
      invariant s == ToHex(value[..i])
    {
      assert value[..i + 1][..i] == value[..i];
      s := s + ByteString(value[i]);
    }
    assert value[..|value|] == value;
  }

  /** None exactly if some character is no hex digit. */
  method ToVec(hex: string) returns (bytes: Option<seq<Byte>>)
    ensures bytes.Some? <==> IsHex(hex)
    ensures bytes.Some? ==> bytes.value == Pairs(hex)
  {
    var out: seq<Byte>, b := [], 0;
    for i := 0 to |hex|
      invariant IsHex(hex[..i]) && out == Pairs(hex[..i])
      invariant if i % 2 == 0 then b == 0 else 0 <= b < 16 && DigitValue(hex[i - 1]) == Some(b)
    {
      b := b * 16;
      var digit := DigitValue(hex[i]);
      if digit.None? {
        return None;
      }
      assert IsHex(hex[..i + 1]);
      b := b + digit.value;
      if i % 2 == 1 {
        assert hex[..i + 1][..i - 1] == hex[..i - 1] == hex[..i][..i - 1];
        out := out + [b];
        b := 0;
      } else {
        assert hex[..i + 1][..i] == hex[..i];
      }
    }
    assert hex[..|hex|] == hex;
    return Some(out);
  }
}
