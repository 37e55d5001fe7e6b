/** Hexadecimal text, as the loops over toString(16) and parseInt(_, 16) read and write it. */
module Hex {
  import opened Wrappers

  const DIGITS := "0123456789abcdef"

  function ToString16(n: nat): (s: string)
    ensures |s| > 0
  {
    if n < 16 then [DIGITS[n]] else ToString16(n / 16) + [DIGITS[n % 16]]
  }

  function PadStart(s: string, width: nat, fill: char): string
    decreases width - |s|
  {
    if |s| >= width then s else PadStart([fill] + s, width, fill)
  }

  function HexOfByte(b: Byte): string {
    PadStart(ToString16(b), 2, '0')
  }

  /** What toHex returns. */
  function Encode(bytes: seq<Byte>): string {
    if bytes == [] then "" else HexOfByte(bytes[0]) + Encode(bytes[1..])
  }

  method ToHex(bytes: seq<Byte>) returns (out: string)
    ensures out == Encode(bytes)
  {
    out := "";
    for i := 0 to |bytes|
      invariant out + Encode(bytes[i..]) == Encode(bytes)
    {
      out := out + HexOfByte(bytes[i]);
      assert bytes[i..][1..] == bytes[i + 1..];
    }
  }

  // Reading.

  function DigitValue(c: char): Option<nat> {
    if '0' <= c <= '9' then Some(c as int - '0' as int)
    else if 'a' <= c <= 'f' then Some(c as int - 'a' as int + 10)
    else if 'A' <= c <= 'F' then Some(c as int - 'A' as int + 10)
    else None
  }

  predicate IsHex(c: char) {
    DigitValue(c).Some?
  }

  predicate AllHex(s: string) {
    forall i :: 0 <= i < |s| ==> IsHex(s[i])
  }

  predicate IsSpace(c: char) {
    var n := c as int;
    || 0x09 <= n <= 0x0D || n == 0x20 || n == 0xA0 || n == 0x1680 || 0x2000 <= n <= 0x200A
    || n == 0x2028 || n == 0x2029 || n == 0x202F || n == 0x205F || n == 0x3000 || n == 0xFEFF
  }

  function TrimStart(s: string): string {
    if s != "" && IsSpace(s[0]) then TrimStart(s[1..]) else s
  }

  /** The longest prefix of hexadecimal digits, after a value already read. */
  function Digits(s: string, read: nat): nat {
    if s == "" || !IsHex(s[0]) then read else Digits(s[1..], 16 * read + DigitValue(s[0]).value)
  }

  function Unprefixed(s: string): string {
    if |s| >= 2 && s[0] == '0' && (s[1] == 'x' || s[1] == 'X') then s[2..] else s
  }

  function Unsigned(s: string): Option<nat> {
    var t := Unprefixed(s);
    if t == "" || !IsHex(t[0]) then None else Some(Digits(t, 0))
  }

  /** parseInt(s, 16); None is NaN. */
  function ParseInt16(s: string): Option<int> {
    var t := TrimStart(s);
    if t != "" && (t[0] == '+' || t[0] == '-') then
      match Unsigned(t[1..])
      case Some(n) => var v: int := n; Some(if t[0] == '-' then -v else v)
      case None => None
    else
      Unsigned(t)
  }

  /** Assignment to an element of a Uint8Array. */
  function ToUint8(n: Option<int>): Byte {
    if n.None? then 0 else n.value % 256
  }

  /** The bytes that fromHex reads from text of even length. */
  function Decoded(hex: string): (r: seq<Byte>)
    requires |hex| % 2 == 0
    ensures |r| == |hex| / 2
  {
    if hex == "" then [] else [ToUint8(ParseInt16(hex[..2]))] + Decoded(hex[2..])
  }

  function Decode(hex: string): Option<seq<Byte>> {
    if |hex| % 2 != 0 then None else Some(Decoded(hex))
  }

  lemma {:induction false} DecodedAt(hex: string, i: nat)
    requires |hex| % 2 == 0 && i < |hex| / 2
    ensures Decoded(hex)[i] == ToUint8(ParseInt16(hex[i * 2..i * 2 + 2]))
  {
    if i > 0 {
      DecodedAt(hex[2..], i - 1);
      assert hex[2..][(i - 1) * 2..(i - 1) * 2 + 2] == hex[i * 2..i * 2 + 2];
    } else {
      assert hex[0 * 2..0 * 2 + 2] == hex[..2];
    }
  }

  method FromHex(hex: string) returns (out: Option<array<Byte>>)
    ensures out.None? <==> Decode(hex).None?
    ensures out.Some? ==> fresh(out.value) && Decode(hex) == Some(out.value[..])
  {
    if |hex| % 2 != 0 {
      return None;
    }
    var a := new Byte[|hex| / 2](_ => 0);
    for i := 0 to a.Length
      invariant forall k :: 0 <= k < i ==> a[k] == Decoded(hex)[k]
    {
      DecodedAt(hex, i);
      a[i] := ToUint8(ParseInt16(hex[i * 2..i * 2 + 2]));
    }
    assert a[..] == Decoded(hex);
    out := Some(a);
  }

  // What fromHex makes of any pair of characters.

  /** The white space and line ends of ECMAScript. */
  const SPACES := {
    0x0009, 0x000A, 0x000B, 0x000C, 0x000D, 0x0020, 0x00A0, 0x1680, 0x2000, 0x2001, 0x2002, 0x2003, 0x2004, 0x2005,
    0x2006, 0x2007, 0x2008, 0x2009, 0x200A, 0x2028, 0x2029, 0x202F, 0x205F, 0x3000, 0xFEFF}

  lemma SpacesExactly(c: char)
    ensures IsSpace(c) <==> c as int in SPACES
  {
  }

  /** The value of a pair: stray characters are skipped, signs and spaces apart, or make it zero. */
  function PairByte(a: char, b: char): Byte {
    var x, y := DigitValue(a), DigitValue(b);
    if x.Some? then (if y.Some? then 16 * x.value + y.value else x.value) % 256
    else if y.None? then 0
    else if a == '-' then (256 - y.value) % 256
    else if a == '+' || a as int in SPACES then y.value % 256
    else 0
  }

  /** A digit and a stray character, which may be the 'x' of a prefix. */
  lemma HalfPair(s: string)
    requires |s| == 2 && IsHex(s[0]) && !IsHex(s[1])
    ensures ToUint8(ParseInt16(s)) == DigitValue(s[0]).value % 256
  {
    assert TrimStart(s) == s && s[1..][0] == s[1] && s[2..] == "";
    assert Digits(s, 0) == Digits(s[1..], DigitValue(s[0]).value) == DigitValue(s[0]).value;
  }

  lemma PairExactly(s: string)
    requires |s| == 2
    ensures ToUint8(ParseInt16(s)) == PairByte(s[0], s[1])
  {
    var a, b := s[0], s[1];
    assert s[1..] == [b] && s[1..][1..] == "" && s == [a] + [b];
    assert s[2..] == "";
    if IsHex(a) && IsHex(b) {
      PairValue(s);
    } else if IsHex(a) {
      HalfPair(s);
    } else {
      StrayPair(s);
    }
  }

  /** A space or a sign before a digit is skipped; any other first character makes the pair zero. */
  lemma StrayPair(s: string)
    requires |s| == 2 && !IsHex(s[0])
    ensures ToUint8(ParseInt16(s)) == PairByte(s[0], s[1])
  {
    assert s[1..] == [s[1]];
    SpacesExactly(s[0]);
    LonePair(s[1]);
    if IsSpace(s[0]) {
      assert TrimStart(s) == TrimStart([s[1]]);
    } else {
      assert TrimStart(s) == s;
    }
  }

  lemma LonePair(b: char)
    ensures [b][1..] == "" && Unprefixed([b]) == [b]
    ensures Unsigned([b]) == DigitValue(b)
    ensures TrimStart([b]) == if IsSpace(b) then "" else [b]
  {
    if IsHex(b) {
      assert Digits([b], 0) == Digits("", DigitValue(b).value);
    }
  }

  /** Every byte of what fromHex returns is the value of its pair, and it returns something exactly for even lengths. */
  lemma DecodeExactly(hex: string)
    ensures Decode(hex).Some? <==> |hex| % 2 == 0
    ensures Decode(hex).Some? ==>
              && |Decode(hex).value| == |hex| / 2
              && forall i :: 0 <= i < |hex| / 2 ==> Decode(hex).value[i] == PairByte(hex[2 * i], hex[2 * i + 1])
  {
    if |hex| % 2 == 0 {
      forall i | 0 <= i < |hex| / 2 ensures Decode(hex).value[i] == PairByte(hex[2 * i], hex[2 * i + 1]) {
        DecodedAt(hex, i);
        PairExactly(hex[i * 2..i * 2 + 2]);
      }
    }
  }

  lemma {:induction false} EncodeAt(bytes: seq<Byte>, i: nat)
    requires i < |bytes|
    ensures |Encode(bytes)| == 2 * |bytes|
    ensures Encode(bytes)[2 * i..2 * i + 2] == [DIGITS[bytes[i] / 16], DIGITS[bytes[i] % 16]]
  {
    var rest := Encode(bytes[1..]);
    ByteDigits(bytes[0]);
    assert Encode(bytes) == HexOfByte(bytes[0]) + rest;
    if |bytes| > 1 {
      EncodeAt(bytes[1..], if i > 0 then i - 1 else 0);
    }
    if i > 0 {
      assert Encode(bytes)[2..] == rest;
      assert Encode(bytes)[2 * i..2 * i + 2] == rest[2 * (i - 1)..2 * (i - 1) + 2];
    }
  }

  /** Every byte is written as its two digits, the high one first. */
  lemma EncodeExactly(bytes: seq<Byte>)
    ensures |Encode(bytes)| == 2 * |bytes|
    ensures forall i :: 0 <= i < |bytes| ==>
              Encode(bytes)[2 * i..2 * i + 2] == [DIGITS[bytes[i] / 16], DIGITS[bytes[i] % 16]]
  {
    if bytes != [] {
      EncodeAt(bytes, 0);
    }
    forall i | 0 <= i < |bytes|
      ensures Encode(bytes)[2 * i..2 * i + 2] == [DIGITS[bytes[i] / 16], DIGITS[bytes[i] % 16]]
    {
      EncodeAt(bytes, i);
    }
  }

  // Round trips.

  function LowerChar(c: char): char {
    if 'A' <= c <= 'Z' then (c as int + 32) as char else c
  }

  function Lower(s: string): (r: string)
    ensures |r| == |s|
  {
    seq(|s|, i requires 0 <= i < |s| => LowerChar(s[i]))
  }

  lemma ByteDigits(b: Byte)
    ensures HexOfByte(b) == [DIGITS[b / 16], DIGITS[b % 16]]
  {
    if b < 16 {
      assert PadStart(['0'] + ToString16(b), 2, '0') == ['0'] + ToString16(b);
    } else {
      assert ToString16(b / 16) == [DIGITS[b / 16]];
    }
  }

  lemma DigitInverse(n: nat)
    requires n < 16
    ensures DigitValue(DIGITS[n]) == Some(n) && IsHex(DIGITS[n])
  {
  }

  /** A pair of digits is read as the byte it writes. */
  lemma PairValue(s: string)
    requires |s| == 2 && IsHex(s[0]) && IsHex(s[1])
    ensures ToUint8(ParseInt16(s)) == 16 * DigitValue(s[0]).value + DigitValue(s[1]).value
  {
    var x, y := DigitValue(s[0]).value, DigitValue(s[1]).value;
    assert TrimStart(s) == s && Unprefixed(s) == s;
    assert s[1..] == [s[1]] && s[1..][1..] == "";
    assert Digits(s, 0) == Digits(s[1..], x) == Digits("", 16 * x + y);
    Nibbles(x, y);
  }

  lemma Nibbles(x: nat, y: nat)
    requires x < 16 && y < 16
    ensures 0 <= 16 * x + y < 256 && (16 * x + y) / 16 == x && (16 * x + y) % 16 == y
    ensures (16 * x + y) % 256 == 16 * x + y
  {
  }

  lemma DecodedCons(pair: string, rest: string)
    requires |pair| == 2 && |rest| % 2 == 0
    ensures Decoded(pair + rest) == [ToUint8(ParseInt16(pair))] + Decoded(rest)
  {
    assert (pair + rest)[..2] == pair && (pair + rest)[2..] == rest;
  }

  lemma ByteRoundTrip(b: Byte)
    ensures ToUint8(ParseInt16(HexOfByte(b))) == b
  {
    ByteDigits(b);
    DigitInverse(b / 16);
    DigitInverse(b % 16);
    PairValue(HexOfByte(b));
  }

  /** Reading back what was written gives the same bytes. */
  lemma {:induction false} HexRoundTrip(bytes: seq<Byte>)
    ensures Decode(Encode(bytes)) == Some(bytes)
  {
    if bytes != [] {
      var pair, rest := HexOfByte(bytes[0]), Encode(bytes[1..]);
      ByteDigits(bytes[0]);
      ByteRoundTrip(bytes[0]);
      HexRoundTrip(bytes[1..]);
      DecodedCons(pair, rest);
      assert [bytes[0]] + bytes[1..] == bytes;
    }
  }

  lemma DigitLower(c: char)
    ensures DigitValue(c).Some? ==> DigitValue(c).value < 16 && DIGITS[DigitValue(c).value] == LowerChar(c)
    ensures IsHex(LowerChar(c)) ==> IsHex(c)
  {
  }

  lemma HexPairNormal(s: string, b: Byte)
    requires |s| == 2 && IsHex(s[0]) && IsHex(s[1])
    requires b == 16 * DigitValue(s[0]).value + DigitValue(s[1]).value
    ensures HexOfByte(b) == Lower(s)
  {
    DigitLower(s[0]);
    DigitLower(s[1]);
    Nibbles(DigitValue(s[0]).value, DigitValue(s[1]).value);
    ByteDigits(b);
    assert Lower(s) == [LowerChar(s[0]), LowerChar(s[1])];
  }

  lemma NormalPairHex(s: string, b: Byte)
    requires |s| == 2 && HexOfByte(b) == Lower(s)
    ensures IsHex(s[0]) && IsHex(s[1])
  {
    ByteDigits(b);
    DigitInverse(b / 16);
    DigitInverse(b % 16);
    DigitLower(s[0]);
    DigitLower(s[1]);
    assert Lower(s)[0] == LowerChar(s[0]) && Lower(s)[1] == LowerChar(s[1]);
  }

  lemma EncodedCons(b: Byte, rest: seq<Byte>)
    ensures Encode([b] + rest) == HexOfByte(b) + Encode(rest) && |HexOfByte(b)| == 2
  {
    ByteDigits(b);
    assert ([b] + rest)[1..] == rest;
  }

  lemma SplitPair(s: string)
    requires |s| >= 2
    ensures Lower(s) == Lower(s[..2]) + Lower(s[2..])
    ensures AllHex(s) <==> AllHex(s[..2]) && AllHex(s[2..])
  {
    assert s == s[..2] + s[2..];
  }

  lemma SamePair(a: string, b: string, c: string, d: string)
    requires |a| == |c|
    ensures a + b == c + d <==> a == c && b == d
  {
    assert a == (a + b)[..|a|] && b == (a + b)[|a|..] && c == (c + d)[..|c|] && d == (c + d)[|c|..];
  }

  lemma PairNormalForm(s: string, b: Byte)
    requires |s| == 2 && b == ToUint8(ParseInt16(s))
    ensures HexOfByte(b) == Lower(s) <==> AllHex(s)
  {
    if AllHex(s) {
      PairValue(s);
      HexPairNormal(s, b);
    }
    if HexOfByte(b) == Lower(s) {
      NormalPairHex(s, b);
    }
  }

  /** Text of even length comes back in lower case exactly when it is hexadecimal; otherwise bytes were made up. */
  lemma {:induction false} HexNormalForm(hex: string)
    requires |hex| % 2 == 0
    ensures Encode(Decoded(hex)) == Lower(hex) <==> AllHex(hex)
  {
    if hex != "" {
      var b := ToUint8(ParseInt16(hex[..2]));
      EncodedCons(b, Decoded(hex[2..]));
      SplitPair(hex);
      HexNormalForm(hex[2..]);
      PairNormalForm(hex[..2], b);
      SamePair(HexOfByte(b), Encode(Decoded(hex[2..])), Lower(hex[..2]), Lower(hex[2..]));
    }
  }
}
