/**
 Base64 and its URL-safe form (sections 4 and 5 of RFC 4648) around the
 browser's btoa and atob, which work on strings of characters below 256.
 */
module Base64 {
  import opened Wrappers

  type Sextet = n: int | 0 <= n < 64

  /** The alphabet of section 4: A-Z, a-z, 0-9, plus and slash. */
  function Letter(n: Sextet): char {
    if n < 26 then ('A' as int + n) as char
    else if n < 52 then ('a' as int + n - 26) as char
    else if n < 62 then ('0' as int + n - 52) as char
    else if n == 62 then '+'
    else '/'
  }

  function Value(c: char): Option<Sextet> {
    if 'A' <= c <= 'Z' then Some(c as int - 'A' as int)
    else if 'a' <= c <= 'z' then Some(c as int - 'a' as int + 26)
    else if '0' <= c <= '9' then Some(c as int - '0' as int + 52)
    else if c == '+' then Some(62)
    else if c == '/' then Some(63)
    else None
  }

  /** Three bytes to four sextets; one or two bytes left over to two or three. */
  function Sextets(b: seq<Byte>): seq<Sextet> {
    if b == [] then []
    else if |b| == 1 then [b[0] / 4, b[0] % 4 * 16]
    else if |b| == 2 then [b[0] / 4, b[0] % 4 * 16 + b[1] / 16, b[1] % 16 * 4]
    else [b[0] / 4, b[0] % 4 * 16 + b[1] / 16, b[1] % 16 * 4 + b[2] / 64, b[2] % 64] + Sextets(b[3..])
  }

  function FirstOctet(v: Sextet, w: Sextet): Byte {
    var high: int := v;
    high * 4 + w / 16
  }

  function SecondOctet(v: Sextet, w: Sextet): Byte {
    var high: int := v % 16;
    high * 16 + w / 4
  }

  function ThirdOctet(v: Sextet, w: Sextet): Byte {
    var high: int := v % 4;
    high * 64 + w
  }

  function Octets(v: seq<Sextet>): seq<Byte> {
    if |v| < 2 then []
    else if |v| == 2 then [FirstOctet(v[0], v[1])]
    else if |v| == 3 then [FirstOctet(v[0], v[1]), SecondOctet(v[1], v[2])]
    else [FirstOctet(v[0], v[1]), SecondOctet(v[1], v[2]), ThirdOctet(v[2], v[3])] + Octets(v[4..])
  }

  function Spell(v: seq<Sextet>): (s: string)
    ensures |s| == |v|
  {
    seq(|v|, i requires 0 <= i < |v| => Letter(v[i]))
  }

  function Letters(b: seq<Byte>): string {
    Spell(Sextets(b))
  }

  function Fill(n: nat): string {
    if n == 0 then "" else "=" + Fill(n - 1)
  }

  /** How many '=' bring a length to a multiple of four. */
  function Missing(n: nat): nat {
    (4 - n % 4) % 4
  }

  function Encode(b: seq<Byte>): string {
    Letters(b) + Fill(Missing(|Letters(b)|))
  }

  predicate IsBinary(s: string) {
    forall i :: 0 <= i < |s| ==> s[i] as int < 256
  }

  function Chars(b: seq<Byte>): (s: string)
    ensures |s| == |b| && IsBinary(s)
  {
    seq(|b|, i requires 0 <= i < |b| => b[i] as char)
  }

  function Codes(s: string): (b: seq<Byte>)
    requires IsBinary(s)
    ensures |b| == |s|
  {
    seq(|s|, i requires 0 <= i < |s| => s[i] as int)
  }

  function Btoa(s: string): Option<string> {
    if IsBinary(s) then Some(Encode(Codes(s))) else None
  }

  // Decoding is forgiving: white space is ignored and the padding may be absent.

  predicate IsAsciiSpace(c: char) {
    c == ' ' || c == '\t' || c == '\n' || c == '\r' || c == '\U{000C}'
  }

  function Unspaced(s: string): string {
    if s == "" then "" else (if IsAsciiSpace(s[0]) then "" else [s[0]]) + Unspaced(s[1..])
  }

  /** Up to two '=' are dropped from the end of text whose length is a multiple of four. */
  function Unpadded(s: string): string {
    if |s| % 4 != 0 || s == "" || s[|s| - 1] != '=' then s
    else if s[|s| - 2] != '=' then s[..|s| - 1]
    else s[..|s| - 2]
  }

  predicate AllLetters(s: string) {
    forall i :: 0 <= i < |s| ==> Value(s[i]).Some?
  }

  function Read(s: string): (v: seq<Sextet>)
    requires AllLetters(s)
    ensures |v| == |s|
  {
    seq(|s|, i requires 0 <= i < |s| => Value(s[i]).value)
  }

  function Bytes(s: string): seq<Byte>
    requires AllLetters(s)
  {
    Octets(Read(s))
  }

  function Atob(s: string): Option<string> {
    var t := Unpadded(Unspaced(s));
    if |t| % 4 == 1 || !AllLetters(t) then None else Some(Chars(Bytes(t)))
  }

  // The wrappers.

  method ToBase64(bytes: seq<Byte>) returns (r: string)
    ensures r == Encode(bytes)
  {
    var binary := "";
    for i := 0 to |bytes|
      invariant binary == Chars(bytes)[..i]
    {
      binary := binary + [bytes[i] as char];
    }
    assert binary == Chars(bytes) && Codes(binary) == bytes;
    r := Btoa(binary).value;
  }

  /** What fromBase64 returns; None where atob throws. */
  function FromBase64(b64: string): Option<seq<Byte>> {
    match Atob(b64)
    case None => None
    case Some(binary) => if IsBinary(binary) then Some(Codes(binary)) else None
  }

  method DecodeBase64(b64: string) returns (out: Option<array<Byte>>)
    ensures out.None? <==> FromBase64(b64).None?
    ensures out.Some? ==> fresh(out.value) && FromBase64(b64) == Some(out.value[..])
  {
    var binary := Atob(b64);
    if binary.None? {
      return None;
    }
    assert IsBinary(binary.value);
    var a := new Byte[|binary.value|](_ => 0);
    for i := 0 to a.Length
      invariant forall k :: 0 <= k < i ==> a[k] == binary.value[k] as int
    {
      a[i] := binary.value[i] as int;
    }
    assert a[..] == Codes(binary.value);
    out := Some(a);
  }

  function Replace(s: string, from: char, to: char): (r: string)
    ensures |r| == |s|
    ensures forall i :: 0 <= i < |s| ==> r[i] == if s[i] == from then to else s[i]
  {
    seq(|s|, i requires 0 <= i < |s| => if s[i] == from then to else s[i])
  }

  function TrimEnd(s: string): string {
    if s != "" && s[|s| - 1] == '=' then TrimEnd(s[..|s| - 1]) else s
  }

  function ToBase64Url(bytes: seq<Byte>): string {
    TrimEnd(Replace(Replace(Encode(bytes), '+', '-'), '/', '_'))
  }

  function FromBase64Url(b64url: string): Option<seq<Byte>> {
    var b64 := Replace(Replace(b64url, '-', '+'), '_', '/');
    FromBase64(b64 + Fill(Missing(|b64|)))
  }

  /** The padding loop stops at the first multiple of four. */
  method DecodeBase64Url(b64url: string) returns (out: Option<array<Byte>>)
    ensures out.None? <==> FromBase64Url(b64url).None?
    ensures out.Some? ==> fresh(out.value) && FromBase64Url(b64url) == Some(out.value[..])
  {
    ghost var start := Replace(Replace(b64url, '-', '+'), '_', '/');
    var b64 := Replace(Replace(b64url, '-', '+'), '_', '/');
    ghost var added := 0;
    while |b64| % 4 != 0
      invariant added <= Missing(|start|) && b64 == start + Fill(added)
      invariant |b64| == |start| + added
      decreases Missing(|start|) - added
    {
      FillGrows(added);
      b64 := b64 + "=";
      added := added + 1;
    }
    assert added == Missing(|start|);
    out := DecodeBase64(b64);
  }

  lemma {:induction false} FillGrows(n: nat)
    ensures Fill(n) + "=" == Fill(n + 1) && |Fill(n)| == n
  {
    if n > 0 {
      FillGrows(n - 1);
      assert Fill(n) + "=" == "=" + (Fill(n - 1) + "=");
    }
  }

  // Round trips.

  lemma LetterInverse(n: Sextet)
    ensures Value(Letter(n)) == Some(n)
  {
  }

  lemma ReadSpelt(v: seq<Sextet>)
    ensures AllLetters(Spell(v)) && Read(Spell(v)) == v
  {
    forall i | 0 <= i < |v| ensures Value(Spell(v)[i]) == Some(v[i]) {
      LetterInverse(v[i]);
    }
  }

  lemma Regroup(x: Byte, y: Byte, z: Byte)
    ensures FirstOctet(x / 4, x % 4 * 16 + y / 16) == x
    ensures SecondOctet(x % 4 * 16 + y / 16, y % 16 * 4 + z / 64) == y
    ensures ThirdOctet(y % 16 * 4 + z / 64, z % 64) == z
  {
  }

  lemma OctetsOfTriple(x: Byte, y: Byte, z: Byte, rest: seq<Sextet>)
    ensures Octets([x / 4, x % 4 * 16 + y / 16, y % 16 * 4 + z / 64, z % 64] + rest) == [x, y, z] + Octets(rest)
  {
    var v := [x / 4, x % 4 * 16 + y / 16, y % 16 * 4 + z / 64, z % 64] + rest;
    Regroup(x, y, z);
    assert v[4..] == rest;
  }

  lemma {:induction false} OctetsOfSextets(b: seq<Byte>)
    ensures Octets(Sextets(b)) == b
  {
    if |b| >= 3 {
      OctetsOfSextets(b[3..]);
      OctetsOfTriple(b[0], b[1], b[2], Sextets(b[3..]));
      assert b == [b[0], b[1], b[2]] + b[3..];
    } else if |b| == 2 {
      OctetsOfTwo(b[0], b[1]);
    } else if |b| == 1 {
      OctetsOfOne(b[0]);
    }
  }

  lemma OctetsOfTwo(x: Byte, y: Byte)
    ensures Octets([x / 4, x % 4 * 16 + y / 16, y % 16 * 4]) == [x, y]
  {
    Regroup(x, y, 0);
  }

  lemma OctetsOfOne(x: Byte)
    ensures Octets([x / 4, x % 4 * 16]) == [x]
  {
    Regroup(x, 0, 0);
  }

  /** How many letters n bytes take without padding. */
  function LetterCount(n: nat): nat {
    n / 3 * 4 + if n % 3 == 0 then 0 else n % 3 + 1
  }

  lemma {:induction false} SextetCount(b: seq<Byte>)
    ensures |Sextets(b)| == LetterCount(|b|)
  {
    if |b| >= 3 {
      SextetCount(b[3..]);
      assert |b[3..]| / 3 == |b| / 3 - 1 && |b[3..]| % 3 == |b| % 3;
    }
  }

  lemma MissingOf(q: nat, r: nat)
    requires r < 4
    ensures (q * 4 + r) % 4 == r && Missing(q * 4 + r) == (4 - r) % 4
  {
  }

  lemma PaddedCount(n: nat)
    ensures LetterCount(n) % 4 != 1
    ensures LetterCount(n) + Missing(LetterCount(n)) == 4 * ((n + 2) / 3)
  {
    MissingOf(n / 3, if n % 3 == 0 then 0 else n % 3 + 1);
    assert (n + 2) / 3 == n / 3 + if n % 3 == 0 then 0 else 1;
  }

  lemma BytesOfLetters(b: seq<Byte>)
    ensures AllLetters(Letters(b)) && Bytes(Letters(b)) == b
    ensures |Letters(b)| == LetterCount(|b|) && |Letters(b)| % 4 != 1
  {
    OctetsOfSextets(b);
    SextetCount(b);
    PaddedCount(|b|);
    ReadSpelt(Sextets(b));
  }

  lemma {:induction false} NoSpaces(s: string)
    requires forall i :: 0 <= i < |s| ==> !IsAsciiSpace(s[i])
    ensures Unspaced(s) == s
  {
    if s != "" {
      NoSpaces(s[1..]);
    }
  }

  lemma UnpadFilled(s: string)
    requires AllLetters(s) && |s| % 4 != 1
    ensures Unpadded(s + Fill(Missing(|s|))) == s
  {
    var n := Missing(|s|);
    FillIsFill(n);
    FillGrows(n);
    assert s == "" || Value(s[|s| - 1]).Some?;
    UnpaddedFill(s, Fill(n));
  }

  lemma UnpaddedFill(s: string, fill: string)
    requires (|s| + |fill|) % 4 == 0 && |fill| <= 2 && (s == "" ==> fill == "")
    requires s == "" || s[|s| - 1] != '='
    requires forall i :: 0 <= i < |fill| ==> fill[i] == '='
    ensures Unpadded(s + fill) == s
  {
    var t := s + fill;
    assert t[..|s|] == s;
    if |fill| == 1 {
      assert t[|t| - 1] == '=' && t[|t| - 2] == s[|s| - 1];
    } else if |fill| == 2 {
      assert t[|t| - 1] == '=' && t[|t| - 2] == '=';
    }
  }

  lemma AtobOfLetters(s: string)
    requires AllLetters(s) && |s| % 4 != 1
    ensures FromBase64(s + Fill(Missing(|s|))) == Some(Bytes(s))
  {
    var n := Missing(|s|);
    FillGrows(n);
    FillIsFill(n);
    NoSpaces(s + Fill(n));
    UnpadFilled(s);
    assert Codes(Chars(Bytes(s))) == Bytes(s);
  }

  lemma {:induction false} FillIsFill(n: nat)
    ensures forall i :: 0 <= i < |Fill(n)| ==> Fill(n)[i] == '='
  {
    if n > 0 {
      FillIsFill(n - 1);
    }
  }

  lemma Base64RoundTrip(b: seq<Byte>)
    ensures FromBase64(Encode(b)) == Some(b)
  {
    BytesOfLetters(b);
    AtobOfLetters(Letters(b));
  }

  lemma {:induction false} TrimFilled(s: string, n: nat)
    requires s == "" || s[|s| - 1] != '='
    ensures TrimEnd(s + Fill(n)) == s
  {
    if n > 0 {
      FillGrows(n - 1);
      assert (s + Fill(n))[..|s + Fill(n)| - 1] == s + Fill(n - 1);
      TrimFilled(s, n - 1);
    } else {
      assert s + Fill(n) == s;
    }
  }

  predicate UrlSafe(c: char) {
    (Value(c).Some? && c != '+' && c != '/') || c == '-' || c == '_'
  }

  /** The URL-safe text is the letters with two of them renamed, and no padding. */
  lemma UrlText(b: seq<Byte>)
    ensures ToBase64Url(b) == Replace(Replace(Letters(b), '+', '-'), '/', '_')
    ensures forall i :: 0 <= i < |ToBase64Url(b)| ==> UrlSafe(ToBase64Url(b)[i])
  {
    BytesOfLetters(b);
    var s, n := Replace(Replace(Letters(b), '+', '-'), '/', '_'), Missing(|Letters(b)|);
    FillIsFill(n);
    assert Replace(Replace(Encode(b), '+', '-'), '/', '_') == s + Fill(n);
    TrimFilled(s, n);
  }

  lemma Base64UrlRoundTrip(b: seq<Byte>)
    ensures FromBase64Url(ToBase64Url(b)) == Some(b)
  {
    UrlText(b);
    BytesOfLetters(b);
    assert Replace(Replace(ToBase64Url(b), '-', '+'), '_', '/') == Letters(b);
    AtobOfLetters(Letters(b));
  }

  lemma EncodedLength(b: seq<Byte>)
    ensures |Encode(b)| == 4 * ((|b| + 2) / 3)
  {
    BytesOfLetters(b);
    PaddedCount(|b|);
    FillGrows(Missing(|Letters(b)|));
  }

  // What the text says, bit for bit.

  const UPPER := "ABCDEFGHIJKLMNOPQRSTUVWXYZ"

  const LOWER := "abcdefghijklmnopqrstuvwxyz"

  const DIGITS := "0123456789"

  const ALPHABET := UPPER + LOWER + DIGITS + "+/"

  lemma UpperAt(i: nat)
    requires i < 26
    ensures |UPPER| == 26 && UPPER[i] == ('A' as int + i) as char
  {
  }

  lemma LowerAt(i: nat)
    requires i < 26
    ensures |LOWER| == 26 && LOWER[i] == ('a' as int + i) as char
  {
  }

  lemma DigitAt(i: nat)
    requires i < 10
    ensures |DIGITS| == 10 && DIGITS[i] == ('0' as int + i) as char
  {
  }

  /** Table 1 of RFC 4648. */
  lemma AlphabetExactly(n: Sextet, c: char)
    ensures |ALPHABET| == 64 && Letter(n) == ALPHABET[n]
    ensures Value(c) == Some(n) <==> c == ALPHABET[n]
  {
    LetterInverse(n);
    if n < 26 {
      UpperAt(n);
    } else if n < 52 {
      LowerAt(n - 26);
    } else if n < 62 {
      DigitAt(n - 52);
    }
  }

  /** Four sextets as one number. */
  function FromSextets(v: seq<Sextet>): int
    requires |v| == 4
  {
    var a: int, b: int, c: int := v[0], v[1], v[2];
    ((a * 64 + b) * 64 + c) * 64 + v[3]
  }

  function FromOctets(b: seq<Byte>): int
    requires |b| == 3
  {
    var x: int, y: int := b[0], b[1];
    (x * 256 + y) * 256 + b[2]
  }

  function Zeros(n: nat): (r: seq<Sextet>)
    ensures |r| == n && forall i :: 0 <= i < n ==> r[i] == 0
  {
    seq(n, _ => 0)
  }

  lemma GroupBits(x: Byte, y: Byte, z: Byte)
    ensures FromSextets([x / 4, x % 4 * 16 + y / 16, y % 16 * 4 + z / 64, z % 64]) == FromOctets([x, y, z])
  {
  }

  /** The sextets of every group of three bytes are its bits, in order. */
  lemma {:induction false} SextetBits(b: seq<Byte>, i: nat)
    requires i < |b| / 3
    ensures 4 * i + 4 <= |Sextets(b)|
    ensures FromSextets(Sextets(b)[4 * i..4 * i + 4]) == FromOctets(b[3 * i..3 * i + 3])
  {
    var v, w := Sextets(b), Sextets(b[3..]);
    assert v[4..] == w;
    if i == 0 {
      GroupBits(b[0], b[1], b[2]);
      assert v[..4] == [b[0] / 4, b[0] % 4 * 16 + b[1] / 16, b[1] % 16 * 4 + b[2] / 64, b[2] % 64];
      assert v[0..4] == v[..4] && b[0..3] == [b[0], b[1], b[2]];
    } else {
      SextetBits(b[3..], i - 1);
      assert v[4 * i..4 * i + 4] == w[4 * (i - 1)..4 * (i - 1) + 4];
      assert b[3 * i..3 * i + 3] == b[3..][3 * (i - 1)..3 * (i - 1) + 3];
    }
  }

  /** Those of one or two bytes at the end are their bits, filled up with zeros. */
  lemma {:induction false} LastSextets(b: seq<Byte>)
    requires |b| % 3 != 0
    ensures |Sextets(b)| == |b| / 3 * 4 + |b| % 3 + 1
    ensures FromSextets(Sextets(b)[|b| / 3 * 4..] + Zeros(3 - |b| % 3))
            == FromOctets(b[|b| / 3 * 3..] + Zeros(3 - |b| % 3))
  {
    var v := Sextets(b);
    if |b| == 1 {
      assert v[0..] + Zeros(2) == [b[0] / 4, b[0] % 4 * 16, 0, 0] && b[0..] + Zeros(2) == [b[0], 0, 0];
    } else if |b| == 2 {
      assert v[0..] + Zeros(1) == [b[0] / 4, b[0] % 4 * 16 + b[1] / 16, b[1] % 16 * 4, 0];
      assert b[0..] + Zeros(1) == [b[0], b[1], 0];
    } else {
      LastSextets(b[3..]);
      assert |b[3..]| / 3 == |b| / 3 - 1 && |b[3..]| % 3 == |b| % 3 && v[4..] == Sextets(b[3..]);
      assert v[|b| / 3 * 4..] == Sextets(b[3..])[(|b| / 3 - 1) * 4..];
      assert b[|b| / 3 * 3..] == b[3..][(|b| / 3 - 1) * 3..];
    }
  }

  /** The text is those sextets in letters, and then nothing but padding up to a multiple of four. */
  lemma EncodeExactly(b: seq<Byte>)
    ensures |Encode(b)| == 4 * ((|b| + 2) / 3) && |Sextets(b)| == LetterCount(|b|) <= |Encode(b)|
    ensures forall i :: 0 <= i < |Encode(b)| ==>
              Encode(b)[i] == if i < LetterCount(|b|) then ALPHABET[Sextets(b)[i]] else '='
  {
    SextetCount(b);
    EncodedLength(b);
    FillIsFill(Missing(|Letters(b)|));
    FillGrows(Missing(|Letters(b)|));
    forall i | 0 <= i < |Sextets(b)| ensures Encode(b)[i] == ALPHABET[Sextets(b)[i]] {
      AlphabetExactly(Sextets(b)[i], 'A');
    }
  }

  // What atob accepts, and as what.

  /** White space is ignored wherever it stands. */
  lemma {:induction false} SpaceIgnored(s: string, i: nat, c: char)
    requires i <= |s| && IsAsciiSpace(c)
    ensures FromBase64(s[..i] + [c] + s[i..]) == FromBase64(s)
  {
    SpaceDropped(s, i, c);
  }

  lemma {:induction false} SpaceDropped(s: string, i: nat, c: char)
    requires i <= |s| && IsAsciiSpace(c)
    ensures Unspaced(s[..i] + [c] + s[i..]) == Unspaced(s)
  {
    var t := s[..i] + [c] + s[i..];
    if i == 0 {
      assert t[1..] == s;
    } else {
      assert t[0] == s[0] && t[1..] == s[1..][..i - 1] + [c] + s[1..][i - 1..];
      SpaceDropped(s[1..], i - 1, c);
    }
  }

  /** Letters, and at most two '=' that bring them to a multiple of four. */
  predicate Splits(s: string, t: string, k: nat) {
    s == t + Fill(k) && AllLetters(t) && |t| % 4 != 1 && k <= 2 && (k > 0 ==> |s| % 4 == 0)
  }

  lemma SplitUnpads(s: string, t: string, k: nat)
    requires Splits(s, t, k)
    ensures Unpadded(s) == t
  {
    FillGrows(k);
    FillIsFill(k);
    assert t != "" ==> Value(t[|t| - 1]).Some?;
    if k > 0 {
      UnpaddedFill(t, Fill(k));
    } else {
      assert s == t;
    }
  }

  lemma UnpaddedSplits(s: string)
    requires AllLetters(Unpadded(s)) && |Unpadded(s)| % 4 != 1
    ensures Splits(s, Unpadded(s), |s| - |Unpadded(s)|)
  {
    var t := Unpadded(s);
    var k := |s| - |t|;
    FillGrows(0);
    FillGrows(1);
    FillIsFill(k);
    FillGrows(k);
    assert s == t + s[|t|..];
    assert s[|t|..] == Fill(k);
  }

  /** Text without white space is accepted exactly if it is such letters and padding, and they decide what it says. */
  lemma AcceptedExactly(s: string)
    requires forall i :: 0 <= i < |s| ==> !IsAsciiSpace(s[i])
    ensures FromBase64(s).Some? <==> exists t, k :: Splits(s, t, k)
    ensures forall t, k :: Splits(s, t, k) ==> FromBase64(s) == Some(Bytes(t))
  {
    NoSpaces(s);
    if FromBase64(s).Some? {
      UnpaddedSplits(s);
    }
    forall t, k | Splits(s, t, k) ensures FromBase64(s) == Some(Bytes(t)) {
      SplitUnpads(s, t, k);
      assert Codes(Chars(Bytes(t))) == Bytes(t);
    }
  }

  /** How many bytes n letters make. */
  function ByteCount(n: nat): nat {
    n / 4 * 3 + if n % 4 == 3 then 2 else if n % 4 == 2 then 1 else 0
  }

  lemma {:induction false} OctetCount(v: seq<Sextet>)
    ensures |Octets(v)| == ByteCount(|v|)
  {
    if |v| >= 4 {
      OctetCount(v[4..]);
      assert |v[4..]| / 4 == |v| / 4 - 1 && |v[4..]| % 4 == |v| % 4;
    }
  }

  lemma OctetGroup(p: Sextet, q: Sextet, r: Sextet, t: Sextet)
    ensures FromOctets([FirstOctet(p, q), SecondOctet(q, r), ThirdOctet(r, t)]) == FromSextets([p, q, r, t])
  {
  }

  lemma OctetsUnfold(v: seq<Sextet>)
    requires |v| >= 4
    ensures Octets(v) == [FirstOctet(v[0], v[1]), SecondOctet(v[1], v[2]), ThirdOctet(v[2], v[3])] + Octets(v[4..])
  {
  }

  lemma FirstOctets(v: seq<Sextet>)
    requires |v| >= 4
    ensures |Octets(v)| >= 3 && FromOctets(Octets(v)[0..3]) == FromSextets(v[0..4])
  {
    OctetsUnfold(v);
    OctetGroup(v[0], v[1], v[2], v[3]);
    assert Octets(v)[0..3] == [FirstOctet(v[0], v[1]), SecondOctet(v[1], v[2]), ThirdOctet(v[2], v[3])];
    assert v[0..4] == [v[0], v[1], v[2], v[3]];
  }

  /** Cutting off a prefix shifts the rest. */
  lemma Shift<T>(s: seq<T>, n: nat, i: nat, k: nat)
    requires n + i + k <= |s|
    ensures s[n..][i..i + k] == s[n + i..n + i + k]
  {
  }

  /** Every group of four letters makes the three bytes that have its bits. */
  lemma {:induction false} OctetBits(v: seq<Sextet>, i: nat)
    requires i < |v| / 4
    ensures 3 * i + 3 <= |Octets(v)|
    ensures FromOctets(Octets(v)[3 * i..3 * i + 3]) == FromSextets(v[4 * i..4 * i + 4])
  {
    if i == 0 {
      FirstOctets(v);
    } else {
      OctetBits(v[4..], i - 1);
      OctetsUnfold(v);
      LaterGroup(v, Octets(v), Octets(v[4..]), i);
    }
  }

  lemma LaterGroup(v: seq<Sextet>, b: seq<Byte>, w: seq<Byte>, i: nat)
    requires 0 < i && 4 * i + 4 <= |v| && |b| == |w| + 3 && b[3..] == w && 3 * (i - 1) + 3 <= |w|
    requires FromOctets(w[3 * (i - 1)..3 * (i - 1) + 3]) == FromSextets(v[4..][4 * (i - 1)..4 * (i - 1) + 4])
    ensures FromOctets(b[3 * i..3 * i + 3]) == FromSextets(v[4 * i..4 * i + 4])
  {
    Shift(b, 3, 3 * (i - 1), 3);
    Shift(v, 4, 4 * (i - 1), 4);
  }

  lemma OctetOfTwo(p: Sextet, q: Sextet)
    ensures FirstOctet(p, q) as int == FromSextets([p, q, 0, 0]) / 65536
  {
  }

  lemma OctetsOfThree(p: Sextet, q: Sextet, r: Sextet)
    ensures FirstOctet(p, q) as int == FromSextets([p, q, r, 0]) / 65536
    ensures SecondOctet(q, r) as int == FromSextets([p, q, r, 0]) / 256 % 256
  {
    OctetGroup(p, q, r, 0);
    Places(FirstOctet(p, q), SecondOctet(q, r), ThirdOctet(r, 0));
  }

  lemma Places(x: Byte, y: Byte, z: Byte)
    ensures FromOctets([x, y, z]) / 65536 == x as int && FromOctets([x, y, z]) / 256 % 256 == y as int
  {
    var a: int, b: int := x, y;
    assert FromOctets([x, y, z]) == (a * 256 + b) * 256 + z;
    Quotients(a, b, z);
  }

  lemma Quotients(x: int, y: int, z: int)
    requires 0 <= x && 0 <= y < 256 && 0 <= z < 256
    ensures ((x * 256 + y) * 256 + z) / 65536 == x && ((x * 256 + y) * 256 + z) / 256 == x * 256 + y
    ensures (x * 256 + y) % 256 == y
  {
  }

  /** Two or three letters at the end make one or two bytes; the bits left over are dropped. */
  lemma {:induction false} LastOctets(v: seq<Sextet>)
    requires |v| % 4 == 2 || |v| % 4 == 3
    ensures |Octets(v)| == |v| / 4 * 3 + |v| % 4 - 1
    ensures var n: nat, bits := |v| / 4 * 3, FromSextets(v[|v| / 4 * 4..] + Zeros(4 - |v| % 4));
            && Octets(v)[n] == bits / 65536
            && (|v| % 4 == 3 ==> Octets(v)[n + 1] == bits / 256 % 256)
  {
    if |v| == 2 {
      assert v[0..] + Zeros(2) == [v[0], v[1], 0, 0];
      OctetOfTwo(v[0], v[1]);
    } else if |v| == 3 {
      assert v[0..] + Zeros(1) == [v[0], v[1], v[2], 0];
      OctetsOfThree(v[0], v[1], v[2]);
    } else {
      LastOctets(v[4..]);
      assert |v[4..]| / 4 == |v| / 4 - 1 && |v[4..]| % 4 == |v| % 4 && Octets(v)[3..] == Octets(v[4..]);
      assert v[|v| / 4 * 4..] == v[4..][(|v| / 4 - 1) * 4..];
    }
  }

  /** URL-safe text without '=' or white space is accepted exactly if its letters and its length are possible. */
  lemma UrlAcceptedExactly(s: string)
    requires forall i :: 0 <= i < |s| ==> s[i] != '=' && !IsAsciiSpace(s[i])
    ensures FromBase64Url(s).Some? <==>
            |s| % 4 != 1 && forall i :: 0 <= i < |s| ==> Value(s[i]).Some? || s[i] == '-' || s[i] == '_'
  {
    var b := Replace(Replace(s, '-', '+'), '_', '/');
    assert forall i :: 0 <= i < |b| ==> b[i] != '=' && !IsAsciiSpace(b[i]);
    FilledAcceptedExactly(b);
    assert AllLetters(b) <==> forall i :: 0 <= i < |s| ==> Value(s[i]).Some? || s[i] == '-' || s[i] == '_';
  }

  /** Without white space only the padding is taken off. */
  lemma UnspacedAccepted(s: string)
    requires forall i :: 0 <= i < |s| ==> !IsAsciiSpace(s[i])
    ensures FromBase64(s).Some? <==> |Unpadded(s)| % 4 != 1 && AllLetters(Unpadded(s))
  {
    NoSpaces(s);
  }

  lemma FilledAcceptedExactly(b: string)
    requires forall i :: 0 <= i < |b| ==> b[i] != '=' && !IsAsciiSpace(b[i])
    ensures FromBase64(b + Fill(Missing(|b|))).Some? <==> |b| % 4 != 1 && AllLetters(b)
  {
    FillGrows(Missing(|b|));
    FillIsFill(Missing(|b|));
    PaddedLength(|b|);
    UnspacedAccepted(b + Fill(Missing(|b|)));
    FilledUnpads(b, Fill(Missing(|b|)));
  }

  lemma FilledUnpads(b: string, fill: string)
    requires (|b| + |fill|) % 4 == 0 && if |b| % 4 == 1 then |fill| == 3 else |fill| <= 2
    requires forall i :: 0 <= i < |b| ==> b[i] != '='
    requires forall i :: 0 <= i < |fill| ==> fill[i] == '='
    requires b == "" ==> fill == ""
    ensures |b| % 4 != 1 ==> Unpadded(b + fill) == b
    ensures |b| % 4 == 1 ==> !AllLetters(Unpadded(b + fill))
  {
    if |b| % 4 == 1 {
      ThreeTooMany(b, fill);
    } else {
      UnpaddedFill(b, fill);
    }
  }

  lemma PaddedLength(n: nat)
    ensures (n + Missing(n)) % 4 == 0 && (n % 4 != 1 ==> Missing(n) <= 2) && (n % 4 == 1 ==> Missing(n) == 3)
  {
  }

  /** Of three '=' one is left. */
  lemma ThreeTooMany(s: string, fill: string)
    requires |fill| == 3 && (|s| + 3) % 4 == 0 && forall i :: 0 <= i < 3 ==> fill[i] == '='
    ensures !AllLetters(Unpadded(s + fill))
  {
    var t := s + fill;
    assert t[|t| - 1] == '=' && t[|t| - 2] == '=';
    assert Unpadded(t)[|s|] == '=';
  }
}
