/**
 The envelope around an encrypted file, [u32 header length][header][content],
 and the frame budget that has to carry it in base64.
 */
module FileEnvelope {
  import opened Wrappers
  import Base64

  const TWO_TO_32 := 0x1_0000_0000

  /** DataView.setUint32, big-endian: the value is taken modulo 2^32. */
  function Uint32(n: nat): (r: seq<Byte>)
    ensures |r| == 4
  {
    [n / 256 / 256 / 256 % 256, n / 256 / 256 % 256, n / 256 % 256, n % 256]
  }

  function ReadUint32(b: seq<Byte>): nat
    requires |b| == 4
  {
    var n0: nat := b[0];
    var n1: nat := n0 * 256 + b[1];
    var n2: nat := n1 * 256 + b[2];
    n2 * 256 + b[3]
  }

  function Envelope(header: seq<Byte>, content: seq<Byte>): seq<Byte> {
    Uint32(|header|) + header + content
  }

  method Build(header: seq<Byte>, content: seq<Byte>) returns (envelope: array<Byte>)
    ensures fresh(envelope) && envelope[..] == Envelope(header, content)
  {
    envelope := new Byte[4 + |header| + |content|](_ => 0);
    var size := Uint32(|header|);
    for i := 0 to 4
      invariant envelope[..i] == size[..i]
    {
      envelope[i] := size[i];
    }
    for i := 0 to |header|
      invariant envelope[..4 + i] == size + header[..i]
    {
      envelope[4 + i] := header[i];
    }
    for i := 0 to |content|
      invariant envelope[..4 + |header| + i] == size + header + content[..i]
    {
      envelope[4 + |header| + i] := content[i];
    }
    assert envelope[..] == Envelope(header, content);
  }

  datatype Error = EnvelopeTooShort | InvalidHeaderLength

  /** The two slices that the receiver takes; every bound is checked before it is used. */
  function Parse(e: seq<Byte>): Result<(seq<Byte>, seq<Byte>), Error> {
    if |e| < 4 then Failure(EnvelopeTooShort)
    else
      var headerLen := ReadUint32(e[..4]);
      if 4 + headerLen > |e| then Failure(InvalidHeaderLength)
      else Success((e[4..4 + headerLen], e[4 + headerLen..]))
  }

  lemma Uint32RoundTrip(n: nat)
    ensures ReadUint32(Uint32(n)) == n % TWO_TO_32
  {
    var n1 := n / 256;
    var n2 := n1 / 256;
    var n3 := n2 / 256;
    var b := Uint32(n);
    assert b[0] == n3 % 256 && b[1] == n2 % 256 && b[2] == n1 % 256 && b[3] == n % 256;
    assert n == TWO_TO_32 * (n3 / 256) + ReadUint32(b);
    Remainder(n3 / 256, ReadUint32(b));
  }

  lemma Remainder(q: nat, r: nat)
    requires r < TWO_TO_32
    ensures (TWO_TO_32 * q + r) % TWO_TO_32 == r
  {
  }

  lemma Quotient(n: nat, d: Byte)
    ensures (n * 256 + d) / 256 == n && (n * 256 + d) % 256 == d
  {
  }

  lemma ReadUint32RoundTrip(b: seq<Byte>)
    requires |b| == 4
    ensures Uint32(ReadUint32(b)) == b
  {
    var n0: nat := b[0];
    var n1: nat := n0 * 256 + b[1];
    var n2: nat := n1 * 256 + b[2];
    Quotient(n0, b[1]);
    Quotient(n1, b[2]);
    Quotient(n2, b[3]);
  }

  /** Parsing a built envelope gives back both parts exactly when the length of the header fits 32 bits. */
  lemma EnvelopeRoundTrip(header: seq<Byte>, content: seq<Byte>)
    ensures Parse(Envelope(header, content)) == Success((header, content)) <==> |header| < TWO_TO_32
  {
    var e := Envelope(header, content);
    Uint32RoundTrip(|header|);
    assert e[..4] == Uint32(|header|);
    if |header| < TWO_TO_32 {
      assert e[4..4 + |header|] == header && e[4 + |header|..] == content;
    }
  }

  /** An envelope that the parser accepts is the envelope of what it returns. */
  lemma AcceptedRebuilds(e: seq<Byte>)
    requires Parse(e).Success?
    ensures var (header, content) := Parse(e).value; Envelope(header, content) == e && |header| < TWO_TO_32
  {
    ReadUint32RoundTrip(e[..4]);
    var n := ReadUint32(e[..4]);
    assert e == e[..4] + e[4..4 + n] + e[4 + n..];
  }

  /** The four bytes are the number modulo 2^32, the high one first. */
  lemma BigEndian(n: nat)
    ensures var b := Uint32(n);
            b[0] as int * 0x100_0000 + b[1] as int * 0x1_0000 + b[2] as int * 0x100 + b[3] as int == n % TWO_TO_32
  {
    Uint32RoundTrip(n);
  }

  /** The parser fails exactly if the length field is not there, or says more than there is; and says which. */
  lemma RejectedExactly(e: seq<Byte>)
    ensures Parse(e) == Failure(EnvelopeTooShort) <==> |e| < 4
    ensures Parse(e) == Failure(InvalidHeaderLength) <==>
            |e| >= 4 && !exists n :: 0 <= n <= |e| - 4 && Uint32(n) == e[..4] && n < TWO_TO_32
  {
    if |e| >= 4 {
      ReadUint32RoundTrip(e[..4]);
      forall n | 0 <= n <= |e| - 4 && Uint32(n) == e[..4] && n < TWO_TO_32 ensures Parse(e).Success? {
        Uint32RoundTrip(n);
      }
      if Parse(e).Success? {
        assert Uint32(ReadUint32(e[..4])) == e[..4];
      }
    }
  }

  // The frame budget.

  const GCM_TAG := 16

  /** Math.ceil(a / b). */
  function Ceil(a: nat, b: nat): nat
    requires b > 0
  {
    (a + b - 1) / b
  }

  function Max(a: nat, b: nat): nat {
    if a >= b then a else b
  }

  function WsMaxPayloadBytes(maxMessageSizeBytes: nat, maxFileSizeBytes: nat): nat {
    Max(maxMessageSizeBytes, Ceil((maxFileSizeBytes + 16) * 4, 3) + 8192)
  }

  /** The budget carries a message of the limit, a file of the limit with its tag and 8192 more bytes, and no more. */
  lemma BudgetExactly(maxMessage: nat, maxFile: nat, size: nat)
    ensures size <= WsMaxPayloadBytes(maxMessage, maxFile) <==>
            size <= maxMessage || 3 * size < 4 * (maxFile + 16) + 3 * 8192 + 3
  {
  }

  /** The size of a frame with the base64 text of n bytes of ciphertext and `other` more bytes. */
  function FrameSize(n: nat, other: nat): nat {
    4 * ((n + 2) / 3) + other
  }

  function CiphertextSize(headerLen: nat, fileSize: nat): nat {
    4 + headerLen + fileSize + GCM_TAG
  }

  lemma FrameSizeIsTextSize(ciphertext: seq<Byte>, other: nat)
    ensures FrameSize(|ciphertext|, other) == |Base64.Encode(ciphertext)| + other
  {
    Base64.EncodedLength(ciphertext);
  }

  /** What the header, its length field and the padding can add to a frame beyond the allowance for the bare file. */
  function Overhead(headerLen: nat): nat {
    var h := headerLen + 4;
    4 * (h / 3) + if h % 3 == 0 then 2 else if h % 3 == 1 then 4 else 5
  }

  /** Split off the multiples of three. */
  lemma FrameParts(q: nat, r: nat, k: nat, s: nat)
    requires r < 3 && s < 3
    ensures FrameSize(3 * q + r + (3 * k + s), 0) == 4 * q + 4 * k + FrameSize(r + s, 0)
    ensures Ceil((3 * q + r) * 4, 3) == 4 * q + Ceil(4 * r, 3)
  {
    assert 3 * q + r + (3 * k + s) + 2 == 3 * (q + k) + (r + s + 2);
    assert (3 * q + r) * 4 + 2 == 3 * (4 * q) + (4 * r + 2);
  }

  lemma FrameGrowth(m: nat, headerLen: nat)
    ensures FrameSize(m + headerLen + 4, 0) <= Ceil(m * 4, 3) + Overhead(headerLen)
    ensures m % 3 == (if (headerLen + 4) % 3 == 0 then 1 else if (headerLen + 4) % 3 == 1 then 0 else 2) ==>
              FrameSize(m + headerLen + 4, 0) == Ceil(m * 4, 3) + Overhead(headerLen)
  {
    var h := headerLen + 4;
    FrameParts(m / 3, m % 3, h / 3, h % 3);
    assert m == 3 * (m / 3) + m % 3 && h == 3 * (h / 3) + h % 3;
    assert FrameSize(m + headerLen + 4, 0) == FrameSize(3 * (m / 3) + m % 3 + (3 * (h / 3) + h % 3), 0);
  }

  /** Every file up to the limit fits, whatever the limits are. */
  ghost predicate AlwaysFits(headerLen: nat, other: nat) {
    forall maxMessage: nat, maxFile: nat, fileSize: nat :: fileSize <= maxFile ==>
      FrameSize(CiphertextSize(headerLen, fileSize), other) <= WsMaxPayloadBytes(maxMessage, maxFile)
  }

  /**
   The budget carries every permitted file exactly when the header and the rest
   of the frame stay within the reserve of 8192 bytes.
   */
  lemma FrameBudget(headerLen: nat, other: nat)
    ensures AlwaysFits(headerLen, other) <==> other + Overhead(headerLen) <= 8192
  {
    if other + Overhead(headerLen) <= 8192 {
      forall maxMessage: nat, maxFile: nat, fileSize: nat | fileSize <= maxFile
        ensures FrameSize(CiphertextSize(headerLen, fileSize), other) <= WsMaxPayloadBytes(maxMessage, maxFile)
      {
        FrameGrowth(maxFile + 16, headerLen);
        assert FrameSize(CiphertextSize(headerLen, fileSize), 0) <= FrameSize(maxFile + 16 + headerLen + 4, 0);
      }
    } else {
      var h := headerLen + 4;
      var maxFile := if h % 3 == 0 then 0 else if h % 3 == 1 then 2 else 1;
      FrameGrowth(maxFile + 16, headerLen);
      assert CiphertextSize(headerLen, maxFile) == maxFile + 16 + headerLen + 4;
      assert FrameSize(CiphertextSize(headerLen, maxFile), other) > WsMaxPayloadBytes(0, maxFile);
    }
  }

  /** In particular when the frame text and ceil((4h + 24) / 3) bytes fit the reserve. */
  lemma FrameBudgetSuffices(headerLen: nat, other: nat)
    requires other + Ceil(4 * headerLen + 24, 3) <= 8192
    ensures AlwaysFits(headerLen, other)
  {
    var h := headerLen + 4;
    assert h == 3 * (h / 3) + h % 3 && 4 * headerLen + 24 + 2 == 3 * (4 * (h / 3)) + (4 * (h % 3) + 10);
    FrameBudget(headerLen, other);
  }
}
