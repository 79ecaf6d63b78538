/** The digest a host document is compared by (src/scans.rs:124-138): 64-bit FNV-1a.

    `u64` is written out as numbers below 2^64: exclusive or goes bit by bit and
    multiplication wraps. */
module Digest {

  const TWO_64: int := 0x1_0000_0000_0000_0000
  const BASIS: nat := 0xcbf2_9ce4_8422_2325
  const PRIME: nat := 0x0000_0100_0000_01b3

  /** The inverse of `PRIME` modulo 2^64, which exists because the prime is odd. */
  const INVERSE: nat := 0xce96_5057_aff6_957b

  type Byte = b: nat | b < 256

  function Pow2(bits: nat): (p: nat)
    ensures p > 0
  {
    if bits == 0 then 1 else 2 * Pow2(bits - 1)
  }

  /** Exclusive or of the low `bits` bits. */
  function Xor(a: nat, b: nat, bits: nat): (x: nat)
    ensures x < Pow2(bits)
  {
    if bits == 0 then 0 else 2 * Xor(a / 2, b / 2, bits - 1) + (a + b) % 2
  }

  function Step(digest: nat, byte: Byte): (next: nat)
    ensures next < TWO_64
  {
    Xor(digest, byte, 64) * PRIME % TWO_64
  }

  function Fnv(text: seq<Byte>): (digest: nat)
    ensures digest < TWO_64
  {
    if text == [] then BASIS else Step(Fnv(text[..|text| - 1]), text[|text| - 1])
  }

  method Hash(text: seq<Byte>) returns (digest: nat)
    ensures digest == Fnv(text)
  {
    digest := BASIS;
    for i := 0 to |text|
      invariant digest == Fnv(text[..i])
    {
      assert text[..i + 1][..i] == text[..i];
      digest := Xor(digest, text[i], 64);
      digest := digest * PRIME % TWO_64;
    }
    assert text[..|text|] == text;
  }

  // ---------------------------------------------------------------------------
  // Neither half of a step loses anything.
  // ---------------------------------------------------------------------------

  lemma PrimeCancels(x: nat, y: nat)
    requires x < TWO_64 && y < TWO_64
    requires x * PRIME % TWO_64 == y * PRIME % TWO_64
    ensures x == y
  {
    var d: int, k: int := x as int - y, (x * PRIME / TWO_64) as int - y * PRIME / TWO_64;
    assert d * PRIME == k * TWO_64;
    Factor(d, k);
  }

  lemma Factor(d: int, k: int)
    requires d * PRIME == k * TWO_64
    requires -TWO_64 < d < TWO_64
    ensures d == 0
  {
    var c := PRIME * INVERSE / TWO_64;
    assert PRIME * INVERSE == 1 + c * TWO_64;
    assert d * (PRIME * INVERSE) == (d * PRIME) * INVERSE;
    assert d + d * c * TWO_64 == k * TWO_64 * INVERSE;
    assert d == (k * INVERSE - d * c) * TWO_64;
  }

  lemma {:induction false} XorCancels(a: nat, b: nat, mask: nat, bits: nat)
    requires a < Pow2(bits) && b < Pow2(bits)
    requires Xor(a, mask, bits) == Xor(b, mask, bits) || Xor(mask, a, bits) == Xor(mask, b, bits)
    ensures a == b
  {
    if bits > 0 {
      LastBit(a, b, mask);
      XorCancels(a / 2, b / 2, mask / 2, bits - 1);
    }
  }

  lemma LastBit(a: nat, b: nat, mask: nat)
    ensures (a + mask) % 2 == (b + mask) % 2 ==> a % 2 == b % 2
  {
  }

  lemma {:induction false} Pow2Adds(a: nat, b: nat)
    ensures Pow2(a + b) == Pow2(a) * Pow2(b)
  {
    if a > 0 {
      Pow2Adds(a - 1, b);
    }
  }

  lemma Squares(bits: nat, p: nat)
    requires Pow2(bits) == p
    ensures Pow2(bits + bits) == p * p
  {
    Pow2Adds(bits, bits);
  }

  lemma SixtyFourBits()
    ensures Pow2(64) == TWO_64
    ensures 256 <= TWO_64
  {
    Squares(1, 2);
    Squares(2, 4);
    Squares(4, 16);
    Squares(8, 256);
    Squares(16, 0x1_0000);
    Squares(32, 0x1_0000_0000);
  }

  lemma XorOnce(a: nat, b: nat, bits: nat)
    requires bits > 0
    ensures Xor(a, b, bits) == 2 * Xor(a / 2, b / 2, bits - 1) + (a + b) % 2
  {
  }

  lemma {:induction false} XorNothing(a: nat, bits: nat)
    requires a < Pow2(bits)
    ensures Xor(a, 0, bits) == a
  {
    if bits > 0 {
      XorNothing(a / 2, bits - 1);
    }
  }

  lemma OneByte(text: seq<Byte>)
    requires |text| == 1
    ensures Fnv(text) == Step(BASIS, text[0])
  {
    assert text[..0] == [];
  }

  lemma FirstXor(digest: nat, byte: Byte, bits: nat)
    requires digest == BASIS && byte == 0x61 && bits == 64
    ensures Xor(digest, byte, bits) == 0xcbf2_9ce4_8422_2344
  {
    WideEnough();
    XorOnce(0xcbf29ce484222325, 0x61, 64);
    XorOnce(0x65f94e7242111192, 0x30, 63);
    XorOnce(0x32fca739210888c9, 0x18, 62);
    XorOnce(0x197e539c90844464, 0xc, 61);
    XorOnce(0xcbf29ce48422232, 0x6, 60);
    XorOnce(0x65f94e724211119, 0x3, 59);
    XorOnce(0x32fca739210888c, 0x1, 58);
    XorNothing(0x197e539c9084446, 57);
  }

  lemma Multiplied(x: nat)
    requires x == 0xcbf2_9ce4_8422_2344
    ensures x * PRIME % TWO_64 == 0xaf63_dc4c_8601_ec8c
  {
  }

  lemma StepsTo(digest: nat, byte: Byte, x: nat, y: nat)
    requires Xor(digest, byte, 64) == x && x * PRIME % TWO_64 == y
    ensures Step(digest, byte) == y
  {
  }

  /** A published digest, of the one letter `a`. */
  lemma PublishedDigest(text: seq<Byte>)
    requires |text| == 1 && text[0] == 0x61
    ensures Fnv(text) == 0xaf63_dc4c_8601_ec8c
  {
    var basis, bits := BASIS, 64;
    OneByte(text);
    FirstXor(basis, text[0], bits);
    Multiplied(0xcbf2_9ce4_8422_2344);
    StepsTo(basis, text[0], 0xcbf2_9ce4_8422_2344, 0xaf63_dc4c_8601_ec8c);
  }

  lemma WideEnough()
    ensures 0x197e539c9084446 < Pow2(57)
  {
    SixtyFourBits();
    assert Pow2(7) == 128;
    Pow2Adds(57, 7);
  }

  lemma StepKeepsStatesApart(d: nat, e: nat, byte: Byte)
    requires d < TWO_64 && e < TWO_64 && Step(d, byte) == Step(e, byte)
    ensures d == e
  {
    SixtyFourBits();
    PrimeCancels(Xor(d, byte, 64), Xor(e, byte, 64));
    XorCancels(d, e, byte, 64);
  }

  lemma StepKeepsBytesApart(d: nat, a: Byte, b: Byte)
    requires d < TWO_64 && Step(d, a) == Step(d, b)
    ensures a == b
  {
    SixtyFourBits();
    PrimeCancels(Xor(d, a, 64), Xor(d, b, 64));
    XorCancels(a, b, d, 64);
  }

  // ---------------------------------------------------------------------------
  // So changes in one place of a document are never missed.
  // ---------------------------------------------------------------------------

  /** Two different running digests never meet again over the same remaining text. */
  lemma {:induction false} SameTailKeepsApart(a: seq<Byte>, b: seq<Byte>, tail: seq<Byte>)
    ensures Fnv(a + tail) == Fnv(b + tail) ==> Fnv(a) == Fnv(b)
  {
    if tail == [] {
      assert a + tail == a && b + tail == b;
    } else {
      var init, last := tail[..|tail| - 1], tail[|tail| - 1];
      assert (a + tail)[..|a + tail| - 1] == a + init && (b + tail)[..|b + tail| - 1] == b + init;
      if Fnv(a + tail) == Fnv(b + tail) {
        StepKeepsStatesApart(Fnv(a + init), Fnv(b + init), last);
        SameTailKeepsApart(a, b, init);
      }
    }
  }

  /** A host document that changed in exactly one byte is never taken for the one before. */
  lemma OneByteChangeIsSeen(document: seq<Byte>, at: nat, byte: Byte)
    requires at < |document| && byte != document[at]
    ensures Fnv(document[at := byte]) != Fnv(document)
  {
    var before, tail := document[..at], document[at + 1..];
    var was, now := before + [document[at]], before + [byte];
    assert document == was + tail && document[at := byte] == now + tail;
    if Fnv(now + tail) == Fnv(was + tail) {
      SameTailKeepsApart(now, was, tail);
      assert now[..at] == before && was[..at] == before;
      StepKeepsBytesApart(Fnv(before), byte, document[at]);
    }
  }
}
