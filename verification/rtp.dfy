/**
 The fixed RTP header of section 5.1 of RFC 3550 and the modular arithmetic
 of its sequence-number and timestamp fields.
 */
module Rtp {

  const SeqModulus: nat := 0x1_0000
  const TsModulus: nat := 0x1_0000_0000

  type U8 = x: int | 0 <= x < 0x100
  type U16 = x: int | 0 <= x < 0x1_0000
  type U32 = x: int | 0 <= x < 0x1_0000_0000

  /** A PCM or payload byte. */
  type Byte = U8

  /** The sequence number `k` packets after `s`: Go's `uint16` increment, wrapping. */
  function SeqAfter(s: U16, k: nat): (r: U16)
    ensures (s + k - r) % SeqModulus == 0
  {
    (s + k) % SeqModulus
  }

  /** The timestamp `d` clock ticks after `t`: Go's `uint32` addition, wrapping. */
  function TsAfter(t: U32, d: nat): (r: U32)
    ensures (t + d - r) % TsModulus == 0
  {
    (t + d) % TsModulus
  }

  /** The fixed header fields the bridge sets (CSRC list empty, no extension). */
  datatype Header = Header(
    version: nat,
    padding: bool,
    extension: bool,
    marker: bool,
    payloadType: U8,
    sequenceNumber: U16,
    timestamp: U32,
    ssrc: U32)

  datatype Packet = Packet(header: Header, payload: seq<Byte>)

  /** The remainder modulo 2^16 is determined by any quotient-remainder split. */
  lemma SeqModUnique(x: int, q: int, r: int)
    requires 0 <= r < SeqModulus && x == q * SeqModulus + r
    ensures x % SeqModulus == r
  {
  }

  /** The remainder modulo 2^32 is determined by any quotient-remainder split. */
  lemma TsModUnique(x: int, q: int, r: int)
    requires 0 <= r < TsModulus && x == q * TsModulus + r
    ensures x % TsModulus == r
  {
  }

  /** `a` packets and then `b` more are `a + b` packets. */
  lemma SeqAfterCompose(s: U16, a: nat, b: nat)
    ensures SeqAfter(SeqAfter(s, a), b) == SeqAfter(s, a + b)
  {
    var q := (s + a) / SeqModulus;
    var r := (SeqAfter(s, a) + b) % SeqModulus;
    var q2 := (SeqAfter(s, a) + b) / SeqModulus;
    SeqModUnique(s + a + b, q + q2, r);
  }

  /** Timestamps compose the same way. */
  lemma TsAfterStep(t: U32, d: nat, e: nat)
    ensures TsAfter(TsAfter(t, d), e) == TsAfter(t, d + e)
  {
    var q := (t + d) / TsModulus;
    var r := (TsAfter(t, d) + e) % TsModulus;
    var q2 := (TsAfter(t, d) + e) / TsModulus;
    TsModUnique(t + d + e, q + q2, r);
  }

  /**
   Within any window of 2^16 packets no sequence number repeats: the
   offsets `j` and `k` map to the same number only when they are equal.
   */
  lemma SeqAfterInjective(s: U16, j: nat, k: nat)
    requires j < SeqModulus && k < SeqModulus
    ensures SeqAfter(s, j) == SeqAfter(s, k) <==> j == k
  {
    SeqAfterBelowTwice(s, j);
    SeqAfterBelowTwice(s, k);
  }

  /** Less than a full turn past `s`, the counter wraps at most once. */
  lemma SeqAfterBelowTwice(s: U16, k: nat)
    requires k < SeqModulus
    ensures SeqAfter(s, k) == if s + k < SeqModulus then s + k else s + k - SeqModulus
  {
    if s + k < SeqModulus {
      SeqModUnique(s + k, 0, s + k);
    } else {
      SeqModUnique(s + k, 1, s + k - SeqModulus);
    }
  }
}
