/**
 Cutting a PCM buffer into fixed-size frames: the frame count is the
 ceiling of the buffer length over the frame size, every frame is exactly
 one frame long, and the last one is padded with zero bytes.
 */
module Framing {
  import opened Rtp

  /** `k` zero bytes: a silent stretch of 16-bit PCM. */
  function Zeros(k: nat): (z: seq<Byte>)
    ensures |z| == k
    ensures forall j :: 0 <= j < k ==> z[j] == 0
  {
    seq(k, _ => 0)
  }

  /** `a * c <= b * c` for `a <= b` and non-negative `c`. */
  lemma MulMonotonic(a: int, b: int, c: int)
    requires a <= b && 0 <= c
    ensures a * c <= b * c
  {
    assert b * c - a * c == (b - a) * c;
  }

  /** `(a + 1) * c` is one more `c` than `a * c`. */
  lemma MulSucc(a: int, c: int)
    ensures (a + 1) * c == a * c + c
  {
  }

  /** The number of frames the channel method computes, `ceil(len / bpf)`, as integer ceiling division. */
  function NumFrames(len: nat, bpf: nat): nat
    requires bpf > 0
  {
    (len + bpf - 1) / bpf
  }

  /** The frame count is the ceiling of `len / bpf`: the least `n` with `n * bpf >= len`. */
  lemma NumFramesIsCeiling(len: nat, bpf: nat)
    requires bpf > 0
    ensures (NumFrames(len, bpf) - 1) * bpf < len <= NumFrames(len, bpf) * bpf
  {
    var n := NumFrames(len, bpf);
    var r := (len + bpf - 1) % bpf;
    assert len + bpf - 1 == n * bpf + r;
    MulSucc(n - 1, bpf);
  }

  /** Only one count `n` has `(n - 1) * bpf < len <= n * bpf`. */
  lemma CeilingUnique(len: nat, bpf: nat, a: nat, b: nat)
    requires bpf > 0
    requires (a - 1) * bpf < len <= a * bpf
    requires (b - 1) * bpf < len <= b * bpf
    ensures a == b
  {
    if a < b {
      MulMonotonic(a, b - 1, bpf);
    } else if b < a {
      MulMonotonic(b, a - 1, bpf);
    }
  }

  /**
   The payload cut at `offset`: the `bpf` bytes there when the buffer holds
   them, otherwise what is left of the buffer followed by zeros.
   */
  function Frame(pcm: seq<Byte>, offset: nat, bpf: nat): (f: seq<Byte>)
    requires offset <= |pcm|
    ensures |f| == bpf
    ensures forall j :: 0 <= j < bpf ==> f[j] == if offset + j < |pcm| then pcm[offset + j] else 0
  {
    var end := offset + bpf;
    if end <= |pcm| then
      pcm[offset..end]
    else
      pcm[offset..] + Zeros(bpf - (|pcm| - offset))
  }

  /**
   The frames of a buffer, cut from the front: the frame at byte 0, then the
   frames of whatever is left after it.
   */
  function Frames(pcm: seq<Byte>, bpf: nat): (fs: seq<seq<Byte>>)
    requires bpf > 0
    ensures |fs| == 0 <==> |pcm| == 0
    ensures forall k :: 0 <= k < |fs| ==> |fs[k]| == bpf
    decreases |pcm|
  {
    if |pcm| == 0 then []
    else [Frame(pcm, 0, bpf)] + (if |pcm| <= bpf then [] else Frames(pcm[bpf..], bpf))
  }

  /** Joins frames back into one byte stream, as a receiver plays them out. */
  function Concat(frames: seq<seq<Byte>>): (s: seq<Byte>)
  {
    if |frames| == 0 then [] else frames[0] + Concat(frames[1..])
  }

  /** The frames cover the buffer, and the last one starts inside it. */
  lemma {:induction false} FramesCover(pcm: seq<Byte>, bpf: nat)
    requires bpf > 0
    ensures (|Frames(pcm, bpf)| - 1) * bpf < |pcm| <= |Frames(pcm, bpf)| * bpf
    decreases |pcm|
  {
    var n := |Frames(pcm, bpf)|;
    if |pcm| > bpf {
      FramesCover(pcm[bpf..], bpf);
      assert n == 1 + |Frames(pcm[bpf..], bpf)|;
      MulSucc(n - 1, bpf);
      MulSucc(n - 2, bpf);
    }
  }

  /** There are exactly as many frames as the channel method's `ceil(len / bpf)` loop runs. */
  lemma FramesCount(pcm: seq<Byte>, bpf: nat)
    requires bpf > 0
    ensures |Frames(pcm, bpf)| == NumFrames(|pcm|, bpf)
  {
    FramesCover(pcm, bpf);
    NumFramesIsCeiling(|pcm|, bpf);
    CeilingUnique(|pcm|, bpf, |Frames(pcm, bpf)|, NumFrames(|pcm|, bpf));
  }

  /** Cutting after dropping `bpf` bytes is cutting `bpf` bytes further on. */
  lemma FrameShift(pcm: seq<Byte>, bpf: nat, offset: nat)
    requires bpf <= |pcm| && offset <= |pcm| - bpf
    ensures Frame(pcm[bpf..], offset, bpf) == Frame(pcm, offset + bpf, bpf)
  {
    var a := Frame(pcm[bpf..], offset, bpf);
    var b := Frame(pcm, offset + bpf, bpf);
    assert forall j :: 0 <= j < bpf ==> a[j] == b[j];
  }

  /** The byte at which frame `i` starts: `bpf` bytes past the start of frame `i - 1`. */
  function FrameStart(i: nat, bpf: nat): nat
  {
    if i == 0 then 0 else FrameStart(i - 1, bpf) + bpf
  }

  /** Frame `i` starts at byte `i * bpf`, where the channel method cuts it. */
  lemma {:induction false} FrameStartIsProduct(i: nat, bpf: nat)
    ensures FrameStart(i, bpf) == i * bpf
  {
    if i > 0 {
      FrameStartIsProduct(i - 1, bpf);
      MulSucc(i - 1, bpf);
    }
  }

  /**
   Frame `i` is the one cut at the byte where it starts, and that byte lies
   inside the buffer.
   */
  lemma {:induction false} FrameAt(pcm: seq<Byte>, bpf: nat, i: nat)
    requires bpf > 0 && i < |Frames(pcm, bpf)|
    ensures FrameStart(i, bpf) < |pcm|
    ensures Frames(pcm, bpf)[i] == Frame(pcm, FrameStart(i, bpf), bpf)
    decreases i
  {
    if i > 0 {
      var rest := pcm[bpf..];
      assert Frames(pcm, bpf)[i] == Frames(rest, bpf)[i - 1];
      FrameAt(rest, bpf, i - 1);
      FrameShift(pcm, bpf, FrameStart(i - 1, bpf));
    }
  }

  /**
   Framing loses nothing and invents nothing but padding: the frames joined
   together are the buffer followed by fewer than `bpf` zero bytes.
   */
  lemma {:induction false} FramesRoundTrip(pcm: seq<Byte>, bpf: nat)
    requires bpf > 0
    ensures var joined := Concat(Frames(pcm, bpf));
      && |pcm| <= |joined| < |pcm| + bpf
      && joined == pcm + Zeros(|joined| - |pcm|)
    decreases |pcm|
  {
    var fs := Frames(pcm, bpf);
    if |pcm| > 0 {
      var head := Frame(pcm, 0, bpf);
      assert Concat(fs) == head + Concat(fs[1..]);
      if |pcm| <= bpf {
        assert fs[1..] == [];
        assert head == pcm + Zeros(bpf - |pcm|);
      } else {
        var rest := pcm[bpf..];
        assert fs[1..] == Frames(rest, bpf);
        FramesRoundTrip(rest, bpf);
        var tail := Concat(Frames(rest, bpf));
        assert head == pcm[..bpf];
        assert pcm == pcm[..bpf] + rest;
        assert Concat(fs) == pcm[..bpf] + (rest + Zeros(|tail| - |rest|));
      }
    }
  }

  /** Dropping the padding from the joined frames recovers the buffer exactly. */
  lemma FramesRecoverBuffer(pcm: seq<Byte>, bpf: nat)
    requires bpf > 0
    ensures |pcm| <= |Concat(Frames(pcm, bpf))|
    ensures Concat(Frames(pcm, bpf))[..|pcm|] == pcm
  {
    FramesRoundTrip(pcm, bpf);
    var joined := Concat(Frames(pcm, bpf));
    assert joined == pcm + Zeros(|joined| - |pcm|);
  }
}
