/**
 Properties of the media bridge that relate several calls, or spell out
 what `SendPCM`'s contract means for the cases callers care about.
 */
module StreamProperties {
  import opened Wrappers
  import opened Rtp
  import opened Framing
  import opened ExternalMedia
  import opened Pacer

  /** The payloads of a list of datagrams, in order. */
  function Payloads(sent: seq<Datagram>): (ps: seq<seq<Byte>>)
    ensures |ps| == |sent|
    ensures forall k :: 0 <= k < |sent| ==> ps[k] == sent[k].packet.payload
  {
    seq(|sent|, k requires 0 <= k < |sent| => sent[k].packet.payload)
  }

  /**
   `ch1` is `ch0` with the sequence number moved on by `k` and the timestamp
   by `k` packets' worth of samples, both wrapping, and nothing else changed.
   */
  predicate CountersMoved(ch0: Channel, ch1: Channel, k: nat)
  {
    ch1 == ch0.(sequence := SeqAfter(ch0.sequence, k), timestamp := TsAfter(ch0.timestamp, k * ch0.samplesPerPkt))
  }

  /** A channel just built by the constructor has no peer, so sending fails and changes nothing. */
  lemma FreshChannelCannotSend(p: Params, exchange: HttpExchange, bindOk: bool, draws: Draws,
                               pcm: seq<Byte>, env: SendEnv)
    requires 0 <= draws.ssrc < MaxUint32
    requires 0 <= draws.sequence < MaxUint16
    requires 0 <= draws.timestamp < MaxUint32
    requires CreateExternalMediaChannel(p, exchange, bindOk, draws).result.Success?
    ensures var ch := CreateExternalMediaChannel(p, exchange, bindOk, draws).result.value;
      SendPCM(ch, pcm, env) == SendOutput(ch, [], Fail(PeerUnknown))
  {
  }

  /** Once the peer is learned, every packet of a call goes to the sender of that first datagram. */
  lemma LearnedPeerReceivesAll(ch: Channel, from: Addr, size: nat, pcm: seq<Byte>, env: SendEnv)
    requires WellFormed(ch) && ch.conn.value.open
    ensures var (ch', res) := WaitForAsteriskRTP(ch, Received(from, size));
      && res == Pass
      && var r := SendPCM(ch', pcm, env);
         forall k :: 0 <= k < |r.sent| ==> r.sent[k].to == from
  {
  }

  /**
   Cancellation observed before data frame `k`, with no write failing
   earlier, ends the call with `Cancelled` after exactly `k` packets, all of
   them data; the counters moved by exactly `k` packets.
   */
  lemma SendPCMCancelled(ch: Channel, pcm: seq<Byte>, env: SendEnv, k: nat)
    requires ch.peer.Some? && WellFormed(ch)
    requires k < NumFrames(|pcm|, BytesPerFrame(ch))
    requires env.cancelAt == Some(k)
    requires k == 0 || ch.conn.value.open
    requires env.writeFailAt.None? || env.writeFailAt.value >= k
    ensures var r := SendPCM(ch, pcm, env);
      && r.outcome == Fail(Cancelled)
      && |r.sent| == k
      && CountersMoved(ch, r.channel, k)
      && forall j :: 0 <= j < k ==> r.sent[j].packet.payload == Frames(pcm, BytesPerFrame(ch))[j]
  {
    var bpf := BytesPerFrame(ch);
    var r := SendPCM(ch, pcm, env);
    FramesCount(pcm, bpf);
    var n := |Frames(pcm, bpf)|;
    var open := ch.conn.value.open;
    assert CancelPoint(0, n, env) == k;
    assert FailPoint(0, n, env, open) >= k;
    assert StopOutcome(0, n, env, open) == Fail(Cancelled);
    assert |r.sent| == k;
    AdvanceByCounters(ch, k);
    forall j | 0 <= j < k
      ensures r.sent[j].packet.payload == Frames(pcm, bpf)[j]
    {
      assert PayloadsAre(r.sent, Frames(pcm, bpf), bpf);
    }
  }

  /**
   A failing write of data frame `k`, with no cancellation observed up to
   it, ends the call with the write error after exactly `k` packets; the
   failed packet uses up no sequence number.
   */
  lemma SendPCMWriteFails(ch: Channel, pcm: seq<Byte>, env: SendEnv, k: nat)
    requires ch.peer.Some? && WellFormed(ch) && ch.conn.value.open
    requires k < NumFrames(|pcm|, BytesPerFrame(ch))
    requires env.writeFailAt == Some(k)
    requires env.cancelAt.None? || env.cancelAt.value > k
    ensures var r := SendPCM(ch, pcm, env);
      && r.outcome == Fail(WriteFailed)
      && |r.sent| == k
      && CountersMoved(ch, r.channel, k)
  {
    var r := SendPCM(ch, pcm, env);
    FramesCount(pcm, BytesPerFrame(ch));
    var n := |Frames(pcm, BytesPerFrame(ch))|;
    assert FailPoint(0, n, env, true) == k;
    assert CancelPoint(0, n, env) > k;
    assert StopOutcome(0, n, env, true) == Fail(WriteFailed);
    assert |r.sent| == k;
    AdvanceByCounters(ch, k);
  }

  /**
   With an open socket and neither cancellation nor a failing write during
   the data frames, the call succeeds after `n + 3` packets and the counters
   end `n + 3` packets on.
   */
  lemma SendPCMCompletes(ch: Channel, pcm: seq<Byte>, env: SendEnv)
    requires ch.peer.Some? && WellFormed(ch) && ch.conn.value.open
    requires env.cancelAt.None? || env.cancelAt.value >= NumFrames(|pcm|, BytesPerFrame(ch))
    requires env.writeFailAt.None? || env.writeFailAt.value >= NumFrames(|pcm|, BytesPerFrame(ch))
    ensures var n := NumFrames(|pcm|, BytesPerFrame(ch));
      var r := SendPCM(ch, pcm, env);
      && r.outcome == Pass
      && |r.sent| == n + 3
      && CountersMoved(ch, r.channel, n + 3)
  {
    var r := SendPCM(ch, pcm, env);
    FramesCount(pcm, BytesPerFrame(ch));
    var n := |Frames(pcm, BytesPerFrame(ch))|;
    assert CancelPoint(0, n, env) == n;
    assert FailPoint(0, n, env, true) == n;
    assert StopOutcome(0, n, env, true) == Pass;
    assert |r.sent| == n + 3;
    AdvanceByCounters(ch, n + 3);
  }

  /**
   A receiver that joins the data payloads of a successful call gets the
   buffer back, followed by less than one frame of zero padding.
   */
  lemma SendPCMRoundTrip(ch: Channel, pcm: seq<Byte>, env: SendEnv)
    requires ch.peer.Some? && WellFormed(ch)
    requires SendPCM(ch, pcm, env).outcome.Pass?
    ensures var r := SendPCM(ch, pcm, env);
      var n := NumFrames(|pcm|, BytesPerFrame(ch));
      && n <= |r.sent|
      && var joined := Concat(Payloads(r.sent[..n]));
      && |pcm| <= |joined| < |pcm| + BytesPerFrame(ch)
      && joined == pcm + Zeros(|joined| - |pcm|)
  {
    var r := SendPCM(ch, pcm, env);
    var bpf := BytesPerFrame(ch);
    var frames := Frames(pcm, bpf);
    FramesCount(pcm, bpf);
    var n := |frames|;
    assert |r.sent| == n + SilenceFrames;
    var ps := Payloads(r.sent[..n]);
    forall k | 0 <= k < n
      ensures ps[k] == frames[k]
    {
      assert PayloadsAre(r.sent, frames, bpf);
      assert r.sent[..n][k] == r.sent[k];
    }
    assert ps == frames;
    FramesRoundTrip(pcm, bpf);
  }

  /** The header of packet `k` of a call, with the wrap-around written out as remainders. */
  lemma HeaderAtCounters(ch: Channel, k: nat)
    ensures HeaderAt(ch, k).sequenceNumber == (ch.sequence + k) % SeqModulus
    ensures HeaderAt(ch, k).timestamp == (ch.timestamp + k * ch.samplesPerPkt) % TsModulus
    ensures HeaderAt(ch, k).ssrc == ch.ssrc && HeaderAt(ch, k).payloadType == ch.payloadType
    ensures HeaderAt(ch, k).version == 2
  {
    AdvanceByCounters(ch, k);
  }

  /**
   No sequence number repeats, and each is its predecessor's plus one,
   wrapping to 0 after 65535.
   */
  predicate ConsecutiveNumbers(s: seq<Datagram>)
  {
    && (forall j, k :: 0 <= j < k < |s| ==>
          s[j].packet.header.sequenceNumber != s[k].packet.header.sequenceNumber)
    && (forall k :: 0 < k < |s| ==>
          s[k].packet.header.sequenceNumber == (s[k - 1].packet.header.sequenceNumber + 1) % SeqModulus)
  }

  /** Any stamped run of at most 2^16 packets has consecutive, unrepeated sequence numbers. */
  lemma StampedSequenceUnique(ch: Channel, to: Addr, s: seq<Datagram>)
    requires StampedFrom(ch, to, s) && |s| <= SeqModulus
    ensures ConsecutiveNumbers(s)
  {
    forall j, k | 0 <= j < k < |s|
      ensures s[j].packet.header.sequenceNumber != s[k].packet.header.sequenceNumber
    {
      AdvanceByCounters(ch, j);
      AdvanceByCounters(ch, k);
      SeqAfterInjective(ch.sequence, j, k);
    }
    forall k | 0 < k < |s|
      ensures s[k].packet.header.sequenceNumber
           == (s[k - 1].packet.header.sequenceNumber + 1) % SeqModulus
    {
      AdvanceByCounters(ch, k - 1);
      AdvanceByCounters(ch, k);
      SeqAfterCompose(ch.sequence, k - 1, 1);
    }
  }

  /** Within one call of at most 2^16 packets, sequence numbers are consecutive and never repeat. */
  lemma SequenceNumbersUnique(ch: Channel, pcm: seq<Byte>, env: SendEnv)
    requires ch.peer.Some? && WellFormed(ch)
    requires |SendPCM(ch, pcm, env).sent| <= SeqModulus
    ensures ConsecutiveNumbers(SendPCM(ch, pcm, env).sent)
  {
    StampedSequenceUnique(ch, ch.peer.value, SendPCM(ch, pcm, env).sent);
  }

  /**
   Two calls in a row form one continuous stream, whatever the first call's
   outcome: the second call's packets carry the numbers and timestamps that
   follow the first call's, and the counters end where the whole stream ends.
   */
  lemma StreamContinuesAcrossCalls(ch: Channel, pcm1: seq<Byte>, env1: SendEnv,
                                   pcm2: seq<Byte>, env2: SendEnv)
    requires ch.peer.Some? && WellFormed(ch)
    ensures var r1 := SendPCM(ch, pcm1, env1);
      var r2 := SendPCM(r1.channel, pcm2, env2);
      && StampedFrom(ch, ch.peer.value, r1.sent + r2.sent)
      && CountersMoved(ch, r2.channel, |r1.sent| + |r2.sent|)
  {
    var r1 := SendPCM(ch, pcm1, env1);
    var r2 := SendPCM(r1.channel, pcm2, env2);
    AdvanceByCounters(ch, |r1.sent|);
    StampedAppend(ch, ch.peer.value, r1.sent, r2.sent);
    AdvanceByCompose(ch, |r1.sent|, |r2.sent|);
    AdvanceByCounters(ch, |r1.sent| + |r2.sent|);
  }

  /**
   After `Close`, writes fail but the silence loop ignores that: an empty
   buffer still "succeeds" with three packets and moves the counters, while
   a non-empty one fails on its first data frame with nothing sent.
   */
  lemma SendAfterClose(ch: Channel, pcm: seq<Byte>, env: SendEnv)
    requires ch.peer.Some? && WellFormed(ch)
    ensures var r := SendPCM(Close(ch), pcm, env);
      && (|pcm| == 0 ==> r.outcome == Pass && |r.sent| == 3)
      && (|pcm| > 0 && env.cancelAt != Some(0) ==> r.outcome == Fail(WriteFailed) && r.sent == [])
  {
  }

  /**
   One full slin16 frame (640 bytes) gives one data packet and three
   silence packets with consecutive numbers and timestamps 320 apart.
   */
  lemma Slin16OneFrame(ch: Channel, pcm: seq<Byte>)
    requires ch.peer.Some? && WellFormed(ch) && ch.conn.value.open
    requires ch.samplesPerPkt == 320 && |pcm| == 640
    ensures var r := SendPCM(ch, pcm, SendEnv(None, None));
      && r.outcome == Pass
      && |r.sent| == 4
      && r.sent[0].packet.payload == pcm
      && (forall k :: 0 <= k < 4 ==>
            && r.sent[k].packet.header.sequenceNumber == (ch.sequence + k) % SeqModulus
            && r.sent[k].packet.header.timestamp == (ch.timestamp + 320 * k) % TsModulus)
  {
    var env := SendEnv(None, None);
    var r := SendPCM(ch, pcm, env);
    assert Frame(pcm, 0, 640) == pcm[0..640] == pcm;
    assert Frames(pcm, 640) == [pcm];
    assert |r.sent| == 4;
    assert PayloadsAre(r.sent, [pcm], 640);
    forall k | 0 <= k < 4
      ensures r.sent[k].packet.header.sequenceNumber == (ch.sequence + k) % SeqModulus
      ensures r.sent[k].packet.header.timestamp == (ch.timestamp + 320 * k) % TsModulus
    {
      HeaderAtCounters(ch, k);
    }
  }
}
