/**
 `SendPCM`: the RTP framer and pacer. A PCM buffer is cut into 20 ms frames,
 each sent as one RTP packet stamped with the channel's running sequence
 number and timestamp, followed by three frames of silence. Pacing waits and
 socket writes are abstracted by a `SendEnv` saying where the caller's
 cancellation is first observed and which write fails.
 */
module Pacer {
  import opened Wrappers
  import opened Rtp
  import opened Framing
  import opened ExternalMedia

  /** The number of silence frames sent after the data. */
  const SilenceFrames: nat := 3

  /**
   What the outside world does during one call: the data-frame index before
   which the cancellation signal is first picked over the pacing tick, and
   the data-frame index whose socket write reports an error.
   */
  datatype SendEnv = SendEnv(cancelAt: Option<nat>, writeFailAt: Option<nat>)

  /** One datagram handed to the socket. */
  datatype Datagram = Datagram(to: Addr, packet: Packet)

  /**
   The result of a call: the channel afterwards, every packet that was
   stamped and used up a sequence number, in order, and the returned error.
   */
  datatype SendOutput = SendOutput(channel: Channel, sent: seq<Datagram>, outcome: Outcome<Error>)

  /** Bytes per frame: two bytes per 16-bit sample. */
  function BytesPerFrame(ch: Channel): nat
  {
    2 * ch.samplesPerPkt
  }

  /**
   The header of the next packet, the same for data and silence packets:
   version 2, no padding, extension or marker, and the channel's payload
   type, SSRC and current counters.
   */
  function NextHeader(ch: Channel): (h: Header)
    ensures h.version == 2 && !h.padding && !h.extension && !h.marker
    ensures h.payloadType == ch.payloadType && h.ssrc == ch.ssrc
    ensures h.sequenceNumber == ch.sequence && h.timestamp == ch.timestamp
  {
    Header(2, false, false, false, ch.payloadType, ch.sequence, ch.timestamp, ch.ssrc)
  }

  /** The channel after one packet: Go's wrapping `Sequence++` and `Timestamp += SamplesPerPkt`. */
  function Advance(ch: Channel): (r: Channel)
    ensures r.(sequence := ch.sequence, timestamp := ch.timestamp) == ch
    ensures (ch.sequence + 1 - r.sequence) % SeqModulus == 0
    ensures (ch.timestamp + ch.samplesPerPkt - r.timestamp) % TsModulus == 0
  {
    ch.(sequence := SeqAfter(ch.sequence, 1), timestamp := TsAfter(ch.timestamp, ch.samplesPerPkt))
  }

  /** The channel after `k` packets: only the two counters differ from `ch`. */
  function AdvanceBy(ch: Channel, k: nat): (r: Channel)
    ensures r.(sequence := ch.sequence, timestamp := ch.timestamp) == ch
    decreases k
  {
    if k == 0 then ch else AdvanceBy(Advance(ch), k - 1)
  }

  /** The header the `k`-th packet of a call starting from `ch` carries. */
  function HeaderAt(ch: Channel, k: nat): Header
  {
    NextHeader(AdvanceBy(ch, k))
  }

  /** Every packet goes to `to` and the `k`-th carries `HeaderAt(ch, k)`. */
  predicate StampedFrom(ch: Channel, to: Addr, sent: seq<Datagram>)
  {
    forall k :: 0 <= k < |sent| ==> sent[k].to == to && sent[k].packet.header == HeaderAt(ch, k)
  }

  /** `k` packets and then `m` more are `k + m` packets. */
  lemma {:induction false} AdvanceByCompose(ch: Channel, k: nat, m: nat)
    ensures AdvanceBy(AdvanceBy(ch, k), m) == AdvanceBy(ch, k + m)
    decreases k
  {
    if k > 0 {
      AdvanceByCompose(Advance(ch), k - 1, m);
    }
  }

  /**
   After `k` packets the sequence number has moved by `k` and the timestamp
   by `k * samplesPerPkt`, both wrapping, and nothing else has changed.
   */
  lemma {:induction false} AdvanceByCounters(ch: Channel, k: nat)
    ensures AdvanceBy(ch, k)
         == ch.(sequence := SeqAfter(ch.sequence, k), timestamp := TsAfter(ch.timestamp, k * ch.samplesPerPkt))
    decreases k
  {
    if k > 0 {
      var spp := ch.samplesPerPkt;
      AdvanceByCounters(Advance(ch), k - 1);
      SeqAfterCompose(ch.sequence, 1, k - 1);
      TsAfterStep(ch.timestamp, spp, (k - 1) * spp);
      MulSucc(k - 1, spp);
    }
  }

  /** A packet stamped by `ch`, followed by packets stamped from `Advance(ch)`, are stamped from `ch`. */
  lemma StampedCons(ch: Channel, to: Addr, d: Datagram, rest: seq<Datagram>)
    requires d.to == to && d.packet.header == NextHeader(ch)
    requires StampedFrom(Advance(ch), to, rest)
    ensures StampedFrom(ch, to, [d] + rest)
  {
  }

  /** Packets stamped from `ch`, then packets stamped from where they left the counters, are stamped from `ch`. */
  lemma StampedAppend(ch: Channel, to: Addr, a: seq<Datagram>, b: seq<Datagram>)
    requires StampedFrom(ch, to, a) && StampedFrom(AdvanceBy(ch, |a|), to, b)
    ensures StampedFrom(ch, to, a + b)
  {
    forall k | 0 <= k < |b|
      ensures b[k].packet.header == HeaderAt(ch, |a| + k)
    {
      AdvanceByCompose(ch, |a|, k);
    }
  }

  /**
   The first data-frame index from `i` at which the loop stops: the
   cancellation point or the failing write, whichever comes first (a
   closed socket fails every write); `n` when neither happens.
   */
  function CancelPoint(i: nat, n: nat, env: SendEnv): nat
  {
    if env.cancelAt.Some? && i <= env.cancelAt.value < n then env.cancelAt.value else n
  }

  function FailPoint(i: nat, n: nat, env: SendEnv, open: bool): nat
  {
    if !open && i < n then i
    else if env.writeFailAt.Some? && i <= env.writeFailAt.value < n then env.writeFailAt.value
    else n
  }

  function StopPoint(i: nat, n: nat, env: SendEnv, open: bool): nat
  {
    var c := CancelPoint(i, n, env);
    var w := FailPoint(i, n, env, open);
    if c <= w then c else w
  }

  /** How the data loop ends: cancellation wins a tie since it is checked first. */
  function StopOutcome(i: nat, n: nat, env: SendEnv, open: bool): Outcome<Error>
  {
    var c := CancelPoint(i, n, env);
    var w := FailPoint(i, n, env, open);
    if c < n && c <= w then Fail(Cancelled)
    else if w < n then Fail(WriteFailed)
    else Pass
  }

  /**
   The data loop from frame `i` on: wait for the tick or the cancellation,
   write the frame, and advance the counters only when the write succeeded.
   Cutting a frame has no effect, so the frames are cut up front here; the
   in-place version below cuts each one inside the loop.
   */
  function DataLoop(ch: Channel, to: Addr, frames: seq<seq<Byte>>, i: nat, env: SendEnv): (r: SendOutput)
    requires ch.conn.Some? && i <= |frames|
    ensures |r.sent| <= |frames| - i
    ensures r.outcome.Pass? ==> |r.sent| == |frames| - i
    ensures r.channel.conn == ch.conn
    decreases |frames| - i
  {
    if i == |frames| then
      SendOutput(ch, [], Pass)
    else if env.cancelAt == Some(i) then
      SendOutput(ch, [], Fail(Cancelled))
    else if !ch.conn.value.open || env.writeFailAt == Some(i) then
      SendOutput(ch, [], Fail(WriteFailed))
    else
      var d := Datagram(to, Packet(NextHeader(ch), frames[i]));
      var rest := DataLoop(Advance(ch), to, frames, i + 1, env);
      SendOutput(rest.channel, [d] + rest.sent, rest.outcome)
  }

  /**
   The data loop stops at the first cancellation point or failing write
   from `i` on, with that error, or runs to the last frame and succeeds.
   */
  lemma {:induction false} DataLoopStops(ch: Channel, to: Addr, frames: seq<seq<Byte>>, i: nat, env: SendEnv)
    requires ch.conn.Some? && i <= |frames|
    ensures var r := DataLoop(ch, to, frames, i, env);
      && |r.sent| == StopPoint(i, |frames|, env, ch.conn.value.open) - i
      && r.outcome == StopOutcome(i, |frames|, env, ch.conn.value.open)
    decreases |frames| - i
  {
    if i < |frames| && env.cancelAt != Some(i) && ch.conn.value.open && env.writeFailAt != Some(i) {
      DataLoopStops(Advance(ch), to, frames, i + 1, env);
    }
  }

  /**
   The data loop's packets are stamped consecutively from the channel's
   counters, and the counters end one step past the last of them.
   */
  lemma {:induction false} DataLoopStamped(ch: Channel, to: Addr, frames: seq<seq<Byte>>, i: nat, env: SendEnv)
    requires ch.conn.Some? && i <= |frames|
    ensures var r := DataLoop(ch, to, frames, i, env);
      r.channel == AdvanceBy(ch, |r.sent|) && StampedFrom(ch, to, r.sent)
    decreases |frames| - i
  {
    var r := DataLoop(ch, to, frames, i, env);
    if r.sent != [] {
      var rest := DataLoop(Advance(ch), to, frames, i + 1, env);
      DataLoopStamped(Advance(ch), to, frames, i + 1, env);
      StampedCons(ch, to, r.sent[0], rest.sent);
    }
  }

  /** Packet `k` of `sent` carries frame `i + k`. */
  predicate CarriesFrames(sent: seq<Datagram>, frames: seq<seq<Byte>>, i: nat)
  {
    forall k :: 0 <= k < |sent| ==> i + k < |frames| && sent[k].packet.payload == frames[i + k]
  }

  /** Packet `k` of the data loop from frame `i` carries frame `i + k`. */
  lemma {:induction false} DataLoopPayloads(ch: Channel, to: Addr, frames: seq<seq<Byte>>, i: nat, env: SendEnv)
    requires ch.conn.Some? && i <= |frames|
    ensures CarriesFrames(DataLoop(ch, to, frames, i, env).sent, frames, i)
    decreases |frames| - i
  {
    if i < |frames| && env.cancelAt != Some(i) && ch.conn.value.open && env.writeFailAt != Some(i) {
      var r := DataLoop(ch, to, frames, i, env);
      var rest := DataLoop(Advance(ch), to, frames, i + 1, env);
      DataLoopPayloads(Advance(ch), to, frames, i + 1, env);
      forall k | 0 < k < |r.sent|
        ensures r.sent[k].packet.payload == frames[i + k]
      {
        assert r.sent[k] == rest.sent[k - 1];
      }
    }
  }

  /**
   The silence loop: `k` zero-filled frames stamped like data frames. It
   neither looks at the cancellation signal nor at write errors, so every
   silence packet uses up a sequence number.
   */
  function SilenceLoop(ch: Channel, to: Addr, bpf: nat, k: nat): (r: SendOutput)
    ensures |r.sent| == k && r.outcome == Pass
    ensures r.channel.conn == ch.conn
    decreases k
  {
    if k == 0 then
      SendOutput(ch, [], Pass)
    else
      var d := Datagram(to, Packet(NextHeader(ch), Zeros(bpf)));
      var rest := SilenceLoop(Advance(ch), to, bpf, k - 1);
      SendOutput(rest.channel, [d] + rest.sent, Pass)
  }

  /** The silence packets are stamped like data packets and carry only zeros. */
  lemma {:induction false} SilenceLoopStamped(ch: Channel, to: Addr, bpf: nat, k: nat)
    ensures var r := SilenceLoop(ch, to, bpf, k);
      && r.channel == AdvanceBy(ch, k)
      && StampedFrom(ch, to, r.sent)
      && forall j :: 0 <= j < k ==> r.sent[j].packet.payload == Zeros(bpf)
    decreases k
  {
    if k > 0 {
      var r := SilenceLoop(ch, to, bpf, k);
      var rest := SilenceLoop(Advance(ch), to, bpf, k - 1);
      SilenceLoopStamped(Advance(ch), to, bpf, k - 1);
      StampedCons(ch, to, r.sent[0], rest.sent);
      forall j | 0 < j < k
        ensures r.sent[j].packet.payload == Zeros(bpf)
      {
        assert r.sent[j] == rest.sent[j - 1];
      }
    }
  }

  /**
   How many packets a call with a known peer stamps: every data frame plus
   the silence when the data loop runs to its end, otherwise the data
   frames before the stopping point.
   */
  function SentCount(n: nat, env: SendEnv, open: bool): nat
  {
    if StopOutcome(0, n, env, open).Pass? then n + SilenceFrames else StopPoint(0, n, env, open)
  }

  /**
   Packet `k` carries frame `k` while `k` is below the frame count, and a
   zero-filled frame after it.
   */
  predicate PayloadsAre(sent: seq<Datagram>, frames: seq<seq<Byte>>, bpf: nat)
  {
    forall k :: 0 <= k < |sent| ==>
      sent[k].packet.payload == if k < |frames| then frames[k] else Zeros(bpf)
  }

  /**
   Sends `pcm` on the channel. Without a learned peer nothing is sent and
   nothing changes. Otherwise the data frames go out in order until the
   cancellation point or the first failing write, which ends the call with
   that error and no silence; a call that gets through every data frame
   appends three silence frames and succeeds. Packet `k` carries the header
   due `k` packets after the channel's counters, and the counters end one
   step past the last packet.
   */
  function SendPCM(ch: Channel, pcm: seq<Byte>, env: SendEnv): (r: SendOutput)
    requires ch.peer.Some? ==> WellFormed(ch)
    ensures ch.peer.None? ==> r == SendOutput(ch, [], Fail(PeerUnknown))
    ensures r.channel == AdvanceBy(ch, |r.sent|)
    ensures ch.peer.Some? ==> StampedFrom(ch, ch.peer.value, r.sent)
    ensures ch.peer.Some? ==>
      var n := |Frames(pcm, BytesPerFrame(ch))|;
      && r.outcome == StopOutcome(0, n, env, ch.conn.value.open)
      && |r.sent| == SentCount(n, env, ch.conn.value.open)
    ensures ch.peer.Some? ==> PayloadsAre(r.sent, Frames(pcm, BytesPerFrame(ch)), BytesPerFrame(ch))
  {
    match ch.peer
    case None => SendOutput(ch, [], Fail(PeerUnknown))
    case Some(to) =>
      var bpf := BytesPerFrame(ch);
      var frames := Frames(pcm, bpf);
      var data := DataLoop(ch, to, frames, 0, env);
      DataLoopStops(ch, to, frames, 0, env);
      DataLoopStamped(ch, to, frames, 0, env);
      DataLoopPayloads(ch, to, frames, 0, env);
      if data.outcome.Fail? then
        data
      else
        var silence := SilenceLoop(data.channel, to, bpf, SilenceFrames);
        SilenceLoopStamped(data.channel, to, bpf, SilenceFrames);
        AdvanceByCompose(ch, |data.sent|, SilenceFrames);
        StampedAppend(ch, to, data.sent, silence.sent);
        SendOutput(silence.channel, data.sent + silence.sent, Pass)
  }

  /** `o` with `prefix` sent before its own packets. */
  function After(prefix: seq<Datagram>, o: SendOutput): SendOutput
  {
    SendOutput(o.channel, prefix + o.sent, o.outcome)
  }

  /**
   The data loop written the way the channel method runs it: the frame
   count from the ceiling division, a byte offset moved on by one frame per
   round, each frame cut in place, the counters updated in place, and an
   early return on cancellation or a failing write.
   */
  method RunDataLoop(ch: Channel, to: Addr, pcm: seq<Byte>, bpf: nat, env: SendEnv) returns (out: SendOutput)
    requires ch.conn.Some? && bpf > 0
    ensures out == DataLoop(ch, to, Frames(pcm, bpf), 0, env)
  {
    ghost var frames := Frames(pcm, bpf);
    ghost var data := DataLoop(ch, to, frames, 0, env);
    var numFrames := NumFrames(|pcm|, bpf);
    FramesCount(pcm, bpf);
    var cur := ch;
    var sent: seq<Datagram> := [];
    var offset := 0;
    var i := 0;
    while i < numFrames
      invariant i <= numFrames == |frames|
      invariant offset == FrameStart(i, bpf)
      invariant cur.conn == ch.conn
      invariant After(sent, DataLoop(cur, to, frames, i, env)) == data
      decreases numFrames - i
    {
      if env.cancelAt == Some(i) {
        assert sent + [] == sent;
        return SendOutput(cur, sent, Fail(Cancelled));
      }
      FrameAt(pcm, bpf, i);
      var payload := Frame(pcm, offset, bpf);
      if !cur.conn.value.open || env.writeFailAt == Some(i) {
        assert sent + [] == sent;
        return SendOutput(cur, sent, Fail(WriteFailed));
      }
      var d := Datagram(to, Packet(NextHeader(cur), payload));
      DataLoopStep(cur, to, frames, i, env);
      AfterAppend(sent, [d], DataLoop(Advance(cur), to, frames, i + 1, env));
      sent := sent + [d];
      cur := Advance(cur);
      offset := offset + bpf;
      i := i + 1;
    }
    assert sent + [] == sent;
    out := SendOutput(cur, sent, Pass);
  }

  /** A round of the data loop that is neither cancelled nor fails sends frame `i` and carries on. */
  lemma DataLoopStep(ch: Channel, to: Addr, frames: seq<seq<Byte>>, i: nat, env: SendEnv)
    requires ch.conn.Some? && ch.conn.value.open && i < |frames|
    requires env.cancelAt != Some(i) && env.writeFailAt != Some(i)
    ensures DataLoop(ch, to, frames, i, env)
         == After([Datagram(to, Packet(NextHeader(ch), frames[i]))], DataLoop(Advance(ch), to, frames, i + 1, env))
  {
  }

  lemma AfterAppend(a: seq<Datagram>, b: seq<Datagram>, o: SendOutput)
    ensures After(a, After(b, o)) == After(a + b, o)
  {
    assert a + (b + o.sent) == (a + b) + o.sent;
  }

  /** The silence loop written as a counted loop, as the channel method runs it. */
  method RunSilenceLoop(ch: Channel, to: Addr, bpf: nat) returns (out: SendOutput)
    ensures out == SilenceLoop(ch, to, bpf, SilenceFrames)
  {
    ghost var silence := SilenceLoop(ch, to, bpf, SilenceFrames);
    var cur := ch;
    var sent: seq<Datagram> := [];
    var j := 0;
    while j < SilenceFrames
      invariant j <= SilenceFrames
      invariant After(sent, SilenceLoop(cur, to, bpf, SilenceFrames - j)) == silence
      decreases SilenceFrames - j
    {
      var d := Datagram(to, Packet(NextHeader(cur), Zeros(bpf)));
      ghost var rest := SilenceLoop(Advance(cur), to, bpf, SilenceFrames - j - 1);
      assert SilenceLoop(cur, to, bpf, SilenceFrames - j) == After([d], rest);
      assert sent + ([d] + rest.sent) == (sent + [d]) + rest.sent;
      sent := sent + [d];
      cur := Advance(cur);
      j := j + 1;
    }
    assert sent + [] == sent;
    out := SendOutput(cur, sent, Pass);
  }

  /** `SendPCM` as the channel method runs it: the peer check, the data loop, the silence loop. */
  method SendPCMLoop(ch: Channel, pcm: seq<Byte>, env: SendEnv) returns (out: SendOutput)
    requires ch.peer.Some? ==> WellFormed(ch)
    ensures out == SendPCM(ch, pcm, env)
  {
    if ch.peer.None? {
      return SendOutput(ch, [], Fail(PeerUnknown));
    }
    var to := ch.peer.value;
    var bpf := 2 * ch.samplesPerPkt;
    var data := RunDataLoop(ch, to, pcm, bpf, env);
    if data.outcome.Fail? {
      return data;
    }
    var silence := RunSilenceLoop(data.channel, to, bpf);
    out := After(data.sent, silence);
  }
}
