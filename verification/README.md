# RTP media bridge — a Dafny model

This project models the external-media bridge of an Asterisk ARI application
(`internal/externalmedia/externalmedia.go`). The bridge asks the call-control
server to create an external-media channel. It binds the local UDP socket that
channel was told to target, and learns the server's RTP address from the first
datagram it receives. It then streams 16-bit PCM buffers as 20 ms RTP packets
(section 5.1 of RFC 3550), each call followed by three frames of silence.

The model is purely functional. A channel is an immutable record: channel id,
learned peer, socket, SSRC, a 16-bit sequence counter, a 32-bit timestamp
counter, samples per packet and payload type. Every operation returns the new
record. Everything the Go code gets from the operating system or the network
becomes a parameter:

- the HTTP exchange with the server (`HttpExchange`);
- whether binding succeeded;
- the three random draws;
- the result of the blocking read;
- for `SendPCM`, a `SendEnv` giving the data-frame index at which the
  cancellation signal is first picked over the pacing tick, and the data-frame
  index whose socket write fails.

Modules:

- `Wrappers`: `Option`, `Result`, `Outcome`.
- `Rtp`: the fixed header record and the wrapping counter arithmetic (`SeqAfter`, `TsAfter`).
- `Framing`: cutting and zero-padding frames, and re-joining them. The frame list is defined by cutting from the front of the buffer. Lemmas tie it to the method's own arithmetic: the ceiling-division frame count and the running byte offset.
- `ExternalMedia`: the format table, provisioning, the constructor, `Close` and `WaitForAsteriskRTP`.
- `Pacer`: `SendPCM`. The functional version has a recursive data loop over the frame list and a recursive silence loop. The counters advance one packet at a time (`AdvanceBy`), and a lemma gives their closed, wrapping form. An imperative version (`SendPCMLoop`) is shaped like the Go method, with in-place counters, a running offset and early returns, and is proved equal to the functional one.
- `StreamProperties`: properties that span several calls, plus the consequences callers rely on.

Points where the code behaves in a way a reader might not expect:

- The constructor provisions the remote channel before it binds the socket. It checks the format tag only after binding, so an unknown tag opens a socket and closes it again. Every failure after provisioning leaves the remote channel in place.
- `WaitForAsteriskRTP` has no set-once guard. Every successful call replaces the peer.
- Provisioning fails on any status of 300 or more. A 1xx status counts as success.
- The silence loop ignores both cancellation and write errors. Its packets advance the counters even on a closed socket, so `SendPCM` of an empty buffer on a closed channel returns success.
- Frames are `2 * samplesPerPkt` bytes for every format, including the 8-bit ulaw and alaw formats. A ulaw packet therefore carries 320 bytes while its timestamp advances by 160.

In `SendPCM`, `sent` lists the packets that were stamped and used up a sequence
number. A data packet whose write failed is not in the list, because the
counters do not advance for it. Every silence packet is in the list.

## Model

| member | source | states |
|---|---|---|
| `ExternalMedia.FormatTable` | internal/externalmedia/externalmedia.go:120-136 | A tag has an entry exactly when it is ulaw, alaw or slin16. Samples per packet is 20 ms at the format's clock rate. The payload type is the RFC 3551 static type (PCMU 0, PCMA 8) when there is one, and otherwise in the dynamic range 96-127. |
| `ExternalMedia.CreateExternalMedia` | internal/externalmedia/externalmedia.go:56-92 | Provisioning succeeds exactly when a reply arrived with a status below 300 and a body that decodes. On success it returns that body. A status of 300 or more fails with that status, and a transport error fails as such. |
| `ExternalMedia.CreateExternalMediaChannel` | internal/externalmedia/externalmedia.go:95-147 | A channel is returned exactly when provisioning, binding and the format lookup all succeed. ulaw gives 160/0, alaw 160/8 and slin16 320/96. A fresh channel has no peer and an open socket bound to hostIp:port. It carries the random draws, so sequence ≤ 65534 and SSRC, timestamp ≤ 2^32−2. A provisioning failure binds nothing. A transport error or a status of 300 or more leaves no remote channel. A 2xx reply that does not decode leaves a remote channel whose id is unknown. A bind failure or an unknown tag leaves the remote channel behind, with its id known. An unknown tag closes the socket it bound. No failure leaves a socket open. |
| `ExternalMedia.ConstructionNeedsAcceptedRequest` | internal/externalmedia/externalmedia.go:82-99 | A remote channel exists exactly when the server answered with a status below 300, whether or not the reply decoded. A known remote id implies the channel exists. A built channel implies a decoded 2xx reply, and the channel carries that reply's id. |
| `ExternalMedia.Close` | internal/externalmedia/externalmedia.go:370-374 | A channel without a socket is unchanged. Otherwise the socket ends closed at the same address, and no other field changes. |
| `ExternalMedia.CloseIdempotent` | internal/externalmedia/externalmedia.go:370-374 | Closing twice equals closing once. A closed well-formed channel stays well-formed. |
| `ExternalMedia.WaitForAsteriskRTP` | internal/externalmedia/externalmedia.go:376-387 | Succeeds exactly when the socket is open and a datagram arrives. The peer then becomes that datagram's sender, and nothing else changes. On a deadline, read error or closed socket, it fails and leaves the channel unchanged. |
| `Rtp.SeqAfter` | internal/externalmedia/externalmedia.go:342 | The sequence number k packets on is s+k reduced modulo 2^16, as a uint16 increment wraps. |
| `Rtp.TsAfter` | internal/externalmedia/externalmedia.go:343 | The timestamp d ticks on is t+d reduced modulo 2^32, as a uint32 addition wraps. |
| `Rtp.SeqAfterInjective` | internal/externalmedia/externalmedia.go:342 | Two offsets below 2^16 give the same wrapped sequence number only when they are equal. |
| `Framing.Frame` | internal/externalmedia/externalmedia.go:316-323 | A payload is always exactly bpf bytes. Byte j is pcm[offset+j] when that index exists and 0 otherwise. |
| `Framing.Frames` | internal/externalmedia/externalmedia.go:304-323 | A buffer has no frames exactly when it is empty, and every frame is exactly bpf bytes long. |
| `Framing.NumFrames` | internal/externalmedia/externalmedia.go:304 | The loop bound `int(math.Ceil(float64(len(pcm)) / float64(bytesPerFrame)))` as integer ceiling division. Its meaning is stated by `Framing.NumFramesIsCeiling`. |
| `Framing.NumFramesIsCeiling` | internal/externalmedia/externalmedia.go:304 | With n = NumFrames(len, bpf), (n−1)·bpf < len ≤ n·bpf: n is the least frame count whose frames hold the whole buffer, which is the ceiling of len/bpf. |
| `Framing.FramesCover` | internal/externalmedia/externalmedia.go:304 | With n frames, (n−1)·bpf < len(pcm) ≤ n·bpf: the frames cover the buffer and the last one starts inside it. |
| `Framing.FramesCount` | internal/externalmedia/externalmedia.go:304 | The number of frames is the loop bound ceil(len/bpf) that the method computes. |
| `Framing.FrameStartIsProduct` | internal/externalmedia/externalmedia.go:344 | The offset that starts at 0 and grows by bpf each round is i·bpf in round i. |
| `Framing.FrameAt` | internal/externalmedia/externalmedia.go:316-323 | Frame i is the payload cut at the offset of round i, and that offset lies inside the buffer. |
| `Framing.FramesRoundTrip` | internal/externalmedia/externalmedia.go:309-323 | Joining the frames gives the buffer followed by fewer than bpf zero bytes. |
| `Framing.FramesRecoverBuffer` | internal/externalmedia/externalmedia.go:309-323 | Dropping the padding from the joined frames recovers the buffer exactly. |
| `Pacer.NextHeader` | internal/externalmedia/externalmedia.go:325-333 | Each packet's header is version 2 with no padding, extension or marker. It carries the channel's payload type and SSRC and the current sequence number and timestamp. The silence packets at lines 350-357 use the same header. |
| `Pacer.Advance` | internal/externalmedia/externalmedia.go:342-343 | After one packet only the counters change. The sequence number is congruent to the old one plus 1 modulo 2^16, and the timestamp to the old one plus samples-per-packet modulo 2^32. The same step follows each silence packet at lines 362-363. |
| `Pacer.AdvanceBy` | internal/externalmedia/externalmedia.go:342-343 | Sending packets changes only the sequence and timestamp counters of the channel. |
| `Pacer.AdvanceByCompose` | internal/externalmedia/externalmedia.go:342-343 | Advancing by k packets and then by m packets is advancing by k+m packets. |
| `Pacer.AdvanceByCounters` | internal/externalmedia/externalmedia.go:342-343 | After k packets, sequence is s0+k mod 2^16 and timestamp is t0+k·spp mod 2^32. Every other field is unchanged. |
| `Pacer.DataLoop` | internal/externalmedia/externalmedia.go:309-345 | The data loop sends at most the remaining frames, and all of them when it succeeds. It never changes the socket. |
| `Pacer.DataLoopStops` | internal/externalmedia/externalmedia.go:309-340 | The data loop stops at the first cancellation point or failing write (every write fails on a closed socket). It returns Cancelled or the write error after exactly that many packets. When cancellation and failure fall on the same frame, cancellation wins. If neither happens it sends every frame and succeeds. |
| `Pacer.DataLoopStamped` | internal/externalmedia/externalmedia.go:325-343 | Every data packet goes to the peer. Packet k carries the header due k packets after the starting counters: version 2, the channel's SSRC and payload type. Afterwards the channel has advanced by exactly the number of packets sent. |
| `Pacer.DataLoopPayloads` | internal/externalmedia/externalmedia.go:316-333 | Data packet k from frame i carries frame i+k of the buffer. |
| `Pacer.SilenceLoop` | internal/externalmedia/externalmedia.go:346-364 | The silence loop always stamps exactly its k packets and returns success, whatever the socket's state. |
| `Pacer.SilenceLoopStamped` | internal/externalmedia/externalmedia.go:349-363 | Silence packets are stamped like data packets and carry only zero-filled frames. The channel advances by one packet per silence packet. |
| `Pacer.SendPCM` | internal/externalmedia/externalmedia.go:296-367 | Without a peer, it returns PeerUnknown, sends nothing and changes nothing. Otherwise packet k goes to the peer with the header due k packets on. The channel ends advanced by exactly the number of packets sent. The outcome and packet count follow the stopping point of the data loop. Data packets carry the buffer's frames and later packets carry zeros. |
| `Pacer.RunDataLoop` | internal/externalmedia/externalmedia.go:301-345 | The in-place loop computes the same packets, channel and outcome as the frame-list data loop. It uses the ceiling-division bound, a running offset and an early return. |
| `Pacer.RunSilenceLoop` | internal/externalmedia/externalmedia.go:347-364 | The counted silence loop computes the same result as the recursive silence loop. |
| `Pacer.SendPCMLoop` | internal/externalmedia/externalmedia.go:296-367 | The method-shaped version (peer check, data loop, early return on error, silence loop) computes exactly `SendPCM`. |
| `StreamProperties.FreshChannelCannotSend` | internal/externalmedia/externalmedia.go:137-145 | On a channel just returned by the constructor, SendPCM fails with PeerUnknown, sends nothing and changes nothing. |
| `StreamProperties.LearnedPeerReceivesAll` | internal/externalmedia/externalmedia.go:380-385 | Once a datagram from `from` has been read, every packet a later call sends goes to `from`. |
| `StreamProperties.SendPCMCancelled` | internal/externalmedia/externalmedia.go:309-314 | If cancellation is observed before data frame k < n and no write fails earlier, the call returns Cancelled. It sends exactly k data packets, frames 0..k−1, and no silence. The counters advance by k packets. |
| `StreamProperties.SendPCMWriteFails` | internal/externalmedia/externalmedia.go:336-340 | If the write of data frame k < n fails and cancellation is not observed by then, the call returns the write error after exactly k packets. The counters advance by k packets. |
| `StreamProperties.SendPCMCompletes` | internal/externalmedia/externalmedia.go:346-366 | With an open socket and no cancellation or failing write among the data frames, the call succeeds with ceil(len/bpf)+3 packets. The counters advance by that many packets. |
| `StreamProperties.SendPCMRoundTrip` | internal/externalmedia/externalmedia.go:309-345 | On success, the first n payloads joined together are the buffer plus fewer than one frame of zero padding. |
| `StreamProperties.HeaderAtCounters` | internal/externalmedia/externalmedia.go:325-343 | Packet k of a call carries version 2, the channel's SSRC and payload type, sequence (s0+k) mod 2^16 and timestamp (t0+k·spp) mod 2^32. |
| `StreamProperties.StampedSequenceUnique` | internal/externalmedia/externalmedia.go:342 | In any stamped run of at most 2^16 packets, no sequence number repeats, and each number is its predecessor's plus one mod 2^16. |
| `StreamProperties.SequenceNumbersUnique` | internal/externalmedia/externalmedia.go:329-362 | The packets of one call of at most 2^16 packets have consecutive sequence numbers and no repeats. |
| `StreamProperties.StreamContinuesAcrossCalls` | internal/externalmedia/externalmedia.go:342-343 | Two successive calls, whatever the first one's outcome, form one continuously stamped stream. The counters end advanced by the total number of packets. |
| `StreamProperties.SendAfterClose` | internal/externalmedia/externalmedia.go:337-363 | After Close, an empty buffer still returns success with 3 packets, because silence write errors are ignored. A non-empty buffer fails on its first data frame with nothing sent, unless cancellation is observed first. |
| `StreamProperties.Slin16OneFrame` | internal/externalmedia/externalmedia.go:301-366 | A 640-byte buffer at slin16 gives 4 packets. The first carries the whole buffer. They have sequence numbers s0..s0+3 and timestamps t0, t0+320, t0+640, t0+960, wrapping. |

## Left out

- Building the provisioning request is not modelled, because it is string formatting and I/O with no decision in it: the URL, the query encoding of app/external_host/format, basic auth and `net/http`. The exchange is a parameter, and the JSON decoding is reduced to "decodes or not".
- `net.ParseIP` is not modelled: the socket is taken as bound to `hostIp:port`. When `hostIp` is not an IP literal, Go binds the wildcard address instead.
- Socket binding, reads and writes, read deadlines, the 20 ms `time.Ticker` and the `time.Sleep` pacing are not modelled, because they are OS and timing resources. Their outcomes are parameters, and the model has no notion of time.
- Errors from `crypto/rand` are not modelled. The source discards them, and a nil result would panic. The draws are parameters bounded as `rand.Int` bounds them.
- RTP marshalling is not modelled, because it is done by the `pion/rtp` library, which is not part of this model. Headers are records, and the byte encoding is not modelled.
- `SendRawPCMAsRTP` is left out because it is commented out in the source.
- `math.Ceil` over `float64` is replaced by integer ceiling division. The two agree for buffers below 2^53 bytes.
- `ExternalMedia.CreateExternalMediaChannel`: takes a transport error to mean the server created nothing. A request whose reply was lost after the server acted on it cannot be told apart in the source either.
- Logging is left out.
- The error values are reduced to a variant per cause. The wrapped error text is not kept.
- `Close` does not model the error that closing an already-closed socket returns, because the source ignores it.
- `SendPCM`: requires a socket and a non-zero samples-per-packet once the peer is known. With a nil socket the Go method panics. With zero samples per packet the float ceiling is NaN or infinite. The constructor never produces either.
- `WaitForAsteriskRTP`: requires a socket, because with a nil socket the Go method panics. The byte count and contents of the first datagram are not used, just as in the source.
- Concurrency is left out. The source assumes one caller drives the channel, and the model is sequential.
