/**
 The external-media channel of the call-control server: the format table,
 the provisioning request's outcome, the all-in-one constructor that
 provisions the remote channel and binds the local UDP socket, the learning
 of the peer's RTP address from the first inbound datagram, and `Close`.
 */
module ExternalMedia {
  import opened Wrappers
  import opened Rtp

  /** A UDP endpoint, `host:port`. */
  datatype Addr = Addr(host: string, port: int)

  /** The channel's UDP socket: the address it is bound to and whether it is still open. */
  datatype Conn = Conn(local: Addr, open: bool)

  /** What the caller asks for: server, credentials, application, local RTP address, format tag. */
  datatype Params = Params(
    ariBaseUrl: string,
    username: string,
    password: string,
    appName: string,
    hostIp: string,
    port: int,
    format: string)

  /** The decoded body of the server's reply to the provisioning request. */
  datatype MediaResponse = MediaResponse(
    id: string,
    name: string,
    state: string,
    rtpAddress: string,
    rtpPort: string)

  /**
   What the provisioning HTTP exchange produced: no reply at all, or a status
   code with a body that either decodes as a `MediaResponse` or does not.
   */
  datatype HttpExchange =
    | TransportError
    | Reply(status: int, body: Option<MediaResponse>)

  datatype Error =
    | ProvisionTransport
    | ProvisionStatus(status: int)
    | ProvisionDecode
    | BindFailed
    | UnsupportedFormat(format: string)
    | LearnFailed
    | PeerUnknown
    | WriteFailed
    | Cancelled

  /**
   One call leg's media bridge: the remote channel id, the peer's RTP address
   once learned, the socket, and the RTP stream state (SSRC, next sequence
   number, next timestamp, samples per 20 ms packet, payload type).
   */
  datatype Channel = Channel(
    id: string,
    peer: Option<Addr>,
    conn: Option<Conn>,
    ssrc: U32,
    sequence: U16,
    timestamp: U32,
    samplesPerPkt: U32,
    payloadType: U8)

  /** The values the three calls to the random source returned. */
  datatype Draws = Draws(ssrc: int, sequence: int, timestamp: int)

  /** What the constructor leaves behind. */
  datatype Construction = Construction(
    result: Result<Channel, Error>,
    // whether the server accepted the request, so that a remote channel may exist
    remoteCreated: bool,
    // the id of that remote channel, when the reply told it; nothing here tears it down
    remoteId: Option<string>,
    // every socket the constructor bound, in its final state
    sockets: seq<Conn>)

  /** Per-format RTP parameters. */
  datatype FormatInfo = FormatInfo(samplesPerPkt: U32, payloadType: U8)

  const MaxUint16: nat := 0xFFFF
  const MaxUint32: nat := 0xFFFF_FFFF

  /** The sampling rate of each format tag, in samples per second. */
  function ClockRate(format: string): nat
  {
    if format == "slin16" then 16000 else 8000
  }

  /** The static payload types of RFC 3551 (section 6, table 4), where a format has one. */
  function StaticPayloadType(format: string): Option<U8>
  {
    if format == "ulaw" then Some(0)
    else if format == "alaw" then Some(8)
    else None
  }

  /**
   The format table. A supported tag gets 20 ms worth of samples at its
   clock rate and its static payload type, or a dynamic one (96-127) when
   it has none; any other tag has no entry.
   */
  function FormatTable(format: string): (r: Option<FormatInfo>)
    ensures r.Some? <==> format == "ulaw" || format == "alaw" || format == "slin16"
    ensures r.Some? ==> r.value.samplesPerPkt * 1000 == ClockRate(format) * 20
    ensures r.Some? && StaticPayloadType(format).Some? ==>
      r.value.payloadType == StaticPayloadType(format).value
    ensures r.Some? && StaticPayloadType(format).None? ==> 96 <= r.value.payloadType <= 127
  {
    match format
    case "ulaw" => Some(FormatInfo(160, 0))
    case "alaw" => Some(FormatInfo(160, 8))
    case "slin16" => Some(FormatInfo(320, 96))
    case _ => None
  }

  /**
   The provisioning request. Any status of 300 or more is a failure, as is a
   body that does not decode; the server's reply is returned otherwise.
   */
  function CreateExternalMedia(p: Params, exchange: HttpExchange): (r: Result<MediaResponse, Error>)
    ensures r.Success? <==> exchange.Reply? && exchange.status < 300 && exchange.body.Some?
    ensures r.Success? ==> r.value == exchange.body.value
    ensures exchange.Reply? && exchange.status >= 300 ==> r == Failure(ProvisionStatus(exchange.status))
    ensures exchange.TransportError? ==> r == Failure(ProvisionTransport)
  {
    match exchange
    case TransportError => Failure(ProvisionTransport)
    case Reply(status, body) =>
      if status >= 300 then Failure(ProvisionStatus(status))
      else if body.None? then Failure(ProvisionDecode)
      else Success(body.value)
  }

  /** A channel every operation can run on: it owns a socket and sends non-empty frames. */
  predicate WellFormed(ch: Channel)
  {
    ch.conn.Some? && ch.samplesPerPkt > 0
  }

  /**
   The constructor: provision the remote channel, bind the socket to
   `hostIp:port`, draw the random stream state, then look the format up.
   `bindOk` is whether binding succeeded; `draws` are what the random source
   returned, each below its bound.
   */
  function CreateExternalMediaChannel(p: Params, exchange: HttpExchange, bindOk: bool, draws: Draws): (c: Construction)
    requires 0 <= draws.ssrc < MaxUint32
    requires 0 <= draws.sequence < MaxUint16
    requires 0 <= draws.timestamp < MaxUint32
    // all-or-nothing: a channel exactly when all three steps succeed
    ensures c.result.Success? <==>
      CreateExternalMedia(p, exchange).Success? && bindOk && FormatTable(p.format).Some?
    // the format table as the constructor applies it
    ensures c.result.Success? && p.format == "ulaw" ==>
      c.result.value.samplesPerPkt == 160 && c.result.value.payloadType == 0
    ensures c.result.Success? && p.format == "alaw" ==>
      c.result.value.samplesPerPkt == 160 && c.result.value.payloadType == 8
    ensures c.result.Success? && p.format == "slin16" ==>
      c.result.value.samplesPerPkt == 320 && c.result.value.payloadType == 96
    // a fresh channel: no peer yet, its own open socket, the drawn stream state
    ensures c.result.Success? ==>
      var ch := c.result.value;
      && WellFormed(ch)
      && ch.peer.None?
      && ch.id == CreateExternalMedia(p, exchange).value.id
      && ch.conn == Some(Conn(Addr(p.hostIp, p.port), true))
      && ch.ssrc == draws.ssrc && ch.sequence == draws.sequence && ch.timestamp == draws.timestamp
      && ch.ssrc <= MaxUint32 - 1 && ch.sequence <= MaxUint16 - 1 && ch.timestamp <= MaxUint32 - 1
      && c.sockets == [ch.conn.value]
    // provisioning comes first: when it fails nothing is bound
    ensures CreateExternalMedia(p, exchange).Failure? ==>
      c.result == Failure(CreateExternalMedia(p, exchange).error) && c.sockets == []
    // a request the server refused, or one that got no reply, leaves nothing remotely
    ensures exchange.TransportError? || exchange.status >= 300 ==>
      !c.remoteCreated && c.remoteId.None?
    // an accepted request whose reply does not decode leaves a remote channel of unknown id
    ensures exchange.Reply? && exchange.status < 300 && exchange.body.None? ==>
      c.result == Failure(ProvisionDecode) && c.remoteCreated && c.remoteId.None?
    // later failures leave the remote channel behind
    ensures CreateExternalMedia(p, exchange).Success? ==>
      c.remoteCreated && c.remoteId == Some(CreateExternalMedia(p, exchange).value.id)
    ensures CreateExternalMedia(p, exchange).Success? && !bindOk ==>
      c.result == Failure(BindFailed) && c.sockets == []
    // an unknown tag is found only after binding, and that socket is closed again
    ensures CreateExternalMedia(p, exchange).Success? && bindOk && FormatTable(p.format).None? ==>
      c.result == Failure(UnsupportedFormat(p.format))
      && c.sockets == [Conn(Addr(p.hostIp, p.port), false)]
    // no failure leaks a socket
    ensures c.result.Failure? ==> forall k :: 0 <= k < |c.sockets| ==> !c.sockets[k].open
  {
    match CreateExternalMedia(p, exchange)
    case Failure(e) => Construction(Failure(e), e == ProvisionDecode, None, [])
    case Success(resp) =>
      if !bindOk then
        Construction(Failure(BindFailed), true, Some(resp.id), [])
      else
        var conn := Conn(Addr(p.hostIp, p.port), true);
        match FormatTable(p.format)
        case None =>
          Construction(Failure(UnsupportedFormat(p.format)), true, Some(resp.id), [conn.(open := false)])
        case Some(info) =>
          var ch := Channel(resp.id, None, Some(conn), draws.ssrc, draws.sequence, draws.timestamp,
                            info.samplesPerPkt, info.payloadType);
          Construction(Success(ch), true, Some(resp.id), [conn])
  }

  /**
   What provisioning leaves on the server: a remote channel exists exactly
   when the request was accepted with a status below 300, whether or not the
   reply decoded, and a channel is only ever built on a decoded 2xx reply
   whose id it takes.
   */
  lemma ConstructionNeedsAcceptedRequest(p: Params, exchange: HttpExchange, bindOk: bool, draws: Draws)
    requires 0 <= draws.ssrc < MaxUint32
    requires 0 <= draws.sequence < MaxUint16
    requires 0 <= draws.timestamp < MaxUint32
    ensures var c := CreateExternalMediaChannel(p, exchange, bindOk, draws);
      && (c.remoteCreated <==> exchange.Reply? && exchange.status < 300)
      && (c.remoteId.Some? ==> c.remoteCreated)
      && (c.result.Success? ==>
            && exchange.Reply? && exchange.status < 300 && exchange.body.Some?
            && c.result.value.id == exchange.body.value.id
            && c.remoteId == Some(c.result.value.id))
  {
  }

  /**
   Releases the socket if there is one; nothing else about the channel
   changes and the remote channel is left alone.
   */
  function Close(ch: Channel): (r: Channel)
    ensures r.conn.Some? <==> ch.conn.Some?
    ensures r.conn.Some? ==> !r.conn.value.open && r.conn.value.local == ch.conn.value.local
    ensures r.(conn := ch.conn) == ch
  {
    match ch.conn
    case None => ch
    case Some(c) => ch.(conn := Some(c.(open := false)))
  }

  /** Closing twice is the same as closing once. */
  lemma CloseIdempotent(ch: Channel)
    ensures Close(Close(ch)) == Close(ch)
    ensures WellFormed(ch) ==> WellFormed(Close(ch))
  {
  }

  /** What one blocking read with a deadline produced. */
  datatype ReadResult =
    | Received(from: Addr, size: nat)
    | ReadError   // the deadline passed or the read failed

  /**
   Learns the peer's RTP address: the sender of the first datagram read from
   the socket becomes the peer. A read that fails (deadline, closed socket)
   leaves the channel as it was.
   */
  function WaitForAsteriskRTP(ch: Channel, read: ReadResult): (r: (Channel, Outcome<Error>))
    requires ch.conn.Some?
    ensures r.1.Pass? <==> ch.conn.value.open && read.Received?
    ensures r.1.Pass? ==> r.0 == ch.(peer := Some(read.from))
    ensures r.1.Fail? ==> r.0 == ch && r.1 == Fail(LearnFailed)
  {
    if !ch.conn.value.open then (ch, Fail(LearnFailed))
    else
      match read
      case ReadError => (ch, Fail(LearnFailed))
      case Received(from, _) => (ch.(peer := Some(from)), Pass)
  }
}
