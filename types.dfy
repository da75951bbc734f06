/**
 * The data the qlog tracer handles: the events it records, the document
 * skeleton it splices them into, and the collaborators it calls but whose
 * code is not part of this model (the QUIC wire types, the helpers that turn
 * them into qlog values, and the JSON encoder).
 */
module QlogTypes {
  import opened Wrappers

  type uint8 = x: int | 0 <= x < 0x100
  type uint32 = x: int | 0 <= x < 0x1_0000_0000

  /** Bytes as written to the sink. */
  type Bytes = seq<uint8>

  /** Go's `error`: an opaque value that is either absent or some failure. */
  type Err(==)

  /** `time.Time`: the tracer only copies it into events. */
  type Time(==)

  /** `time.Duration`: a count of nanoseconds. */
  type Duration = int

  /** Numeric protocol values the tracer copies without computing on them. */
  type ByteCount = int
  type PacketNumber = int
  type KeyPhase = int
  type VersionNumber = uint32

  /** `protocol.ConnectionID` is a byte slice. */
  type ConnectionId = Bytes

  /** `protocol.Perspective`: which side of the connection this tracer sits on. */
  datatype Perspective = Client | Server

  /** `net.UDPAddr`. */
  datatype UdpAddr = UdpAddr(ip: Bytes, port: int, zone: string)

  /** A `net.Addr`: either a `*net.UDPAddr` or some other kind of address. */
  datatype NetAddr = Udp(udp: UdpAddr) | OtherAddr(network: string)

  /** QUIC wire types the tracer receives from the connection (opaque here). */
  type WireFrame
  type Header
  /** The fields an extended header adds to a header (packet number, its length, key phase). */
  type HeaderExtension
  datatype ExtendedHeader = ExtendedHeader(header: Header, extension: HeaderExtension)
  type EncryptionLevel

  /** qlog-side values built by helpers that are not part of this model (opaque here). */
  type Frame(==, 0)
  type HeaderFields(==)
  type PacketType(==)
  type PacketLossReason(==)

  /** qlog's packet header; `packetSize` is the field the tracer overwrites. */
  datatype PacketHeader = PacketHeader(fields: HeaderFields, packetSize: ByteCount)

  /** What caused a key update. */
  datatype KeyUpdateTrigger = TlsTrigger | LocalTrigger | RemoteTrigger

  /** The key types a qlog key update names. */
  datatype KeyType =
    | ServerInitial | ClientInitial
    | ServerHandshake | ClientHandshake
    | Server0RTT | Client0RTT
    | Server1RTT | Client1RTT

  /** `RTTStats` as read through its getters when the metrics event is built. */
  datatype RttStats = RttStats(minRtt: Duration, smoothedRtt: Duration, latestRtt: Duration, meanDeviation: Duration)

  /** The event-specific part of an event. */
  datatype EventDetails =
    | ConnectionStarted(srcAddr: UdpAddr, destAddr: UdpAddr, version: VersionNumber,
                        srcConnectionId: ConnectionId, destConnectionId: ConnectionId)
    | PacketSent(packetType: PacketType, header: PacketHeader, frames: seq<Frame>)
    | PacketReceived(packetType: PacketType, header: PacketHeader, frames: seq<Frame>)
    | RetryReceived(header: PacketHeader)
    | PacketBuffered(packetType: PacketType)
    | MetricsUpdated(minRtt: Duration, smoothedRtt: Duration, latestRtt: Duration, rttVariance: Duration,
                     congestionWindow: ByteCount, bytesInFlight: ByteCount, packetsInFlight: int)
    | PacketLost(packetType: PacketType, packetNumber: PacketNumber, trigger: PacketLossReason)
    | UpdatedPto(value: uint32)
    | KeyUpdated(keyTrigger: KeyUpdateTrigger, keyType: KeyType, generation: KeyPhase)

  /** One recorded event: an immutable value, safe to hand to the writer. */
  datatype Event = Event(time: Time, details: EventDetails)

  /** The document skeleton: a top-level object holding exactly one trace whose events array is empty. */
  datatype TraceHeader = TraceHeader(vantagePoint: Perspective, odcid: ConnectionId, groupId: ConnectionId,
                                     eventFields: seq<string>)
  datatype TopLevel = TopLevel(traces: seq<TraceHeader>)

  /** The column names every event line uses (defined in event.go, which is not part of this model). */
  const EventFields: seq<string> := ["relative_time", "category", "event", "data"]

  /** The skeleton `run` encodes: one trace, seen from `p`, with `odcid` as both connection and group id. */
  function Skeleton(p: Perspective, odcid: ConnectionId): (tl: TopLevel)
    ensures |tl.traces| == 1 && tl.traces[0].vantagePoint == p
    ensures tl.traces[0].odcid == tl.traces[0].groupId == odcid
  {
    TopLevel([TraceHeader(p, odcid, odcid, EventFields)])
  }

  /**
   * The helper functions of the qlog package that turn wire values into qlog
   * values (`transformFrame`, `transformExtendedHeader`, `transformHeader`,
   * `PacketTypeFromHeader`, `getPacketTypeFromEncryptionLevel`,
   * `encLevelToKeyType`); their code is not part of this model.
   */
  datatype Transforms = Transforms(
    frame: WireFrame -> Frame,
    extendedHeader: ExtendedHeader -> PacketHeader,
    header: Header -> PacketHeader,
    packetTypeFromHeader: Header -> PacketType,
    packetTypeFromEncLevel: EncryptionLevel -> PacketType,
    keyType: (EncryptionLevel, Perspective) -> KeyType)

  /** The JSON encoder (gojay): it encodes the skeleton and each event, or fails. */
  datatype Codec = Codec(topLevel: TopLevel -> Result<Bytes, Err>, event: Event -> Result<Bytes, Err>)
}
