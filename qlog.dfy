/**
 * The qlog tracer: recorder calls build events and send them to a bounded
 * FIFO queue; a single writer takes them off one at a time and streams them
 * into the sink between the skeleton's prefix and suffix; `Export` closes the
 * queue, lets the writer drain it, and finishes the document.
 *
 * The writer goroutine is modelled by `Consume` (one iteration of its loop),
 * which a full queue forces before a send and `Export` repeats until the queue
 * is empty.
 */
module Qlog {
  import opened Wrappers
  import opened QlogTypes
  import opened Output
  import opened Writer

  /** Capacity of the events channel. */
  const EventChanSize: nat := 50

  /** `fs` holds `tf` applied to each of `frames`, in the same order. */
  ghost predicate TransformedInOrder(fs: seq<Frame>, tf: WireFrame -> Frame, frames: seq<WireFrame>)
  {
    |fs| == |frames| && forall i :: 0 <= i < |frames| ==> fs[i] == tf(frames[i])
  }

  /** The frame list of a sent packet: the ACK frame (if any) first, then the other frames in order. */
  method SentFrames(tf: WireFrame -> Frame, ack: Option<WireFrame>, frames: seq<WireFrame>) returns (fs: seq<Frame>)
    ensures |fs| == |frames| + (if ack.Some? then 1 else 0)
    ensures ack.Some? ==> fs[0] == tf(ack.value)
    ensures TransformedInOrder(fs[|fs| - |frames|..], tf, frames)
  {
    fs := [];
    if ack.Some? {
      fs := fs + [tf(ack.value)];
    }
    var lead := |fs|;
    for i := 0 to |frames|
      invariant |fs| == lead + i
      invariant ack.Some? ==> fs[0] == tf(ack.value)
      invariant forall k :: 0 <= k < i ==> fs[lead + k] == tf(frames[k])
    {
      fs := fs + [tf(frames[i])];
    }
  }

  /** The frame list of a received packet: every frame transformed, count and order kept. */
  method ReceivedFrames(tf: WireFrame -> Frame, frames: seq<WireFrame>) returns (fs: seq<Frame>)
    ensures TransformedInOrder(fs, tf, frames)
  {
    var a := new Frame[|frames|];
    for i := 0 to |frames|
      invariant forall k :: 0 <= k < i ==> a[k] == tf(frames[k])
    {
      a[i] := tf(frames[i]);
    }
    fs := a[..];
  }

  class Tracer {
    const w: Sink
    const odcid: ConnectionId
    const perspective: Perspective
    /** The JSON encoder and the wire-to-qlog helpers the tracer calls. */
    const codec: Codec
    const transforms: Transforms

    var suffix: Bytes
    /** The events channel's buffer, oldest first. */
    var queue: seq<Event>
    var encodeErr: Option<Err>
    /** The writer loop's `isFirst` flag. */
    var isFirst: bool
    /** Whether `Export` has closed the events channel. */
    var eventsClosed: bool

    /** The sink as it was when the tracer was created. */
    ghost const sink0: SinkState
    /** The events the writer has already taken off the queue, in order. */
    ghost var consumed: seq<Event>

    /** Whether encoding the skeleton succeeds with at least four bytes (otherwise `run` panics). */
    static predicate SkeletonEncodes(codec: Codec, p: Perspective, odcid: ConnectionId)
    {
      codec.topLevel(Skeleton(p, odcid)).Success? && |codec.topLevel(Skeleton(p, odcid)).value| >= SuffixLength
    }

    /** The encoded skeleton. */
    function Doc(): Bytes
      requires SkeletonEncodes(codec, perspective, odcid)
    {
      codec.topLevel(Skeleton(perspective, odcid)).value
    }

    /** Every event recorded so far, in queue order: those already written out, then those still queued. */
    ghost function Recorded(): seq<Event>
      reads this
    {
      consumed + queue
    }

    /**
     * The tracer's invariant: the queue respects its capacity, the suffix is
     * the skeleton's last four bytes, and the sink, the latched error and the
     * `isFirst` flag are what `run` produces from the events consumed so far.
     */
    ghost predicate Valid()
      reads this, w
    {
      SkeletonEncodes(codec, perspective, odcid)
      && suffix == SplitSkeleton(Doc()).suffix
      && |queue| <= EventChanSize
      && !w.closed
      && WriterState(w.State(), encodeErr, isFirst) == Run(sink0, w.outcome, codec.event, Doc(), consumed)
    }

    /** `NewTracer` followed by the part of `run` before its loop: split the skeleton and write its prefix. */
    constructor (w: Sink, p: Perspective, odcid: ConnectionId, codec: Codec, transforms: Transforms)
      requires SkeletonEncodes(codec, p, odcid) && !w.closed
      modifies w
      ensures Valid() && !eventsClosed && queue == [] && consumed == []
      ensures this.w == w && perspective == p && this.odcid == odcid
      ensures this.codec == codec && this.transforms == transforms
      ensures sink0 == old(w.State())
      ensures WriterState(w.State(), encodeErr, isFirst) == Start(old(w.State()), w.outcome, Doc())
    {
      this.w, perspective, this.odcid := w, p, odcid;
      this.codec, this.transforms := codec, transforms;
      sink0 := w.State();
      queue, consumed, eventsClosed, isFirst := [], [], false, true;
      var data := codec.topLevel(Skeleton(p, odcid)).value;
      suffix := data[|data| - SuffixLength..];
      encodeErr := None;
      new;
      var _, err := w.Write(data[..|data| - SuffixLength]);
      if err.Some? {
        encodeErr := err;
      }
    }

    /** One iteration of the writer's loop: take the oldest event off the queue and stream it. */
    method Consume()
      requires Valid() && queue != []
      modifies this, w
      ensures Valid() && eventsClosed == old(eventsClosed)
      ensures consumed == old(consumed) + [old(queue)[0]] && queue == old(queue)[1..]
      ensures old(w.written) <= w.written
    {
      var ev := queue[0];
      queue := queue[1..];
      if encodeErr.None? {
        if !isFirst {
          var _, _ := w.Write([Comma]);
        }
        match codec.event(ev) {
          case Failure(e) =>
            encodeErr := Some(e);
          case Success(data) =>
            var _, err := w.Write(data);
            if err.Some? {
              encodeErr := err;
            }
        }
        isFirst := false;
      }
      FeedSnoc(Start(sink0, w.outcome, Doc()), w.outcome, codec.event, consumed, ev);
      consumed := consumed + [ev];
    }

    /** A send on the events channel; a full channel holds the sender until the writer has taken one event. */
    method Send(ev: Event)
      requires Valid() && !eventsClosed
      modifies this, w
      ensures Valid() && !eventsClosed
      ensures old(consumed) <= consumed && old(w.written) <= w.written
      ensures Recorded() == old(Recorded()) + [ev]
    {
      if |queue| == EventChanSize {
        Consume();
      }
      queue := queue + [ev];
    }

    /** The rest of the writer's loop once the channel is closed: consume every queued event. */
    method Drain()
      requires Valid()
      modifies this, w
      ensures Valid() && eventsClosed == old(eventsClosed)
      ensures queue == [] && consumed == old(Recorded())
      ensures old(consumed) <= consumed && old(w.written) <= w.written
    {
      while queue != []
        invariant Valid() && eventsClosed == old(eventsClosed)
        invariant Recorded() == old(Recorded())
        invariant old(consumed) <= consumed && old(w.written) <= w.written
        decreases |queue|
      {
        Consume();
      }
    }

    /**
     * `Export`: close the queue, wait for the writer to drain it, then return
     * the latched error, or write the suffix and close the sink.
     */
    method Export() returns (err: Option<Err>)
      requires Valid() && !eventsClosed
      modifies this, w
      ensures eventsClosed && queue == [] && consumed == old(Recorded())
      ensures var f := Outcome(sink0, w.outcome, codec.event, Doc(), old(Recorded()), w.closeOutcome);
        err == f.ret && w.State() == f.sink && w.closed == f.closed
    {
      eventsClosed := true;
      Drain();
      if encodeErr.Some? {
        return encodeErr;
      }
      var _, werr := w.Write(suffix);
      if werr.Some? {
        return werr;
      }
      err := w.Close();
    }

    /** Records the connection start, unless either address is not a UDP address. */
    method StartedConnection(time: Time, local: NetAddr, remote: NetAddr, version: VersionNumber,
                             srcConnId: ConnectionId, destConnId: ConnectionId)
      requires Valid() && !eventsClosed
      modifies this, w
      ensures Valid() && !eventsClosed
      ensures old(consumed) <= consumed && old(w.written) <= w.written
      ensures !(local.Udp? && remote.Udp?) ==> Recorded() == old(Recorded())
      ensures local.Udp? && remote.Udp? ==>
        Recorded() == old(Recorded()) + [Event(time, ConnectionStarted(local.udp, remote.udp, version, srcConnId, destConnId))]
    {
      if !local.Udp? {
        return;
      }
      if !remote.Udp? {
        return;
      }
      Send(Event(time, ConnectionStarted(local.udp, remote.udp, version, srcConnId, destConnId)));
    }

    /** Records a sent packet: the ACK frame first, then the other frames; the header carries the packet size. */
    method SentPacket(time: Time, hdr: ExtendedHeader, packetSize: ByteCount, ack: Option<WireFrame>, frames: seq<WireFrame>)
      requires Valid() && !eventsClosed
      modifies this, w
      ensures Valid() && !eventsClosed
      ensures old(consumed) <= consumed && old(w.written) <= w.written
      ensures |Recorded()| == |old(Recorded())| + 1 && Recorded()[..|old(Recorded())|] == old(Recorded())
      ensures var ev := Recorded()[|old(Recorded())|];
        ev.time == time && ev.details.PacketSent?
        && ev.details.packetType == transforms.packetTypeFromHeader(hdr.header)
        && ev.details.header == transforms.extendedHeader(hdr).(packetSize := packetSize)
        && |ev.details.frames| == |frames| + (if ack.Some? then 1 else 0)
        && (ack.Some? ==> ev.details.frames[0] == transforms.frame(ack.value))
        && TransformedInOrder(ev.details.frames[|ev.details.frames| - |frames|..], transforms.frame, frames)
    {
      var fs := SentFrames(transforms.frame, ack, frames);
      var header := transforms.extendedHeader(hdr).(packetSize := packetSize);
      Send(Event(time, PacketSent(transforms.packetTypeFromHeader(hdr.header), header, fs)));
    }

    /** Records a received packet: every frame in order; the header carries the packet size. */
    method ReceivedPacket(time: Time, hdr: ExtendedHeader, packetSize: ByteCount, frames: seq<WireFrame>)
      requires Valid() && !eventsClosed
      modifies this, w
      ensures Valid() && !eventsClosed
      ensures old(consumed) <= consumed && old(w.written) <= w.written
      ensures |Recorded()| == |old(Recorded())| + 1 && Recorded()[..|old(Recorded())|] == old(Recorded())
      ensures var ev := Recorded()[|old(Recorded())|];
        ev.time == time && ev.details.PacketReceived?
        && ev.details.packetType == transforms.packetTypeFromHeader(hdr.header)
        && ev.details.header == transforms.extendedHeader(hdr).(packetSize := packetSize)
        && TransformedInOrder(ev.details.frames, transforms.frame, frames)
    {
      var fs := ReceivedFrames(transforms.frame, frames);
      var header := transforms.extendedHeader(hdr).(packetSize := packetSize);
      Send(Event(time, PacketReceived(transforms.packetTypeFromHeader(hdr.header), header, fs)));
    }

    /** Records a received Retry packet with its header. */
    method ReceivedRetry(time: Time, hdr: Header)
      requires Valid() && !eventsClosed
      modifies this, w
      ensures Valid() && !eventsClosed
      ensures old(consumed) <= consumed && old(w.written) <= w.written
      ensures Recorded() == old(Recorded()) + [Event(time, RetryReceived(transforms.header(hdr)))]
    {
      Send(Event(time, RetryReceived(transforms.header(hdr))));
    }

    /** Records that a packet of the given type was buffered. */
    method BufferedPacket(time: Time, packetType: PacketType)
      requires Valid() && !eventsClosed
      modifies this, w
      ensures Valid() && !eventsClosed
      ensures old(consumed) <= consumed && old(w.written) <= w.written
      ensures Recorded() == old(Recorded()) + [Event(time, PacketBuffered(packetType))]
    {
      Send(Event(time, PacketBuffered(packetType)));
    }

    /** Records a snapshot of the RTT statistics and the congestion figures. */
    method UpdatedMetrics(time: Time, rttStats: RttStats, cwnd: ByteCount, bytesInFlight: ByteCount, packetsInFlight: int)
      requires Valid() && !eventsClosed
      modifies this, w
      ensures Valid() && !eventsClosed
      ensures old(consumed) <= consumed && old(w.written) <= w.written
      ensures Recorded() == old(Recorded()) + [Event(time, MetricsUpdated(rttStats.minRtt, rttStats.smoothedRtt,
        rttStats.latestRtt, rttStats.meanDeviation, cwnd, bytesInFlight, packetsInFlight))]
    {
      Send(Event(time, MetricsUpdated(rttStats.minRtt, rttStats.smoothedRtt, rttStats.latestRtt,
                                      rttStats.meanDeviation, cwnd, bytesInFlight, packetsInFlight)));
    }

    /** Records a lost packet, typed by its encryption level. */
    method LostPacket(time: Time, encLevel: EncryptionLevel, pn: PacketNumber, lossReason: PacketLossReason)
      requires Valid() && !eventsClosed
      modifies this, w
      ensures Valid() && !eventsClosed
      ensures old(consumed) <= consumed && old(w.written) <= w.written
      ensures Recorded() == old(Recorded()) + [Event(time, PacketLost(transforms.packetTypeFromEncLevel(encLevel), pn, lossReason))]
    {
      Send(Event(time, PacketLost(transforms.packetTypeFromEncLevel(encLevel), pn, lossReason)));
    }

    /** Records the new PTO count. */
    method UpdatedPTOCount(time: Time, value: uint32)
      requires Valid() && !eventsClosed
      modifies this, w
      ensures Valid() && !eventsClosed
      ensures old(consumed) <= consumed && old(w.written) <= w.written
      ensures Recorded() == old(Recorded()) + [Event(time, UpdatedPto(value))]
    {
      Send(Event(time, UpdatedPto(value)));
    }

    /** Records one key update caused by TLS; its generation is left at zero. */
    method UpdatedKeyFromTLS(time: Time, encLevel: EncryptionLevel, pers: Perspective)
      requires Valid() && !eventsClosed
      modifies this, w
      ensures Valid() && !eventsClosed
      ensures old(consumed) <= consumed && old(w.written) <= w.written
      ensures Recorded() == old(Recorded()) + [Event(time, KeyUpdated(TlsTrigger, transforms.keyType(encLevel, pers), 0))]
    {
      Send(Event(time, KeyUpdated(TlsTrigger, transforms.keyType(encLevel, pers), 0)));
    }

    /**
     * Records a 1-RTT key update as two events, the client key first and then
     * the server key, with the same time and generation; the trigger is
     * "remote" exactly when `remote` is set.
     */
    method UpdatedKey(time: Time, generation: KeyPhase, remote: bool)
      requires Valid() && !eventsClosed
      modifies this, w
      ensures Valid() && !eventsClosed
      ensures old(consumed) <= consumed && old(w.written) <= w.written
      ensures var trigger := if remote then RemoteTrigger else LocalTrigger;
        Recorded() == old(Recorded()) + [Event(time, KeyUpdated(trigger, Client1RTT, generation)),
                                         Event(time, KeyUpdated(trigger, Server1RTT, generation))]
    {
      var trigger := LocalTrigger;
      if remote {
        trigger := RemoteTrigger;
      }
      Send(Event(time, KeyUpdated(trigger, Client1RTT, generation)));
      Send(Event(time, KeyUpdated(trigger, Server1RTT, generation)));
    }
  }

  /** The events `BufferedPacket` records for each packet type, all at `time`. */
  function BufferedEvents(time: Time, packetTypes: seq<PacketType>): (evs: seq<Event>)
    ensures |evs| == |packetTypes|
    ensures forall i :: 0 <= i < |packetTypes| ==> evs[i] == Event(time, PacketBuffered(packetTypes[i]))
  {
    seq(|packetTypes|, i requires 0 <= i < |packetTypes| => Event(time, PacketBuffered(packetTypes[i])))
  }

  /** Records one buffered packet per packet type, in order. */
  method RecordBufferedPackets(t: Tracer, time: Time, packetTypes: seq<PacketType>)
    requires t.Valid() && !t.eventsClosed
    modifies t, t.w
    ensures t.Valid() && !t.eventsClosed
    ensures t.Recorded() == old(t.Recorded()) + BufferedEvents(time, packetTypes)
  {
    for i := 0 to |packetTypes|
      invariant t.Valid() && !t.eventsClosed
      invariant t.Recorded() == old(t.Recorded()) + BufferedEvents(time, packetTypes[..i])
    {
      t.BufferedPacket(time, packetTypes[i]);
      assert BufferedEvents(time, packetTypes[..i + 1])
          == BufferedEvents(time, packetTypes[..i]) + [Event(time, PacketBuffered(packetTypes[i]))];
    }
    assert packetTypes[..|packetTypes|] == packetTypes;
  }

  /** A tracer on a fresh sink that has recorded one buffered packet per packet type. */
  method NewBufferedPacketsTracer(outcome: nat -> WriteOutcome, closeOutcome: Option<Err>, p: Perspective, odcid: ConnectionId,
                                  codec: Codec, transforms: Transforms, time: Time, packetTypes: seq<PacketType>)
    returns (sink: Sink, t: Tracer)
    requires Tracer.SkeletonEncodes(codec, p, odcid)
    ensures fresh(sink) && fresh(t) && t.w == sink && t.Valid() && !t.eventsClosed
    ensures sink.outcome == outcome && sink.closeOutcome == closeOutcome
    ensures t.sink0 == SinkState([], 0) && t.codec == codec && t.perspective == p && t.odcid == odcid
    ensures t.Recorded() == BufferedEvents(time, packetTypes)
  {
    sink := new Sink(outcome, closeOutcome);
    t := new Tracer(sink, p, odcid, codec, transforms);
    RecordBufferedPackets(t, time, packetTypes);
    assert [] + BufferedEvents(time, packetTypes) == BufferedEvents(time, packetTypes);
  }

  /**
   * A whole tracer life on a fresh sink that never fails: create the tracer,
   * record one buffered packet per packet type, export. The sink then holds the
   * skeleton's prefix, the events' encodings in recording order joined by
   * commas, and the suffix; it is closed, and `Export` returns `Close`'s result.
   */
  method BufferedPacketsDocument(outcome: nat -> WriteOutcome, closeOutcome: Option<Err>, p: Perspective, odcid: ConnectionId,
                                 codec: Codec, transforms: Transforms, time: Time, packetTypes: seq<PacketType>)
    returns (doc: Bytes, sinkClosed: bool, err: Option<Err>)
    requires Tracer.SkeletonEncodes(codec, p, odcid) && Reliable(outcome)
    requires AllEncode(codec.event, BufferedEvents(time, packetTypes))
    ensures var skeleton := SplitSkeleton(codec.topLevel(Skeleton(p, odcid)).value);
      doc == skeleton.prefix + Join(Encodings(codec.event, BufferedEvents(time, packetTypes))) + skeleton.suffix
    ensures sinkClosed && err == closeOutcome
  {
    var sink, t := NewBufferedPacketsTracer(outcome, closeOutcome, p, odcid, codec, transforms, time, packetTypes);
    var evs := BufferedEvents(time, packetTypes);
    err := t.Export();
    CompleteDocument(SinkState([], 0), outcome, codec.event, t.Doc(), evs, closeOutcome);
    doc, sinkClosed := sink.written, sink.closed;
  }
}
