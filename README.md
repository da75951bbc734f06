# qlog tracer: a verified model of the streaming event writer

This project models the qlog tracer of quic-go (`qlog/qlog.go`). The tracer records the events of one QUIC
connection (connection start, packets sent, received, buffered and lost, Retry, metrics, PTO count, key
updates) and streams them into a single JSON document. It does not build the whole document in memory:

- `run` encodes the skeleton document, whose events array is empty, into a memory buffer.
- It keeps the last four bytes (the closing brackets) as the *suffix* and writes everything before them,
  the *prefix*, to the sink.
- It then takes events off a bounded FIFO channel (capacity 50) and writes each one's encoding to the sink,
  with a comma before every event but the first.
- The first failure is latched in `encodeErr`. After that the loop keeps draining the channel but writes
  nothing.
- `Export` closes the channel and waits for the writer. It returns the latched error if there is one.
  Otherwise it writes the suffix and closes the sink.

Modules:

- `Wrappers` (`wrappers.dfy`): `Option` and `Result`.
- `QlogTypes` (`types.dfy`): the event data model, the skeleton, and the collaborators as records of opaque
  functions. `Transforms` stands for the wire-to-qlog helpers. `Codec` stands for the JSON encoder.
- `Output` (`sink.dfy`): the `io.WriteCloser` sink as a class. A script fixes the outcome of its i-th
  `Write` call and the result of `Close`. A failed write may have taken a prefix of the data, as
  `io.Writer` allows.
- `Writer` (`writer.dfy`): the writer and the finalizer as functions of the events the queue delivered:
  `Start`, `Step`, `Feed`, `Run`, `Finish` and `Outcome`. The lemmas prove the document property, error
  latching, failure containment and Export's precedence rules.
- `Qlog` (`qlog.dfy`): the `Tracer` class. Its fields are the channel buffer `queue`, `encodeErr`,
  `isFirst`, `suffix` and `eventsClosed` (whether `Export` has closed the events channel).
  - Its invariant `Valid()` says that the sink, `encodeErr` and `isFirst` are exactly what `Writer.Run`
    produces from the events consumed so far.
  - `Consume` is one iteration of `run`'s loop. `Send` is the channel send. `Drain` and `Export` are the
    shutdown.
  - The recorder methods build an event and send it. The two frame-list builders are loops.

`Export`'s contract states its result and the sink's final state as `Writer.Outcome` of every event ever
recorded, in recording order. So the output does not depend on when the writer ran relative to the
producers. The lemmas about `Outcome` then carry over to the class. `Qlog.BufferedPacketsDocument` shows
this end to end: it creates a tracer on a fresh sink, records events and exports, and proves the
resulting document on that sink.

Two behaviours of the code are modelled as written, although a reader might expect otherwise:

- The result of the comma write is ignored, so a failed comma write is not latched.
- `Export` returns the suffix write's error without closing the sink. The sink is closed only after a
  successful suffix write.

## Model

| member | source | states |
|---|---|---|
| `QlogTypes.Skeleton` | qlog/qlog.go:64-71 | the skeleton holds a single trace whose vantage point is the tracer's perspective and whose connection id and group id are both the original destination connection id |
| `Writer.SplitSkeleton` | qlog/qlog.go:75-77 | the suffix is exactly 4 bytes long and prefix ++ suffix is the encoded skeleton; it needs at least 4 bytes |
| `Writer.Start` | qlog/qlog.go:75-79 | the prefix write is the first sink call; on success the sink gained exactly the prefix, and the error is latched exactly when that write fails; the first event is still to come |
| `Writer.Step` | qlog/qlog.go:82-92 | one loop iteration only appends to the sink; with an error latched it changes nothing; otherwise the next event is no longer the first, an encoding failure latches the encoder's error, and after an encoding the latched error is exactly the error of the event's own write (the call after the comma write, if there was one) |
| `Writer.Feed` | qlog/qlog.go:81-93 | the loop only ever appends to the sink; a latched error is never replaced and freezes the whole writer state |
| `Writer.Run` | qlog/qlog.go:60-94 | run only appends to what the sink held; with no latched error the prefix went out whole first; a failed prefix write leaves run's state as it was right after that write, whatever events follow |
| `Writer.Outcome` | qlog/qlog.go:60-107 | a nil result from Export means the sink was closed; when it was closed, Export returned Close's result and the sink holds the whole prefix and ends with the 4 suffix bytes |
| `Writer.Finish` | qlog/qlog.go:100-106 | with an error latched, Export returns it, writes nothing and does not close; Close is called only without a latched error and after the suffix was written, and its result is returned; a failed suffix write is returned without closing; a nil result implies the sink was closed |
| `Writer.JoinIsFirstThenSeparated` | qlog/qlog.go:86-88 | comma-joined encodings are the first encoding followed by each later one after a comma, the shape the isFirst flag produces |
| `Writer.FeedAppend` | qlog/qlog.go:82-93 | consuming a ++ b is consuming a and then b, so FIFO order is all that matters |
| `Writer.FeedSnoc` | qlog/qlog.go:82-93 | consuming one more event is one more loop iteration |
| `Writer.FaultFreeStep` | qlog/qlog.go:86-92 | without failures an iteration appends the event's encoding, after a comma unless it is the first event, and latches nothing |
| `Writer.FaultFreeFeed` | qlog/qlog.go:81-93 | without failures the loop appends the encodings in queue order joined by single commas, with no comma before the first or after the last |
| `Writer.CompleteDocument` | qlog/qlog.go:62-106 | without failures the sink ends with prefix ++ join(encodings, ",") ++ suffix, is closed, and Export returns Close's result |
| `Writer.EmptyTraceIsSkeleton` | qlog/qlog.go:75-106 | with zero events and no failures the sink ends with exactly the encoded skeleton and is closed |
| `Writer.FailureContained` | qlog/qlog.go:82-91 | once an event latches an error, every later event is consumed without a byte written, and the error stays the first one |
| `Writer.ExportReportsFirstFailure` | qlog/qlog.go:89-102 | if event k fails, Export returns that failure, writes no suffix, does not close, and the sink holds what it held right after event k |
| `Writer.PrefixFailureStopsOutput` | qlog/qlog.go:77-85 | if the prefix write fails, no comma or event byte is ever written, nothing is closed, and Export returns that write's error |
| `Writer.CommaFailureNotLatched` | qlog/qlog.go:86-91 | a failed comma write is not latched: the event is still written and no error is recorded |
| `Qlog.SentFrames` | qlog/qlog.go:132-142 | the frame list has len(frames)+1 entries exactly when there is an ACK; the ACK comes first, then the frames in their order |
| `Qlog.ReceivedFrames` | qlog/qlog.go:156-159 | the frame list keeps the number and order of the frames |
| `Qlog.RecordBufferedPackets` | qlog/qlog.go:181-186 | BufferedPacket called once per packet type appends exactly those events, in order, to the recorded stream |
| `Qlog.NewBufferedPacketsTracer` | qlog/qlog.go:48-58 | a tracer created on a fresh sink is valid and, after one BufferedPacket call per packet type, has recorded exactly those events, with the fresh sink's empty state as its starting point |
| `Qlog.BufferedPacketsDocument` | qlog/qlog.go:48-107 | a tracer created on a fresh, never-failing sink, fed buffered-packet events and exported leaves that sink holding prefix ++ join(encodings, ",") ++ suffix, closed, with Export returning Close's result |
| `Qlog.Tracer.constructor` | qlog/qlog.go:48-79 | the new tracer is valid with an empty queue, keeps the last 4 skeleton bytes as suffix, and the sink state is Start's (prefix written, failure latched) |
| `Qlog.Tracer.Consume` | qlog/qlog.go:82-93 | takes the oldest queued event and leaves the sink, encodeErr and isFirst as Run of all consumed events |
| `Qlog.Tracer.Send` | qlog/qlog.go:54 | appends the event to the recorded stream in FIFO order, never holding more than 50 queued events; the writer only moves forward: consumed events stay consumed and bytes already in the sink stay there |
| `Qlog.Tracer.Drain` | qlog/qlog.go:98-99 | after the channel is closed the writer consumes every queued event, in order |
| `Qlog.Tracer.Export` | qlog/qlog.go:97-107 | Export's result and the sink's final contents and closed state are Outcome of all recorded events in recording order |
| `Qlog.Tracer.StartedConnection` | qlog/qlog.go:109-129 | nothing is recorded unless both addresses are UDP; otherwise exactly one connection-started event with the given fields |
| `Qlog.Tracer.SentPacket` | qlog/qlog.go:131-153 | one packet-sent event whose header has the given packet size and whose frames are the ACK first, then the frames in order |
| `Qlog.Tracer.ReceivedPacket` | qlog/qlog.go:155-170 | one packet-received event whose header has the given packet size and whose frames keep their count and order |
| `Qlog.Tracer.ReceivedRetry` | qlog/qlog.go:172-179 | one retry-received event with the transformed header |
| `Qlog.Tracer.BufferedPacket` | qlog/qlog.go:181-186 | one packet-buffered event with the packet type |
| `Qlog.Tracer.UpdatedMetrics` | qlog/qlog.go:188-201 | one metrics event with the four RTT values and the congestion figures |
| `Qlog.Tracer.LostPacket` | qlog/qlog.go:203-212 | one packet-lost event typed by the encryption level, with packet number and reason |
| `Qlog.Tracer.UpdatedPTOCount` | qlog/qlog.go:214-219 | one PTO event with the value |
| `Qlog.Tracer.UpdatedKeyFromTLS` | qlog/qlog.go:221-229 | exactly one key-updated event with the TLS trigger, the key type of the level and perspective, and generation zero |
| `Qlog.Tracer.UpdatedKey` | qlog/qlog.go:231-252 | exactly two key-updated events, client 1-RTT first and server 1-RTT second, with the same time and generation; the trigger is "remote" iff remote is set |

## Left out

- Concurrency: the writer goroutine, the `events` and `runStopped` channels and their blocking (qlog/qlog.go:53-56, 98-99). The writer runs one event at a time in `Consume`. It runs when a send finds 50 events queued, which stands for the blocked sender, and when `Export` drains the queue. `Export`'s result depends only on the recorded order, so other interleavings produce the same output.
- Qlog.Tracer.Send: a send on a closed channel (recording after `Export`) panics in Go; here it is excluded by `requires !eventsClosed`, as is a second `Export`.
- The JSON encoder (gojay): `Codec` gives each value's encoding or an error. It assumes that encoding an event either fails before writing, or makes one `Write` of the whole encoding whose error it returns.
- Qlog.Tracer.constructor: the panic when the skeleton cannot be encoded (qlog/qlog.go:72-74), and a slice panic when the encoding is shorter than 4 bytes, become the precondition `SkeletonEncodes`. The skeleton write happens at construction rather than at the goroutine's start. This does not change the output, because events are written only after the prefix.
- The helpers `transformFrame`, `transformExtendedHeader`, `transformHeader`, `PacketTypeFromHeader`, `getPacketTypeFromEncryptionLevel` and `encLevelToKeyType`, and the event and frame types: their files are not part of this model. The helpers are opaque functions in `Transforms`, and the qlog frame, header fields and packet types are opaque types.
- The event field list `eventFields` comes from a file that is not part of this model. It is taken as the four qlog column names.
- `net.Addr` is a tag: a UDP address or another kind. A typed nil `*net.UDPAddr` is not modelled.
- `time.Time` is opaque and `RTTStats` is a snapshot of its four getters. Integer widths (`ByteCount`, `PacketNumber`, `KeyPhase`) are not modelled, because the tracer only copies these values.
- The sink's behaviour after `Close`, and what the bytes of the document mean as JSON: the encodings are opaque, so validity is stated as prefix ++ join(encodings, ",") ++ suffix.
