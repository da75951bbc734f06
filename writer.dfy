/**
 * What the tracer's background writer (`run`) and its finalizer (`Export`)
 * do to the sink, as functions of the events taken off the queue, the
 * encoder and the sink's script, with the properties of the streamed document.
 */
module Writer {
  import opened Wrappers
  import opened QlogTypes
  import opened Output

  /** The separator written between two events: "," in ASCII. */
  const Comma: uint8 := 0x2C

  /** The number of closing bytes kept back from the encoded skeleton. */
  const SuffixLength: nat := 4

  datatype Split = Split(prefix: Bytes, suffix: Bytes)

  /**
   * The skeleton split: the encoded empty document without its last four
   * bytes is written first, and those four closing bytes at the very end.
   */
  function SplitSkeleton(doc: Bytes): (r: Split)
    requires |doc| >= SuffixLength
    ensures |r.suffix| == SuffixLength
    ensures r.prefix + r.suffix == doc
  {
    Split(doc[..|doc| - SuffixLength], doc[|doc| - SuffixLength..])
  }

  /**
   * The writer's state: the sink, the latched error (`encodeErr`) and whether
   * the next event is the first one (`isFirst`).
   */
  datatype WriterState = WriterState(sink: SinkState, err: Option<Err>, isFirst: bool)

  /** `run` before its loop: write the prefix of the encoded skeleton and latch a failure of that write. */
  function Start(sink0: SinkState, outcome: nat -> WriteOutcome, doc: Bytes): (r: WriterState)
    requires |doc| >= SuffixLength
    ensures r.isFirst && r.sink.calls == sink0.calls + 1
    ensures r.err.None? <==> outcome(sink0.calls).Accept?
    ensures r.err.None? ==> r.sink.written == sink0.written + SplitSkeleton(doc).prefix
  {
    var (sink, err) := Put(sink0, outcome, SplitSkeleton(doc).prefix);
    WriterState(sink, err, true)
  }

  /**
   * One iteration of `run`'s loop on event `ev`. With an error latched
   * nothing happens. Otherwise a comma goes out first unless this is the first
   * event (its write error is ignored), then the event's encoding; an encoding
   * or write failure is latched.
   */
  function Step(s: WriterState, outcome: nat -> WriteOutcome, enc: Event -> Result<Bytes, Err>, ev: Event): (r: WriterState)
    ensures s.sink.written <= r.sink.written && s.sink.calls <= r.sink.calls
    ensures s.err.Some? ==> r == s
    ensures s.err.None? ==> !r.isFirst
    ensures s.err.None? && enc(ev).Failure? ==> r.err == Some(enc(ev).error)
    ensures s.err.None? && enc(ev).Success? ==> r.err == ErrorOf(outcome(s.sink.calls + (if s.isFirst then 0 else 1)))
  {
    if s.err.Some? then s
    else
      var afterComma := if s.isFirst then s.sink else Put(s.sink, outcome, [Comma]).0;
      match enc(ev)
      case Failure(e) => WriterState(afterComma, Some(e), false)
      case Success(data) =>
        var (sink, err) := Put(afterComma, outcome, data);
        WriterState(sink, err, false)
  }

  /** `run`'s loop over the events `evs`, taken off the queue in order. */
  function Feed(s: WriterState, outcome: nat -> WriteOutcome, enc: Event -> Result<Bytes, Err>, evs: seq<Event>): (r: WriterState)
    ensures s.sink.written <= r.sink.written && s.sink.calls <= r.sink.calls
    ensures s.err.Some? ==> r == s
    decreases |evs|
  {
    if evs == [] then s else Feed(Step(s, outcome, enc, evs[0]), outcome, enc, evs[1..])
  }

  /** The whole of `run`: the prefix write, then the loop over every event the queue delivered. */
  function Run(sink0: SinkState, outcome: nat -> WriteOutcome, enc: Event -> Result<Bytes, Err>, doc: Bytes, evs: seq<Event>): (r: WriterState)
    requires |doc| >= SuffixLength
    ensures sink0.written <= r.sink.written
    ensures r.err.None? ==> outcome(sink0.calls).Accept? && sink0.written + SplitSkeleton(doc).prefix <= r.sink.written
    ensures outcome(sink0.calls).Fail? ==> r == Start(sink0, outcome, doc)
  {
    Feed(Start(sink0, outcome, doc), outcome, enc, evs)
  }

  /** What `Export` leaves behind: the sink, whether `Close` was called, and what it returns. */
  datatype Final = Final(sink: SinkState, closed: bool, ret: Option<Err>)

  /**
   * `Export` after the writer has drained the queue: a latched error is
   * returned as is; otherwise the suffix is written, and `Close` is called only
   * if that write succeeded.
   */
  function Finish(s: WriterState, outcome: nat -> WriteOutcome, closeOutcome: Option<Err>, suffix: Bytes): (r: Final)
    ensures s.err.Some? ==> r == Final(s.sink, false, s.err)
    ensures r.closed ==> s.err.None? && r.sink.written == s.sink.written + suffix && r.ret == closeOutcome
    ensures r.ret.None? ==> r.closed
    ensures s.err.None? && !r.closed ==> outcome(s.sink.calls).Fail? && r.ret == Some(outcome(s.sink.calls).err)
  {
    if s.err.Some? then Final(s.sink, false, s.err)
    else
      var (sink, err) := Put(s.sink, outcome, suffix);
      if err.Some? then Final(sink, false, err) else Final(sink, true, closeOutcome)
  }

  /** The whole life of a tracer that recorded `evs` and was then exported. */
  function Outcome(sink0: SinkState, outcome: nat -> WriteOutcome, enc: Event -> Result<Bytes, Err>, doc: Bytes,
                   evs: seq<Event>, closeOutcome: Option<Err>): (r: Final)
    requires |doc| >= SuffixLength
    ensures r.ret.None? ==> r.closed
    ensures r.closed ==> r.ret == closeOutcome && sink0.written + SplitSkeleton(doc).prefix <= r.sink.written
    ensures r.closed ==> |r.sink.written| >= SuffixLength && r.sink.written[|r.sink.written| - SuffixLength..] == SplitSkeleton(doc).suffix
  {
    Finish(Run(sink0, outcome, enc, doc, evs), outcome, closeOutcome, SplitSkeleton(doc).suffix)
  }

  /** The events array body: the parts separated by single commas. */
  function Join(parts: seq<Bytes>): Bytes
  {
    if |parts| == 0 then []
    else if |parts| == 1 then parts[0]
    else parts[0] + [Comma] + Join(parts[1..])
  }

  /** Every part preceded by a comma: what the loop writes once the first event is out. */
  function Separated(parts: seq<Bytes>): Bytes
  {
    if parts == [] then [] else [Comma] + parts[0] + Separated(parts[1..])
  }

  /** The sink never fails a write. */
  ghost predicate Reliable(outcome: nat -> WriteOutcome)
  {
    forall i :: outcome(i).Accept?
  }

  /** Every event encodes. */
  ghost predicate AllEncode(enc: Event -> Result<Bytes, Err>, evs: seq<Event>)
  {
    forall i :: 0 <= i < |evs| ==> enc(evs[i]).Success?
  }

  /** The encodings of `evs`, in order. */
  function Encodings(enc: Event -> Result<Bytes, Err>, evs: seq<Event>): (r: seq<Bytes>)
    requires AllEncode(enc, evs)
    ensures |r| == |evs|
    ensures forall i :: 0 <= i < |evs| ==> r[i] == enc(evs[i]).value
  {
    seq(|evs|, i requires 0 <= i < |evs| => enc(evs[i]).value)
  }

  /** A joined list is its first part followed by the others, each after a comma. */
  lemma {:induction false} JoinIsFirstThenSeparated(parts: seq<Bytes>)
    requires parts != []
    ensures Join(parts) == parts[0] + Separated(parts[1..])
  {
    if |parts| == 1 {
      assert parts[1..] == [];
    } else {
      var rest := parts[1..];
      JoinIsFirstThenSeparated(rest);
      assert rest[1..] == parts[2..];
      calc {
        Join(parts);
        parts[0] + [Comma] + Join(rest);
        parts[0] + [Comma] + (rest[0] + Separated(rest[1..]));
        parts[0] + ([Comma] + rest[0] + Separated(rest[1..]));
        parts[0] + Separated(rest);
      }
    }
  }

  /** Splitting the events in two splits the loop in two. */
  lemma {:induction false} FeedAppend(s: WriterState, outcome: nat -> WriteOutcome, enc: Event -> Result<Bytes, Err>,
                                      a: seq<Event>, b: seq<Event>)
    ensures Feed(s, outcome, enc, a + b) == Feed(Feed(s, outcome, enc, a), outcome, enc, b)
    decreases |a|
  {
    if a == [] {
      assert a + b == b;
    } else {
      assert (a + b)[0] == a[0];
      assert (a + b)[1..] == a[1..] + b;
      FeedAppend(Step(s, outcome, enc, a[0]), outcome, enc, a[1..], b);
    }
  }

  /** Taking one more event off the queue is one more step of the loop. */
  lemma FeedSnoc(s: WriterState, outcome: nat -> WriteOutcome, enc: Event -> Result<Bytes, Err>, evs: seq<Event>, ev: Event)
    ensures Feed(s, outcome, enc, evs + [ev]) == Step(Feed(s, outcome, enc, evs), outcome, enc, ev)
  {
    FeedAppend(s, outcome, enc, evs, [ev]);
    var t := Feed(s, outcome, enc, evs);
    assert [ev][1..] == [];
    assert Feed(t, outcome, enc, [ev]) == Feed(Step(t, outcome, enc, ev), outcome, enc, []);
  }

  /** What the loop appends for `parts`: joined if the first event is still to come, else each after a comma. */
  function Body(isFirst: bool, parts: seq<Bytes>): Bytes
  {
    if isFirst then Join(parts) else Separated(parts)
  }

  /** The appended body is the first part, after a comma unless it is the first event, then the rest after commas. */
  lemma BodyFirst(isFirst: bool, parts: seq<Bytes>)
    requires parts != []
    ensures Body(isFirst, parts) == (if isFirst then [] else [Comma]) + parts[0] + Separated(parts[1..])
  {
    if isFirst {
      JoinIsFirstThenSeparated(parts);
    }
  }

  /** Concatenation is associative; stated once so that FaultFreeFeed's proof stays cheap for the solver. */
  lemma ConcatAssoc(a: Bytes, b: Bytes, c: Bytes)
    ensures a + b + c == a + (b + c)
  {
  }

  /** The encodings of all events but the first are all encodings but the first. */
  lemma EncodingsTail(enc: Event -> Result<Bytes, Err>, evs: seq<Event>)
    requires evs != [] && AllEncode(enc, evs)
    ensures AllEncode(enc, evs[1..]) && Encodings(enc, evs[1..]) == Encodings(enc, evs)[1..]
  {
    var rest := evs[1..];
    assert AllEncode(enc, rest) by {
      forall i | 0 <= i < |rest| ensures enc(rest[i]).Success? { assert rest[i] == evs[i + 1]; }
    }
  }

  /** One fault-free step appends the event's encoding, after a comma unless it is the first event. */
  lemma FaultFreeStep(s: WriterState, outcome: nat -> WriteOutcome, enc: Event -> Result<Bytes, Err>, ev: Event)
    requires s.err.None? && Reliable(outcome) && enc(ev).Success?
    ensures Step(s, outcome, enc, ev).err.None? && !Step(s, outcome, enc, ev).isFirst
    ensures Step(s, outcome, enc, ev).sink.written
         == s.sink.written + (if s.isFirst then [] else [Comma]) + enc(ev).value
  {
  }

  /**
   * With a sink that never fails and events that all encode, the loop appends
   * exactly the encodings in queue order, separated by single commas, with no
   * comma before the first event of the document or after the last.
   */
  lemma {:induction false} FaultFreeFeed(s: WriterState, outcome: nat -> WriteOutcome, enc: Event -> Result<Bytes, Err>, evs: seq<Event>)
    requires s.err.None? && Reliable(outcome) && AllEncode(enc, evs)
    ensures Feed(s, outcome, enc, evs).err.None?
    ensures Feed(s, outcome, enc, evs).isFirst == (s.isFirst && evs == [])
    ensures Feed(s, outcome, enc, evs).sink.written == s.sink.written + Body(s.isFirst, Encodings(enc, evs))
    decreases |evs|
  {
    if evs != [] {
      var parts := Encodings(enc, evs);
      EncodingsTail(enc, evs);
      var lead: Bytes := if s.isFirst then [] else [Comma];
      var s1 := Step(s, outcome, enc, evs[0]);
      FaultFreeStep(s, outcome, enc, evs[0]);
      assert s1.sink.written == s.sink.written + lead + parts[0];
      var r := Feed(s1, outcome, enc, evs[1..]);
      assert Feed(s, outcome, enc, evs) == r;
      FaultFreeFeed(s1, outcome, enc, evs[1..]);
      assert r.sink.written == s1.sink.written + Separated(parts[1..]);
      BodyFirst(s.isFirst, parts);
      ConcatAssoc(s.sink.written, lead, parts[0]);
      ConcatAssoc(s.sink.written, lead + parts[0], Separated(parts[1..]));
    }
  }

  /**
   * The document property: with no sink or encoding failure, after `Export`
   * the sink holds the skeleton's prefix, the events' encodings in queue order
   * joined by commas, then the skeleton's suffix; the sink was closed and
   * `Export` returns what `Close` returned.
   */
  lemma CompleteDocument(sink0: SinkState, outcome: nat -> WriteOutcome, enc: Event -> Result<Bytes, Err>, doc: Bytes,
                         evs: seq<Event>, closeOutcome: Option<Err>)
    requires |doc| >= SuffixLength && Reliable(outcome) && AllEncode(enc, evs)
    ensures Outcome(sink0, outcome, enc, doc, evs, closeOutcome)
         == Final(Outcome(sink0, outcome, enc, doc, evs, closeOutcome).sink, true, closeOutcome)
    ensures Outcome(sink0, outcome, enc, doc, evs, closeOutcome).sink.written
         == sink0.written + SplitSkeleton(doc).prefix + Join(Encodings(enc, evs)) + SplitSkeleton(doc).suffix
  {
    var s := Start(sink0, outcome, doc);
    assert outcome(sink0.calls).Accept?;
    FaultFreeFeed(s, outcome, enc, evs);
    var r := Feed(s, outcome, enc, evs);
    assert outcome(r.sink.calls).Accept?;
  }

  /** Exporting a tracer that recorded nothing leaves exactly the encoded skeleton in the sink, closed. */
  lemma EmptyTraceIsSkeleton(sink0: SinkState, outcome: nat -> WriteOutcome, enc: Event -> Result<Bytes, Err>, doc: Bytes,
                             closeOutcome: Option<Err>)
    requires |doc| >= SuffixLength && Reliable(outcome)
    ensures Outcome(sink0, outcome, enc, doc, [], closeOutcome) == Final(SinkState(sink0.written + doc, sink0.calls + 2), true, closeOutcome)
  {
    CompleteDocument(sink0, outcome, enc, doc, [], closeOutcome);
    ConcatAssoc(sink0.written, SplitSkeleton(doc).prefix, SplitSkeleton(doc).suffix);
  }

  /**
   * First error wins: once the loop latches an error on event `ev`, the rest
   * of the queue is consumed without writing anything, and the error is never
   * replaced.
   */
  lemma FailureContained(s: WriterState, outcome: nat -> WriteOutcome, enc: Event -> Result<Bytes, Err>,
                         done: seq<Event>, ev: Event, rest: seq<Event>)
    requires Feed(s, outcome, enc, done).err.None?
    requires Step(Feed(s, outcome, enc, done), outcome, enc, ev).err.Some?
    ensures Feed(s, outcome, enc, done + [ev] + rest) == Step(Feed(s, outcome, enc, done), outcome, enc, ev)
  {
    FeedAppend(s, outcome, enc, done + [ev], rest);
    FeedSnoc(s, outcome, enc, done, ev);
  }

  /**
   * If the sink fails while event `ev` is being written (or `ev` does not
   * encode), `Export` returns that failure, does not write the suffix, does
   * not close the sink, and the sink holds exactly what it held right after
   * the failure, whatever events followed.
   */
  lemma ExportReportsFirstFailure(sink0: SinkState, outcome: nat -> WriteOutcome, enc: Event -> Result<Bytes, Err>, doc: Bytes,
                                  done: seq<Event>, ev: Event, rest: seq<Event>, closeOutcome: Option<Err>)
    requires |doc| >= SuffixLength
    requires Run(sink0, outcome, enc, doc, done).err.None?
    requires Step(Run(sink0, outcome, enc, doc, done), outcome, enc, ev).err.Some?
    ensures var failed := Step(Run(sink0, outcome, enc, doc, done), outcome, enc, ev);
      Outcome(sink0, outcome, enc, doc, done + [ev] + rest, closeOutcome) == Final(failed.sink, false, failed.err)
  {
    FailureContained(Start(sink0, outcome, doc), outcome, enc, done, ev, rest);
  }

  /**
   * A failed prefix write is latched before the loop starts: no comma and no
   * event byte ever reaches the sink, and `Export` returns that write's error.
   */
  lemma PrefixFailureStopsOutput(sink0: SinkState, outcome: nat -> WriteOutcome, enc: Event -> Result<Bytes, Err>, doc: Bytes,
                                 evs: seq<Event>, closeOutcome: Option<Err>)
    requires |doc| >= SuffixLength && outcome(sink0.calls).Fail?
    ensures Outcome(sink0, outcome, enc, doc, evs, closeOutcome)
         == Final(SinkState(sink0.written + Accepted(outcome(sink0.calls), SplitSkeleton(doc).prefix), sink0.calls + 1),
                  false, Some(outcome(sink0.calls).err))
  {
  }

  /**
   * The comma write's result is ignored: if it fails without taking the comma
   * and the event's own write succeeds, nothing is latched although the two
   * encodings now stand side by side with no separator.
   */
  lemma CommaFailureNotLatched(s: WriterState, outcome: nat -> WriteOutcome, enc: Event -> Result<Bytes, Err>, ev: Event)
    requires s.err.None? && !s.isFirst && enc(ev).Success?
    requires outcome(s.sink.calls).Fail? && outcome(s.sink.calls).taken == 0 && outcome(s.sink.calls + 1).Accept?
    ensures Step(s, outcome, enc, ev) == WriterState(SinkState(s.sink.written + enc(ev).value, s.sink.calls + 2), None, false)
  {
  }
}
