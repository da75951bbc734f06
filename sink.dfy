/**
 * The byte sink the tracer writes to (Go's `io.WriteCloser`). The device
 * behind it is outside the model; what it does on each call is given as a
 * script: the outcome of the i-th `Write` call and the result of `Close`.
 */
module Output {
  import opened Wrappers
  import opened QlogTypes

  /**
   * What one `Write` call does: accept all the data, or fail after having
   * taken only some of it (`io.Writer` may report fewer bytes together with an
   * error).
   */
  datatype WriteOutcome = Accept | Fail(taken: nat, err: Err)

  /** What the sink has received so far and how many `Write` calls it has seen. */
  datatype SinkState = SinkState(written: Bytes, calls: nat)

  /** The part of `data` a write with outcome `o` delivers. */
  function Accepted(o: WriteOutcome, data: Bytes): (r: Bytes)
    ensures r <= data
    ensures o.Accept? ==> r == data
    ensures o.Fail? ==> |r| == if o.taken < |data| then o.taken else |data|
  {
    match o
    case Accept => data
    case Fail(n, _) => if n < |data| then data[..n] else data
  }

  /** The error a write with outcome `o` returns. */
  function ErrorOf(o: WriteOutcome): (e: Option<Err>)
    ensures e.None? <==> o.Accept?
  {
    match o
    case Accept => None
    case Fail(_, err) => Some(err)
  }

  /**
   * One `Write(data)` call on a sink in state `s` whose i-th call has outcome
   * `outcome(i)`: the new state and the returned error. The bytes already
   * written are never touched.
   */
  function Put(s: SinkState, outcome: nat -> WriteOutcome, data: Bytes): (r: (SinkState, Option<Err>))
    ensures r.0.calls == s.calls + 1
    ensures s.written <= r.0.written
    ensures r.1.None? ==> r.0.written == s.written + data
    ensures r.1.Some? ==> |r.0.written| <= |s.written| + |data|
  {
    var o := outcome(s.calls);
    (SinkState(s.written + Accepted(o, data), s.calls + 1), ErrorOf(o))
  }

  /** The writer/closer handed to the tracer. */
  class Sink {
    var written: Bytes
    var calls: nat
    var closed: bool
    const outcome: nat -> WriteOutcome
    const closeOutcome: Option<Err>

    function State(): SinkState
      reads this
    {
      SinkState(written, calls)
    }

    constructor (outcome: nat -> WriteOutcome, closeOutcome: Option<Err>)
      ensures State() == SinkState([], 0) && !closed
      ensures this.outcome == outcome && this.closeOutcome == closeOutcome
    {
      written, calls, closed := [], 0, false;
      this.outcome, this.closeOutcome := outcome, closeOutcome;
    }

    /** `Write`: returns how many bytes were taken and the error, if any. */
    method Write(data: Bytes) returns (n: nat, err: Option<Err>)
      modifies this
      ensures (State(), err) == Put(old(State()), outcome, data)
      ensures n == |written| - |old(written)|
      ensures closed == old(closed)
    {
      var o := outcome(calls);
      var taken := Accepted(o, data);
      written, calls := written + taken, calls + 1;
      n, err := |taken|, ErrorOf(o);
    }

    /** `Close`: marks the sink closed and returns the device's close result. */
    method Close() returns (err: Option<Err>)
      modifies this
      ensures closed && err == closeOutcome && State() == old(State())
    {
      closed := true;
      err := closeOutcome;
    }
  }
}
