/** The server side of the SMTP stream: `StreamStorage`, a registry from a
    stream id to the task that serves the stream, and the task's loop, which
    reads the decoded inbound messages and writes to the outbound stream's
    continuation.

    The outbound `AsyncStream` is a record of what was yielded and whether it
    was finished. ASSUMPTION (AsyncStream's documented behaviour, not code of
    this repository): a yield after `finish()` is ignored, and a second
    `finish()` does nothing. */
module StreamServer {
  import opened Mail

  type StreamId = string

  /** The identity of a `Task` object. */
  type TaskRef = nat

  /** `Components.Schemas.SMTPServerStreamInput`'s `input` payload. */
  datatype InputPayload =
    | SimpleSMTPEmail(email: Email)
    | SMTPLogin(username: string, password: string)
    | SMTPLogout
    | StreamKeepAlive(keepAlive: bool)

  /** One line of the request body: a decoded message, or a line the JSON
      decoder rejects (the inbound sequence then throws). */
  datatype Line = Decoded(message: InputPayload) | Undecodable

  /** The write end of the outbound stream, as the consumer sees it. */
  datatype Continuation = Continuation(yielded: seq<InputPayload>, finished: bool)

  /** A continuation nothing has been written to. */
  const Opened: Continuation := Continuation([], false)

  /** `continuation.yield(m)`: ignored once the stream is finished. */
  function Yield(c: Continuation, m: InputPayload): Continuation {
    if c.finished then c else c.(yielded := c.yielded + [m])
  }

  /** `continuation.finish()`. */
  function Finish(c: Continuation): Continuation {
    c.(finished := true)
  }

  /** The `switch` over one inbound message. */
  function Dispatch(c: Continuation, m: InputPayload): (r: Continuation)
    // a keep-alive(true) is echoed as one keep-alive(true), unless the stream is finished
    ensures m == StreamKeepAlive(true) && !c.finished ==> r.yielded == c.yielded + [StreamKeepAlive(true)]
    // nothing else is ever written
    ensures m != StreamKeepAlive(true) || c.finished ==> r.yielded == c.yielded
    // keep-alive(false) finishes the stream, and a finished stream stays finished
    ensures r.finished <==> c.finished || m == StreamKeepAlive(false)
  {
    match m
    case SimpleSMTPEmail(_) => c
    case SMTPLogin(_, _) => c
    case SMTPLogout => c
    case StreamKeepAlive(keepAlive) =>
      if keepAlive then Yield(c, StreamKeepAlive(true)) else Finish(c)
  }

  /** `Dispatch` applied to each message in turn. */
  function DispatchAll(c: Continuation, ms: seq<InputPayload>): Continuation
    decreases |ms|
  {
    if ms == [] then c
    else Dispatch(DispatchAll(c, ms[..|ms| - 1]), ms[|ms| - 1])
  }

  /** Reference definitions for the loop's output: how many keep-alive(true)
      messages there are, where the first keep-alive(false) is, and a run of
      `n` echoes. */
  function KeepAliveCount(ms: seq<InputPayload>): nat
    decreases |ms|
  {
    if ms == [] then 0
    else KeepAliveCount(ms[..|ms| - 1]) + (if ms[|ms| - 1] == StreamKeepAlive(true) then 1 else 0)
  }

  function FirstFinish(ms: seq<InputPayload>): (k: nat)
    ensures k <= |ms|
    ensures k < |ms| ==> ms[k] == StreamKeepAlive(false)
    ensures forall i :: 0 <= i < k ==> ms[i] != StreamKeepAlive(false)
    decreases |ms|
  {
    if ms == [] then 0
    else if FirstFinish(ms[..|ms| - 1]) < |ms| - 1 then FirstFinish(ms[..|ms| - 1])
    else if ms[|ms| - 1] == StreamKeepAlive(false) then |ms| - 1
    else |ms|
  }

  function Echoes(n: nat): (r: seq<InputPayload>)
    ensures |r| == n
    ensures forall i :: 0 <= i < n ==> r[i] == StreamKeepAlive(true)
  {
    seq(n, _ => StreamKeepAlive(true))
  }

  /** How the task ended: input exhausted, `Task.checkCancellation()` threw,
      or the inbound sequence threw on an undecodable line. */
  datatype TaskEnd = Completed | CancellationError | DecodingError

  /** What one run of the task did: the outbound stream it left, how it
      ended, and how many messages it dispatched. */
  datatype TaskRun = TaskRun(output: Continuation, end: TaskEnd, dispatched: nat)

  /** The task is cancelled before message `i` is dispatched when
      `cancelAt == Some(k)` with `k <= i`: cancellation is never undone. */
  predicate CancelledBy(cancelAt: Option<nat>, i: nat) {
    cancelAt.Some? && cancelAt.value <= i
  }

  predicate AllDecoded(lines: seq<Line>) {
    forall i :: 0 <= i < |lines| ==> lines[i].Decoded?
  }

  function Payloads(lines: seq<Line>): (ps: seq<InputPayload>)
    requires AllDecoded(lines)
    ensures |ps| == |lines|
    ensures forall i :: 0 <= i < |lines| ==> ps[i] == lines[i].message
    decreases |lines|
  {
    if lines == [] then [] else Payloads(lines[..|lines| - 1]) + [lines[|lines| - 1].message]
  }

  /** The index, from `i` on, at which the loop stops early, or `|lines|` if
      it reaches the end of the input. */
  function StopFrom(lines: seq<Line>, cancelAt: Option<nat>, i: nat): (k: nat)
    requires i <= |lines|
    ensures i <= k <= |lines|
    ensures forall j :: i <= j < k ==> lines[j].Decoded? && !CancelledBy(cancelAt, j)
    ensures k < |lines| ==> lines[k].Undecodable? || CancelledBy(cancelAt, k)
    decreases |lines| - i
  {
    if i == |lines| || lines[i].Undecodable? || CancelledBy(cancelAt, i) then i
    else StopFrom(lines, cancelAt, i + 1)
  }

  /** What the task started by `makeStream` does with the inbound `lines`. */
  function TaskSpec(lines: seq<Line>, cancelAt: Option<nat>): TaskRun {
    var k := StopFrom(lines, cancelAt, 0);
    assert AllDecoded(lines[..k]);
    var c := DispatchAll(Opened, Payloads(lines[..k]));
    if k == |lines| then TaskRun(Finish(c), Completed, k)
    else if lines[k].Undecodable? then TaskRun(c, DecodingError, k)
    else TaskRun(c, CancellationError, k)
  }

  /** The body of the task: `for try await message in inputStream`, a
      cancellation check, the `switch`, and `continuation.finish()` when the
      input ends. */
  method RunStreamTask(lines: seq<Line>, cancelAt: Option<nat>)
    returns (output: Continuation, end: TaskEnd, dispatched: nat)
    ensures TaskRun(output, end, dispatched) == TaskSpec(lines, cancelAt)
  {
    output := Opened;
    var i := 0;
    while i < |lines|
      invariant i <= |lines|
      invariant StopFrom(lines, cancelAt, i) == StopFrom(lines, cancelAt, 0)
      invariant AllDecoded(lines[..i])
      invariant output == DispatchAll(Opened, Payloads(lines[..i]))
    {
      if lines[i].Undecodable? {
        return output, DecodingError, i;
      }
      if CancelledBy(cancelAt, i) {
        return output, CancellationError, i;
      }
      assert lines[..i + 1][..i] == lines[..i];
      output := Dispatch(output, lines[i].message);
      i := i + 1;
    }
    assert lines[..i] == lines;
    output := Finish(output);
    return output, Completed, i;
  }

  /** How the outbound stream terminated (`@unknown default` is `Other`). */
  datatype Termination = Cancelled | Finished | Other

  /** The registry's state: the `streams` dictionary, and the tasks on which
      `cancel()` has been called, in order. */
  datatype Registry = Registry(streams: map<StreamId, TaskRef>, cancelled: seq<TaskRef>)

  /** `self.streams[id] = task` in `makeStream`. */
  function AfterMake(r: Registry, id: StreamId, task: TaskRef): Registry {
    r.(streams := r.streams[id := task])
  }

  /** `finishedStream(id:)`: a removal guarded by presence. */
  function AfterFinished(r: Registry, id: StreamId): Registry {
    if id !in r.streams then r else r.(streams := r.streams - {id})
  }

  /** `cancelStream(id:)`: remove the entry, then cancel its task. */
  function AfterCancel(r: Registry, id: StreamId): Registry {
    if id !in r.streams then r
    else Registry(r.streams - {id}, r.cancelled + [r.streams[id]])
  }

  /** The `onTermination` handler installed by `makeStream`. */
  function AfterTermination(r: Registry, id: StreamId, kind: Termination): Registry {
    match kind
    case Cancelled => AfterCancel(r, id)
    case Finished => AfterFinished(r, id)
    case Other => AfterFinished(r, id)
  }

  /** The actor. `cancelled` records the calls to `Task.cancel()`. */
  class StreamStorage {
    var streams: map<StreamId, TaskRef>
    ghost var cancelled: seq<TaskRef>

    ghost function Contents(): Registry
      reads this
    {
      Registry(streams, cancelled)
    }

    constructor ()
      ensures Contents() == Registry(map[], [])
    {
      streams := map[];
      cancelled := [];
    }

    method FinishedStream(id: StreamId)
      modifies this
      ensures Contents() == AfterFinished(old(Contents()), id)
    {
      if id !in streams {
        return;
      }
      streams := streams - {id};
    }

    method CancelStream(id: StreamId)
      modifies this
      ensures Contents() == AfterCancel(old(Contents()), id)
    {
      if id !in streams {
        return;
      }
      var task := streams[id];
      streams := streams - {id};
      cancelled := cancelled + [task];
    }

    /** The registration part of `makeStream`: `id` is the fresh UUID string
        and `task` the task just started for the stream (its body is
        `RunStreamTask`). */
    method MakeStream(id: StreamId, task: TaskRef)
      modifies this
      ensures Contents() == AfterMake(old(Contents()), id, task)
    {
      streams := streams[id := task];
    }

    /** The `onTermination` closure, run for stream `id`. */
    method OnTermination(id: StreamId, kind: Termination)
      modifies this
      ensures Contents() == AfterTermination(old(Contents()), id, kind)
    {
      match kind
      case Cancelled => CancelStream(id);
      case Finished => FinishedStream(id);
      case Other => FinishedStream(id);
    }
  }
}
