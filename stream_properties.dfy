/** Properties of the stream task's dispatch loop and of the `StreamStorage`
    registry, stated on the value model in `StreamServer`. */
module StreamProperties {
  import opened Mail
  import opened StreamServer

  /** Once finished, the outbound stream ignores every further message. */
  lemma {:induction false} FinishedIsFinal(c: Continuation, ms: seq<InputPayload>)
    requires c.finished
    ensures DispatchAll(c, ms) == c
    decreases |ms|
  {
    if ms != [] {
      FinishedIsFinal(c, ms[..|ms| - 1]);
    }
  }

  /** The loop's output, stated independently of the loop: from an open
      stream, one keep-alive(true) is echoed for each keep-alive(true) before
      the first keep-alive(false), nothing else is written, and the stream is
      finished exactly when a keep-alive(false) was seen. */
  lemma {:induction false} DispatchAllEchoes(y: seq<InputPayload>, ms: seq<InputPayload>)
    ensures DispatchAll(Continuation(y, false), ms)
         == Continuation(y + Echoes(KeepAliveCount(ms[..FirstFinish(ms)])), FirstFinish(ms) < |ms|)
    decreases |ms|
  {
    if ms == [] {
      assert y + Echoes(0) == y;
    } else {
      var init, m := ms[..|ms| - 1], ms[|ms| - 1];
      assert ms[..|ms| - 1] == init;
      DispatchAllEchoes(y, init);
      var j := FirstFinish(init);
      var c := DispatchAll(Continuation(y, false), init);
      if j < |init| {
        assert ms[..j] == init[..j];
      } else if m == StreamKeepAlive(false) {
        assert ms[..j] == init == init[..j];
      } else {
        assert init[..j] == init;
        assert ms[..|ms|] == ms;
        var n := KeepAliveCount(init);
        if m == StreamKeepAlive(true) {
          assert y + Echoes(n) + [StreamKeepAlive(true)] == y + Echoes(n + 1);
        }
      }
    }
  }

  /** Every message decodes and the task is never cancelled: the loop
      consumes all of the input, even past a keep-alive(false) (its `break`
      leaves only the `switch`), and finishes the stream when the input ends. */
  lemma RunToEndOfInput(lines: seq<Line>)
    requires AllDecoded(lines)
    ensures var ps := Payloads(lines);
      TaskSpec(lines, None)
      == TaskRun(Continuation(Echoes(KeepAliveCount(ps[..FirstFinish(ps)])), true), Completed, |lines|)
  {
    var k := StopFrom(lines, None, 0);
    assert k == |lines|;
    assert lines[..k] == lines;
    DispatchAllEchoes([], Payloads(lines));
  }

  /** Once the task is cancelled no further message is dispatched; on input
      that decodes, cancellation before the end stops the loop exactly there,
      and the output is what the first `k` messages produced (the final
      `finish()` is skipped). */
  lemma CancellationStopsDispatch(lines: seq<Line>, k: nat)
    ensures TaskSpec(lines, Some(k)).dispatched <= k
    ensures AllDecoded(lines) && k < |lines| ==>
              TaskSpec(lines, Some(k)).end == CancellationError && TaskSpec(lines, Some(k)).dispatched == k
    ensures AllDecoded(lines) && k < |lines| ==>
              AllDecoded(lines[..k]) && TaskSpec(lines, Some(k)).output == DispatchAll(Opened, Payloads(lines[..k]))
  {
  }

  /** An undecodable line ends the task with the decoder's error: the lines
      after it are never dispatched, and the output is only what the lines
      before it produced (the final `finish()` is skipped). */
  lemma UndecodableLineEndsTask(lines: seq<Line>, j: nat, cancelAt: Option<nat>)
    requires j < |lines| && lines[j].Undecodable?
    requires AllDecoded(lines[..j])
    requires !CancelledBy(cancelAt, j)
    ensures TaskSpec(lines, cancelAt).end == DecodingError
    ensures TaskSpec(lines, cancelAt).dispatched == j
    ensures TaskSpec(lines, cancelAt).output == DispatchAll(Opened, Payloads(lines[..j]))
  {
  }

  /** `makeStream` with a fresh id adds exactly that key, mapped to the new
      task, and leaves every other entry and the cancellations alone. */
  lemma MakeAddsOneEntry(r: Registry, id: StreamId, task: TaskRef)
    requires id !in r.streams
    ensures var r' := AfterMake(r, id, task);
      && r'.streams.Keys == r.streams.Keys + {id}
      && |r'.streams| == |r.streams| + 1
      && r'.streams[id] == task
      && (forall other :: other in r.streams ==> r'.streams[other] == r.streams[other])
      && r'.cancelled == r.cancelled
  {
  }

  /** Both removals take `id` out of the registry and touch no other entry;
      `finishedStream` cancels nothing, and `cancelStream` cancels exactly
      the removed task, or nothing when `id` is absent. */
  lemma RemovalsRemoveOnlyId(r: Registry, id: StreamId)
    ensures id !in AfterFinished(r, id).streams && id !in AfterCancel(r, id).streams
    ensures forall other :: other != id ==>
              && (other in AfterFinished(r, id).streams <==> other in r.streams)
              && (other in AfterCancel(r, id).streams <==> other in r.streams)
    ensures forall other :: other != id && other in r.streams ==>
              AfterFinished(r, id).streams[other] == r.streams[other] == AfterCancel(r, id).streams[other]
    ensures AfterFinished(r, id).cancelled == r.cancelled
    ensures AfterCancel(r, id).cancelled == r.cancelled + (if id in r.streams then [r.streams[id]] else [])
  {
  }

  /** A repeated removal does nothing. */
  lemma RemovalsAreIdempotent(r: Registry, id: StreamId)
    ensures AfterFinished(AfterFinished(r, id), id) == AfterFinished(r, id)
    ensures AfterCancel(AfterCancel(r, id), id) == AfterCancel(r, id)
  {
  }

  /** After `finishedStream(id)`, `cancelStream(id)` is a no-op: the stream's
      task is never cancelled. */
  lemma CancelAfterFinishIsNoop(r: Registry, id: StreamId)
    ensures AfterCancel(AfterFinished(r, id), id) == AfterFinished(r, id)
    ensures AfterCancel(AfterFinished(r, id), id).cancelled == r.cancelled
  {
  }

  /** The termination handler: `.cancelled` cancels, `.finished` and any
      other kind finish. */
  lemma TerminationMapping(r: Registry, id: StreamId, kind: Termination)
    ensures kind == Cancelled ==> AfterTermination(r, id, kind) == AfterCancel(r, id)
    ensures kind != Cancelled ==> AfterTermination(r, id, kind) == AfterFinished(r, id)
  {
  }

  /** Something that happens to the registry. */
  datatype Event = Make(id: StreamId, task: TaskRef) | Terminate(id: StreamId, kind: Termination)

  function Apply(r: Registry, e: Event): Registry {
    match e
    case Make(id, task) => AfterMake(r, id, task)
    case Terminate(id, kind) => AfterTermination(r, id, kind)
  }

  function Run(r: Registry, events: seq<Event>): Registry
    decreases |events|
  {
    if events == [] then r else Run(Apply(r, events[0]), events[1..])
  }

  predicate NoDuplicates(s: seq<TaskRef>) {
    forall i, j :: 0 <= i < j < |s| ==> s[i] != s[j]
  }

  /** No task has been cancelled twice, no registered task has been
      cancelled, and no task serves two streams. */
  predicate Consistent(r: Registry) {
    && NoDuplicates(r.cancelled)
    && (forall id :: id in r.streams ==> r.streams[id] !in r.cancelled)
    && (forall a, b :: a in r.streams && b in r.streams && a != b ==> r.streams[a] != r.streams[b])
  }

  /** A task handed to `makeStream` is a new one: neither registered nor cancelled. */
  predicate NewTask(r: Registry, task: TaskRef) {
    task !in r.streams.Values && task !in r.cancelled
  }

  predicate NewTasks(r: Registry, events: seq<Event>)
    decreases |events|
  {
    events == [] ||
    ((events[0].Make? ==> NewTask(r, events[0].task)) && NewTasks(Apply(r, events[0]), events[1..]))
  }

  /** Each event keeps the registry consistent. */
  lemma ApplyKeepsConsistent(r: Registry, e: Event)
    requires Consistent(r)
    requires e.Make? ==> NewTask(r, e.task)
    ensures Consistent(Apply(r, e))
  {
  }

  /** However streams are made and terminated, each task is cancelled at most
      once: `cancelStream` never cancels a task twice, and a cancellation
      racing with a completion of the same stream cancels nothing extra. */
  lemma {:induction false} CancelledAtMostOnce(r: Registry, events: seq<Event>)
    requires Consistent(r)
    requires NewTasks(r, events)
    ensures NoDuplicates(Run(r, events).cancelled)
    decreases |events|
  {
    if events != [] {
      ApplyKeepsConsistent(r, events[0]);
      CancelledAtMostOnce(Apply(r, events[0]), events[1..]);
    }
  }
}
