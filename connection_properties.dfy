/** Properties of the `SMTPConnection` state machine, stated on the value
    model `Connection.Perform` that the actor's methods are proved to follow. */
module ConnectionProperties {
  import opened Mail
  import opened Connection

  /** The flags of a connection with no command in flight and no session. */
  predicate Idle(s: ConnectionState) {
    !s.isRunningCommand && !s.isConnected && !s.isLoggedIn
  }

  /** A logged-in connection is a connected one. */
  predicate LoggedInImpliesConnected(s: ConnectionState) {
    s.isLoggedIn ==> s.isConnected
  }

  /** `whileRunningCommand` records the outcome and stamps exactly the date
      that belongs to it, leaving the other date and both session flags alone. */
  lemma AfterCommandRecordsOutcome(s: ConnectionState, succeeded: bool, start: Time, end: Time)
    ensures var t := AfterCommand(s, succeeded, start, end);
      && !t.isRunningCommand
      && t.isConnected == s.isConnected && t.isLoggedIn == s.isLoggedIn
      && t.lastCommandActivity == Some(start)
      && t.lastCommandSucceeded == Some(succeeded)
      && (succeeded ==> t.lastCommandSucceededDate == Some(end) && t.lastCommandFailedDate == s.lastCommandFailedDate)
      && (!succeeded ==> t.lastCommandFailedDate == Some(end) && t.lastCommandSucceededDate == s.lastCommandSucceededDate)
  {
  }

  /** `connect` from the idle state always reaches the transport; success
      leaves the connection connected but not logged in, failure leaves it
      disconnected. From any other state it throws and changes nothing. */
  lemma ConnectOutcome(s: ConnectionState, ok: bool, start: Time, end: Time)
    ensures var o := Perform(s, Connect, ok, start, end);
      && (o.invoked <==> Idle(s))
      && (Idle(s) && ok ==> o.state.isConnected && !o.state.isLoggedIn && o.status == Success)
      && (Idle(s) && !ok ==> !o.state.isConnected && !o.state.isLoggedIn && o.status == Thrown(TransportFailure))
      && (!Idle(s) ==> o.state == s && o.status.Thrown? && o.status.failure.StateError?)
  {
  }

  /** `login` needs a connected, idle, logged-out connection; success logs in,
      failure stays logged out. */
  lemma LoginOutcome(s: ConnectionState, username: string, password: string, ok: bool, start: Time, end: Time)
    ensures var o := Perform(s, Login(username, password), ok, start, end);
      && (o.invoked <==> !s.isRunningCommand && s.isConnected && !s.isLoggedIn)
      && (o.invoked ==> o.state.isConnected && (o.state.isLoggedIn <==> ok))
  {
  }

  /** After a successful `login`, a second `login` without `disconnect` throws
      `badIsLoggedIn(state: true, expected: false)` and never reaches the
      transport; after a failed one, the retry does reach it. */
  lemma SecondLogin(s: ConnectionState, u1: string, p1: string, ok1: bool, t1: Time, t2: Time,
                    u2: string, p2: string, ok2: bool, t3: Time, t4: Time)
    requires Satisfies(s, RequirementOf(Login(u1, p1)))
    ensures var first := Perform(s, Login(u1, p1), ok1, t1, t2);
            var second := Perform(first.state, Login(u2, p2), ok2, t3, t4);
      && (ok1 ==> second == Outcome(first.state, Thrown(StateError(BadIsLoggedIn(true, false))), false))
      && (!ok1 ==> second.invoked)
  {
  }

  /** `send` never changes the connected or logged-in flag, whatever the
      guard or the transport does, and reaches the transport only on an idle,
      logged-in connection. */
  lemma SendKeepsSession(s: ConnectionState, email: Email, ok: bool, start: Time, end: Time)
    ensures var o := Perform(s, Send(email), ok, start, end);
      && o.state.isConnected == s.isConnected
      && o.state.isLoggedIn == s.isLoggedIn
      && (o.invoked <==> !s.isRunningCommand && s.isConnected && s.isLoggedIn)
  {
  }

  /** `send` on a connected connection that has not logged in throws
      `badIsLoggedIn(state: false, expected: true)`, changes nothing and
      never calls `sendEmail`. */
  lemma SendBeforeLogin(s: ConnectionState, email: Email, ok: bool, start: Time, end: Time)
    requires !s.isRunningCommand && s.isConnected && !s.isLoggedIn
    ensures Perform(s, Send(email), ok, start, end) == Outcome(s, Thrown(StateError(BadIsLoggedIn(false, true))), false)
  {
  }

  /** `disconnect` ignores the logged-in flag; success clears both session
      flags, failure leaves both as they were. */
  lemma DisconnectOutcome(s: ConnectionState, ok: bool, start: Time, end: Time)
    ensures var o := Perform(s, Disconnect, ok, start, end);
      && (o.invoked <==> !s.isRunningCommand && s.isConnected)
      && (o.invoked && ok ==> !o.state.isConnected && !o.state.isLoggedIn)
      && (o.invoked && !ok ==> o.state.isConnected && o.state.isLoggedIn == s.isLoggedIn)
  {
  }

  /** The `badIsConnected` error carries the busy flag in its `state` field:
      `connect` on an idle, already connected connection reports
      `badIsConnected(state: false, expected: false)`. */
  lemma ConnectedMismatchReportsBusyFlag(s: ConnectionState, ok: bool, start: Time, end: Time)
    requires !s.isRunningCommand && s.isConnected
    ensures Perform(s, Connect, ok, start, end).status == Thrown(StateError(BadIsConnected(false, false)))
  {
  }

  /** Every operation keeps "logged in implies connected". */
  lemma PerformKeepsLoggedInConnected(s: ConnectionState, op: Operation, ok: bool, start: Time, end: Time)
    requires LoggedInImpliesConnected(s)
    ensures LoggedInImpliesConnected(Perform(s, op, ok, start, end).state)
  {
  }

  /** One call of a public operation on the actor, with what the transport
      and the clock answer. */
  datatype Step = Step(op: Operation, transportOk: bool, start: Time, end: Time)

  /** The state after running `steps` one after another from `s`. */
  function Replay(s: ConnectionState, steps: seq<Step>): ConnectionState
    decreases |steps|
  {
    if steps == [] then s
    else
      var o := Perform(s, steps[0].op, steps[0].transportOk, steps[0].start, steps[0].end);
      Replay(o.state, steps[1..])
  }

  /** The transport calls made while running `steps` from `s`. */
  function Invoked(s: ConnectionState, steps: seq<Step>): seq<Invocation>
    decreases |steps|
  {
    if steps == [] then []
    else
      var o := Perform(s, steps[0].op, steps[0].transportOk, steps[0].start, steps[0].end);
      CallsOf(s, steps[0].op) + Invoked(o.state, steps[1..])
  }

  /** Any run of operations keeps "logged in implies connected". */
  lemma {:induction false} ReplayKeepsLoggedInConnected(s: ConnectionState, steps: seq<Step>)
    requires LoggedInImpliesConnected(s)
    ensures LoggedInImpliesConnected(Replay(s, steps))
    decreases |steps|
  {
    if steps != [] {
      PerformKeepsLoggedInConnected(s, steps[0].op, steps[0].transportOk, steps[0].start, steps[0].end);
      ReplayKeepsLoggedInConnected(Perform(s, steps[0].op, steps[0].transportOk, steps[0].start, steps[0].end).state, steps[1..]);
    }
  }

  /** Between operations no command is in flight: a run that starts with the
      busy flag down ends with it down. */
  lemma {:induction false} ReplayEndsIdle(s: ConnectionState, steps: seq<Step>)
    requires !s.isRunningCommand
    ensures !Replay(s, steps).isRunningCommand
    decreases |steps|
  {
    if steps != [] {
      var o := Perform(s, steps[0].op, steps[0].transportOk, steps[0].start, steps[0].end);
      ReplayEndsIdle(o.state, steps[1..]);
    }
  }

  /** While a command is in flight (the state `whileRunningCommand` sets up
      before its transport call), every operation is refused with
      `badIsRunningCommand(state: true, expected: false)`, changes nothing and
      makes no transport call: two commands never overlap. */
  lemma InFlightCommandRefusesOthers(s: ConnectionState, start: Time, steps: seq<Step>)
    ensures var busy := s.(isRunningCommand := true, lastCommandActivity := Some(start));
      && Replay(busy, steps) == busy
      && Invoked(busy, steps) == []
      && forall i :: 0 <= i < |steps| ==>
           Perform(busy, steps[i].op, steps[i].transportOk, steps[i].start, steps[i].end)
           == Outcome(busy, Thrown(StateError(BadIsRunningCommand(true, false))), false)
  {
    BusyConnectionIsStuck(s.(isRunningCommand := true, lastCommandActivity := Some(start)), steps);
  }

  /** A connection created with the busy flag raised can never do anything:
      every operation throws `badIsRunningCommand` and no transport call is made. */
  lemma {:induction false} BusyConnectionIsStuck(s: ConnectionState, steps: seq<Step>)
    requires s.isRunningCommand
    ensures Replay(s, steps) == s
    ensures Invoked(s, steps) == []
    decreases |steps|
  {
    if steps != [] {
      BusyConnectionIsStuck(s, steps[1..]);
    }
  }

  /** Without a `login` in the run, a connection that is not logged in never
      hands an e-mail to the transport. */
  lemma {:induction false} NoSendWithoutLogin(s: ConnectionState, steps: seq<Step>)
    requires !s.isLoggedIn
    requires forall i :: 0 <= i < |steps| ==> !steps[i].op.Login?
    ensures forall i :: 0 <= i < |Invoked(s, steps)| ==> !Invoked(s, steps)[i].op.Send?
    decreases |steps|
  {
    if steps != [] {
      var o := Perform(s, steps[0].op, steps[0].transportOk, steps[0].start, steps[0].end);
      NoSendWithoutLogin(o.state, steps[1..]);
    }
  }
}
