/** The `SMTPConnection` actor: three flags guard every operation, each
    operation runs its transport call with the busy flag raised, records the
    outcome, and only after a successful call updates the connected and
    logged-in flags.

    The SMTP transport (`SwiftMail.SMTPServer`) is not modelled: each call is
    an input saying whether it succeeded. Foundation's `Date()` is an abstract
    clock: the caller supplies the moment the command started and the moment
    it ended. The actor is modelled sequentially. */
module Connection {
  import opened Mail

  /** A moment of the abstract clock that stands for `Date()`. */
  type Time = nat

  /** `SMTPConnection.SMTPConnectionError`. */
  datatype ConnectionError =
    | BadIsRunningCommand(state: bool, expected: bool)
    | BadIsConnected(state: bool, expected: bool)
    | BadIsLoggedIn(state: bool, expected: bool)

  /** What an operation throws: a guard error, or the transport's own error. */
  datatype Failure = StateError(error: ConnectionError) | TransportFailure

  datatype Status = Success | Thrown(failure: Failure)

  /** The snapshot `state()` returns (`WebsocketResponses.ConnectionState`);
      it lists every field of the actor that the model keeps. */
  datatype ConnectionState = ConnectionState(
    id: string,
    host: string,
    port: int,
    isRunningCommand: bool,
    isConnected: bool,
    isLoggedIn: bool,
    lastCommandActivity: Option<Time>,
    lastCommandSucceeded: Option<bool>,
    lastCommandSucceededDate: Option<Time>,
    lastCommandFailedDate: Option<Time>)

  /** The arguments of a `hasState` overload. `isLoggedIn == None` is the
      two-argument overload, which leaves the logged-in flag unchecked. */
  datatype Requirement = Requirement(isRunningCommand: bool, isConnected: bool, isLoggedIn: Option<bool>)

  /** The public operations that reach the transport. */
  datatype Operation =
    | Connect
    | Login(username: string, password: string)
    | Send(email: Email)
    | Disconnect

  /** One call handed to the transport, with the busy flag as it stood then. */
  datatype Invocation = Invocation(op: Operation, busy: bool)

  /** The combination of flags each operation checks before anything else. */
  function RequirementOf(op: Operation): Requirement {
    match op
    case Connect => Requirement(false, false, Some(false))
    case Login(_, _) => Requirement(false, true, Some(false))
    case Send(_) => Requirement(false, true, Some(true))
    case Disconnect => Requirement(false, true, None)
  }

  predicate Satisfies(s: ConnectionState, req: Requirement) {
    && s.isRunningCommand == req.isRunningCommand
    && s.isConnected == req.isConnected
    && (req.isLoggedIn.Some? ==> s.isLoggedIn == req.isLoggedIn.value)
  }

  /** The `hasState` guards: the checks run in the order running, connected,
      logged-in and the first one that fails is thrown. */
  function CheckState(s: ConnectionState, req: Requirement): (r: Option<ConnectionError>)
    ensures r.None? <==> Satisfies(s, req)
    ensures r.Some? && r.value.BadIsRunningCommand? <==> s.isRunningCommand != req.isRunningCommand
    ensures r.Some? && r.value.BadIsConnected? <==>
              s.isRunningCommand == req.isRunningCommand && s.isConnected != req.isConnected
    ensures r.Some? && r.value.BadIsLoggedIn? <==>
              && s.isRunningCommand == req.isRunningCommand && s.isConnected == req.isConnected
              && req.isLoggedIn.Some? && s.isLoggedIn != req.isLoggedIn.value
    // `expected` is always the value the guard demanded
    ensures r.Some? && r.value.BadIsRunningCommand? ==> r.value.expected == req.isRunningCommand
    ensures r.Some? && r.value.BadIsConnected? ==> r.value.expected == req.isConnected
    ensures r.Some? && r.value.BadIsLoggedIn? ==> r.value.expected == req.isLoggedIn.value
    // `state` is the offending flag, except that a connected mismatch reports the busy flag
    ensures r.Some? && r.value.BadIsRunningCommand? ==> r.value.state == s.isRunningCommand
    ensures r.Some? && r.value.BadIsConnected? ==> r.value.state == s.isRunningCommand
    ensures r.Some? && r.value.BadIsLoggedIn? ==> r.value.state == s.isLoggedIn
  {
    if s.isRunningCommand != req.isRunningCommand then
      Some(BadIsRunningCommand(s.isRunningCommand, req.isRunningCommand))
    else if s.isConnected != req.isConnected then
      Some(BadIsConnected(s.isRunningCommand, req.isConnected))
    else if req.isLoggedIn.Some? && s.isLoggedIn != req.isLoggedIn.value then
      Some(BadIsLoggedIn(s.isLoggedIn, req.isLoggedIn.value))
    else
      None
  }

  /** The state `whileRunningCommand` leaves behind once the transport call
      has returned (`succeeded`) or thrown (`!succeeded`). */
  function AfterCommand(s: ConnectionState, succeeded: bool, start: Time, end: Time): ConnectionState {
    s.(isRunningCommand := false,
       lastCommandActivity := Some(start),
       lastCommandSucceeded := Some(succeeded),
       lastCommandSucceededDate := if succeeded then Some(end) else s.lastCommandSucceededDate,
       lastCommandFailedDate := if succeeded then s.lastCommandFailedDate else Some(end))
  }

  /** The setter calls an operation makes after its transport call succeeded. */
  function Settle(s: ConnectionState, op: Operation): ConnectionState {
    match op
    case Connect => s.(isConnected := true)
    case Login(_, _) => s.(isLoggedIn := true)
    case Send(_) => s
    case Disconnect => s.(isLoggedIn := false, isConnected := false)
  }

  /** The result of one public operation: the new state, what it returned or
      threw, and whether the transport was called. */
  datatype Outcome = Outcome(state: ConnectionState, status: Status, invoked: bool)

  function Perform(s: ConnectionState, op: Operation, transportOk: bool, start: Time, end: Time): (o: Outcome)
    // the transport is reached exactly when the guard passes
    ensures o.invoked <==> Satisfies(s, RequirementOf(op))
    // a failed guard throws its error and changes nothing
    ensures !o.invoked ==> o.state == s && o.status == Thrown(StateError(CheckState(s, RequirementOf(op)).value))
    // once the transport was reached, the busy flag is down again and the outcome is recorded
    ensures o.invoked ==>
              && !o.state.isRunningCommand
              && o.state.lastCommandSucceeded == Some(transportOk)
              && o.state.lastCommandActivity == Some(start)
              && o.status == (if transportOk then Success else Thrown(TransportFailure))
    // a failed transport call leaves the connected and logged-in flags as they were
    ensures !transportOk ==> o.state.isConnected == s.isConnected && o.state.isLoggedIn == s.isLoggedIn
    // identity and endpoint never change
    ensures o.state.id == s.id && o.state.host == s.host && o.state.port == s.port
  {
    match CheckState(s, RequirementOf(op))
    case Some(e) => Outcome(s, Thrown(StateError(e)), false)
    case None =>
      var t := AfterCommand(s, transportOk, start, end);
      if transportOk then Outcome(Settle(t, op), Success, true)
      else Outcome(t, Thrown(TransportFailure), true)
  }

  /** The transport calls an operation makes from state `s`: one, with the
      busy flag raised, or none. */
  function CallsOf(s: ConnectionState, op: Operation): seq<Invocation> {
    if Satisfies(s, RequirementOf(op)) then [Invocation(op, true)] else []
  }

  /** The actor. Its fields are those of the source; `transportCalls` is the
      history of calls handed to the SMTP server. */
  class SMTPConnection {
    const id: string
    var host: string
    var port: int

    var isRunningCommand: bool
    var isConnected: bool
    var isLoggedIn: bool

    var lastCommandActivity: Option<Time>
    var lastCommandSucceeded: Option<bool>
    var lastCommandSucceededDate: Option<Time>
    var lastCommandFailedDate: Option<Time>

    ghost var transportCalls: seq<Invocation>

    /** The actor's fields as a value. */
    function Snapshot(): ConnectionState
      reads this
    {
      ConnectionState(id, host, port, isRunningCommand, isConnected, isLoggedIn,
                      lastCommandActivity, lastCommandSucceeded,
                      lastCommandSucceededDate, lastCommandFailedDate)
    }

    constructor (id: string, host: string, port: int,
                 isRunningCommand: bool := false, isConnected: bool := false, isLoggedIn: bool := false)
      ensures Snapshot() == ConnectionState(id, host, port, isRunningCommand, isConnected, isLoggedIn,
                                            None, None, None, None)
      ensures transportCalls == []
    {
      this.id := id;
      this.host := host;
      this.port := port;
      this.isRunningCommand := isRunningCommand;
      this.isConnected := isConnected;
      this.isLoggedIn := isLoggedIn;
      lastCommandActivity := None;
      lastCommandSucceeded := None;
      lastCommandSucceededDate := None;
      lastCommandFailedDate := None;
      transportCalls := [];
    }

    /** `state()`: a copy of the fields; it changes nothing. */
    method State() returns (s: ConnectionState)
      ensures s.id == id && s.host == host && s.port == port
      ensures s.isRunningCommand == isRunningCommand && s.isConnected == isConnected
      ensures s.isLoggedIn == isLoggedIn
      ensures s.lastCommandActivity == lastCommandActivity
      ensures s.lastCommandSucceeded == lastCommandSucceeded
      ensures s.lastCommandSucceededDate == lastCommandSucceededDate
      ensures s.lastCommandFailedDate == lastCommandFailedDate
    {
      s := ConnectionState(id, host, port, isRunningCommand, isConnected, isLoggedIn,
                           lastCommandActivity, lastCommandSucceeded,
                           lastCommandSucceededDate, lastCommandFailedDate);
    }

    /** The `hasState` overloads: `None` where the source returns, the error
        where it throws. */
    method HasState(req: Requirement) returns (err: Option<ConnectionError>)
      ensures err == CheckState(Snapshot(), req)
    {
      if isRunningCommand != req.isRunningCommand {
        return Some(BadIsRunningCommand(isRunningCommand, req.isRunningCommand));
      }
      if isConnected != req.isConnected {
        return Some(BadIsConnected(isRunningCommand, req.isConnected));
      }
      if req.isLoggedIn.Some? && isLoggedIn != req.isLoggedIn.value {
        return Some(BadIsLoggedIn(isLoggedIn, req.isLoggedIn.value));
      }
      return None;
    }

    /** `whileRunningCommand`: raise the busy flag, stamp the activity, make
        the transport call `op` (whose success is `transportOk`), record the
        outcome, and lower the busy flag on both paths. */
    method WhileRunningCommand(op: Operation, transportOk: bool, start: Time, end: Time)
      returns (succeeded: bool)
      modifies this
      ensures succeeded == transportOk
      ensures Snapshot() == AfterCommand(old(Snapshot()), transportOk, start, end)
      ensures transportCalls == old(transportCalls) + [Invocation(op, true)]
    {
      isRunningCommand := true;
      lastCommandActivity := Some(start);
      transportCalls := transportCalls + [Invocation(op, isRunningCommand)];
      if !transportOk {
        isRunningCommand := false;
        lastCommandSucceeded := Some(false);
        lastCommandFailedDate := Some(end);
        return false;
      }
      lastCommandSucceeded := Some(true);
      lastCommandSucceededDate := Some(end);
      isRunningCommand := false;
      return true;
    }

    /** `send(_:)`. */
    method Send(email: Email, transportOk: bool, start: Time, end: Time) returns (status: Status)
      modifies this
      ensures Snapshot() == Perform(old(Snapshot()), Operation.Send(email), transportOk, start, end).state
      ensures status == Perform(old(Snapshot()), Operation.Send(email), transportOk, start, end).status
      ensures transportCalls == old(transportCalls) + CallsOf(old(Snapshot()), Operation.Send(email))
    {
      var err := HasState(RequirementOf(Operation.Send(email)));
      if err.Some? {
        return Thrown(StateError(err.value));
      }
      var ok := WhileRunningCommand(Operation.Send(email), transportOk, start, end);
      if !ok {
        return Thrown(TransportFailure);
      }
      return Success;
    }

    /** `connect()`. */
    method Connect(transportOk: bool, start: Time, end: Time) returns (status: Status)
      modifies this
      ensures Snapshot() == Perform(old(Snapshot()), Operation.Connect, transportOk, start, end).state
      ensures status == Perform(old(Snapshot()), Operation.Connect, transportOk, start, end).status
      ensures transportCalls == old(transportCalls) + CallsOf(old(Snapshot()), Operation.Connect)
    {
      var err := HasState(RequirementOf(Operation.Connect));
      if err.Some? {
        return Thrown(StateError(err.value));
      }
      var ok := WhileRunningCommand(Operation.Connect, transportOk, start, end);
      if !ok {
        return Thrown(TransportFailure);
      }
      isConnected := true;
      return Success;
    }

    /** `login(username:password:)`. */
    method Login(username: string, password: string, transportOk: bool, start: Time, end: Time)
      returns (status: Status)
      modifies this
      ensures Snapshot() == Perform(old(Snapshot()), Operation.Login(username, password), transportOk, start, end).state
      ensures status == Perform(old(Snapshot()), Operation.Login(username, password), transportOk, start, end).status
      ensures transportCalls == old(transportCalls) + CallsOf(old(Snapshot()), Operation.Login(username, password))
    {
      var err := HasState(RequirementOf(Operation.Login(username, password)));
      if err.Some? {
        return Thrown(StateError(err.value));
      }
      var ok := WhileRunningCommand(Operation.Login(username, password), transportOk, start, end);
      if !ok {
        return Thrown(TransportFailure);
      }
      isLoggedIn := true;
      return Success;
    }

    /** `disconnect()`. */
    method Disconnect(transportOk: bool, start: Time, end: Time) returns (status: Status)
      modifies this
      ensures Snapshot() == Perform(old(Snapshot()), Operation.Disconnect, transportOk, start, end).state
      ensures status == Perform(old(Snapshot()), Operation.Disconnect, transportOk, start, end).status
      ensures transportCalls == old(transportCalls) + CallsOf(old(Snapshot()), Operation.Disconnect)
    {
      var err := HasState(RequirementOf(Operation.Disconnect));
      if err.Some? {
        return Thrown(StateError(err.value));
      }
      var ok := WhileRunningCommand(Operation.Disconnect, transportOk, start, end);
      if !ok {
        return Thrown(TransportFailure);
      }
      isLoggedIn := false;
      isConnected := false;
      return Success;
    }
  }
}
