/** The link to the master server: which store changes are relayed over the
    socket, the fixed message `sendMessage` sends, and the store middleware
    that relays every dispatched action after the reducers have run. */
module Communicator {
  import opened Values
  import opened Actions
  import opened Reducers

  /** A `socket.emit(event, payload, to)`; `to` is undefined when absent. */
  datatype SocketEmit = SocketEmit(event: string, payload: Value, to: Value)

  /** The phase as the server encodes it: 0 while running, 1 otherwise. */
  function RunningCode(s: State): (c: Value)
    ensures c == Num(0) <==> Running(s) == RUNNING
    ensures c == Num(0) || c == Num(1)
  {
    if Running(s) == RUNNING then Num(0) else Num(1)
  }

  /** The error as the server encodes it: -1 when there is none. */
  function ErrorField(s: State): (e: Value)
    ensures Truthy(ErrorCode(s)) ==> e == ErrorCode(s)
    ensures !Truthy(ErrorCode(s)) ==> e == Num(-1)
  {
    Or(ErrorCode(s), Num(-1))
  }

  function Change(kind: string, change: map<string, Value>): SocketEmit {
    SocketEmit("change", Obj(map["type" := Str(kind), "change" := Obj(change)]), Undefined)
  }

  /** `sendAction`: relays the state an action produced, read from `s`. Only
      five action types are relayed, and nothing is sent while disconnected
      or for an action without a type. */
  function SendAction(connected: bool, action: Action, s: State): (e: Option<SocketEmit>)
    ensures !connected || action.actionType == "" ==> e == None
    ensures e.Some? <==> (connected &&
      Kind(action) in {Some(SET_STARTED), Some(SET_STOPPED), Some(SET_ERROR), Some(UPDATE_CONFIG), Some(HYDRATE)})
    ensures connected && Kind(action) == Some(HYDRATE) ==> e == Some(Snapshot(s))
    ensures e.Some? ==> (e.value.event == "meta" <==> Kind(action) == Some(HYDRATE))
    ensures e.Some? && e.value.event == "change" ==> e.value.to == Undefined && Prop(e.value.payload, "change").Obj?
  {
    if !connected || action.actionType == "" then None
    else
      match Kind(action)
      case Some(SET_STARTED) =>
        Some(Change("startStop", map["running" := RunningCode(s), "error" := ErrorField(s)]))
      case Some(SET_STOPPED) =>
        Some(Change("startStop", map["running" := RunningCode(s), "error" := ErrorField(s)]))
      case Some(SET_ERROR) =>
        Some(Change("error", map["running" := Num(2), "error" := ErrorCode(s)]))
      case Some(UPDATE_CONFIG) =>
        Some(Change("settings", map["config" := s.config]))
      case Some(HYDRATE) =>
        Some(Snapshot(s))
      case _ => None
  }

  /** The 'meta' snapshot: phase, error and name. */
  function Snapshot(s: State): SocketEmit {
    SocketEmit("meta", Obj(map["running" := RunningCode(s), "error" := ErrorField(s), "name" := s.name]), Undefined)
  }

  const SshFailureText: string := "Could not start SSH tunnels!"

  /** `sendMessage`: whatever title, type and text it is given, it sends the
      same error message about the SSH tunnels to the recipient. */
  function SendMessage(connected: bool, title: Value, kind: Value, text: Value, to: Value): (e: Option<SocketEmit>)
    ensures !connected ==> e == None
    ensures connected ==> e.Some? && e.value.event == "data" && e.value.to == to
    ensures connected ==> Prop(Prop(e.value.payload, "data"), "text") == Str(SshFailureText)
  {
    if !connected then None
    else
      Some(SocketEmit("data", Obj(map[
        "type" := Str("message"),
        "data" := Obj(map["title" := Str("Error"), "type" := Str("error"), "text" := Str(SshFailureText)])]), to))
  }

  /** The arguments of `sendMessage` other than the recipient make no difference. */
  lemma {:induction false} SendMessageIgnoresArguments(connected: bool, t1: Value, k1: Value, x1: Value, t2: Value, k2: Value, x2: Value, to: Value)
    ensures SendMessage(connected, t1, k1, x1, to) == SendMessage(connected, t2, k2, x2, to)
  {
  }

  /** What one pass through the middleware does: the state the reducers
      produce, what is emitted, and the value handed back to the caller. */
  datatype Relay = Relay(state: State, emit: Option<SocketEmit>, result: Action)

  /** `Communicator.middleware`: the action reaches the reducers first, so
      the relayed snapshot is the state after the action. `connected` is
      whether a communicator exists and its socket is connected. */
  function Middleware(connected: bool, s: State, action: Action): (r: Relay)
    ensures r.state == Reduce(s, action) && r.result == action
    ensures r.emit == SendAction(connected, action, r.state)
  {
    var next := Reduce(s, action);
    Relay(next, SendAction(connected, action, next), action)
  }

  /** The server learns of a start as "running, no error". */
  lemma {:induction false} StartRelayed(s: State)
    ensures Middleware(true, s, SetStarted()).emit ==
      Some(Change("startStop", map["running" := Num(0), "error" := Num(-1)]))
  {
    StartedClearsError(s);
    PlainCreators();
  }

  /** The server learns of a stop as "not running", with the error still
      held, or -1. */
  lemma {:induction false} StopRelayed(s: State)
    ensures Middleware(true, s, SetStopped()).emit ==
      Some(Change("startStop", map["running" := Num(1), "error" := Or(Default(ErrorCode(s), Bool(false)), Num(-1))]))
  {
    PlainCreators();
    var a := SetStopped();
    var n := Reduce(s, a);
    assert Running(n) == STOPPED;
    assert ErrorCode(n) == ErrorReducer(ErrorCode(s), a);
  }

  /** The server learns of a crash as phase 2 with the error code of the
      SET_ERROR action itself. */
  lemma {:induction false} ErrorRelayed(s: State, code: Value, stdout: Value, stderr: Value)
    ensures Middleware(true, s, SetError(code, stdout, stderr)).emit ==
      Some(Change("error", map["running" := Num(2), "error" := code]))
  {
    ArgumentCreators(code, stdout, stderr);
    var n := Reduce(s, SetError(code, stdout, stderr));
    assert ErrorCode(n) == code;
  }

  /** The server learns of a configuration update as the merged configuration. */
  lemma {:induction false} SettingsRelayed(s: State, a: Action)
    requires Kind(a) == Some(UPDATE_CONFIG)
    ensures Middleware(true, s, a).emit ==
      Some(Change("settings", map["config" := Obj(OwnProps(s.config) + OwnProps(Data(a)))]))
  {
    assert a.actionType == "UPDATE_CONFIG" by {
      ParseTypeSound(a.actionType, UPDATE_CONFIG);
    }
  }

  /** Actions other than the five relayed types reach the reducers and
      nothing is sent. */
  lemma {:induction false} OthersNotRelayed(s: State, a: Action)
    requires Kind(a) !in {Some(SET_STARTED), Some(SET_STOPPED), Some(SET_ERROR), Some(UPDATE_CONFIG), Some(HYDRATE)}
    ensures Middleware(true, s, a) == Relay(Reduce(s, a), None, a)
  {
  }

  /** The 'connect' handler: SET_CONNECTED passes through the middleware
      (and is not relayed), then a HYDRATE snapshot of the new state is sent. */
  function OnSocketConnected(s: State): (r: (State, seq<SocketEmit>))
    ensures r.0 == Reduce(s, SetConnected()) && r.0.connected == Bool(true)
    ensures r.1 == [Snapshot(r.0)]
  {
    var relay := Middleware(true, s, SetConnected());
    assert Kind(Plain(HYDRATE)) == Some(HYDRATE) by { ParseTypeName(HYDRATE); }
    assert Kind(SetConnected()) == Some(SET_CONNECTED) by { ParseTypeName(SET_CONNECTED); }
    (relay.state, [SendAction(true, Plain(HYDRATE), relay.state).value])
  }

  /** The snapshot sent on connecting carries the phase and the name the
      state had before: SET_CONNECTED changes neither. */
  lemma {:induction false} ConnectSnapshotKeepsPhase(s: State)
    requires IsPhase(Running(s))
    ensures var snap := OnSocketConnected(s).1[0].payload;
      && Prop(snap, "running") == (if Running(s) == RUNNING then Num(0) else Num(1))
      && Prop(snap, "name") == Default(s.name, Str("Unnamed"))
  {
    PlainCreators();
    var n := Reduce(s, SetConnected());
    assert Running(n) == RunningReducer(Running(s), SetConnected());
    RunningEdges(Running(s), SetConnected());
  }
}
