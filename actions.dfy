/** The action vocabulary of the agent's store: the type constants, the plain
    creators and the `updateConfig` thunk. An action is the record the creators
    build: a `type` string and the other properties of the literal. */
module Actions {
  import opened Values

  /** The keys of the `actions` table. The value stored under each key is the
      key's own text (see TypeName). */
  datatype ActionType =
    | UPDATE_CONFIG
    | REQUEST_START
    | SET_STARTED
    | REQUEST_STOP
    | SET_STOPPED
    | REQUEST_RESTART
    | SET_ERROR
    | TRY_RECONNECT
    | STOP_ERROR_HANDLING
    | SET_NAME
    | SET_CONNECTED
    | SET_DISCONNECTED
    | SET_SSH_DISCONNECTED
    | SET_SSH_DISCONNECTING
    | SET_SSH_CONNECTING
    | SET_SSH_CONNECTED
    | SET_SSH_REMOTE_PORTS
    | SET_SSH_ERROR
    | SET_SSH_WILL_RECONNECT
    | HYDRATE

  /** An action object. `actionType` is its `type`, "" when the object has none (both are falsy
      for `!action.type`); `props` holds every other property of the literal. */
  datatype Action = Action(actionType: string, props: map<string, Value>)

  /** The string value of each constant. */
  function TypeName(t: ActionType): string {
    match t
    case UPDATE_CONFIG => "UPDATE_CONFIG"
    case REQUEST_START => "REQUEST_START"
    case SET_STARTED => "SET_STARTED"
    case REQUEST_STOP => "REQUEST_STOP"
    case SET_STOPPED => "SET_STOPPED"
    case REQUEST_RESTART => "REQUEST_RESTART"
    case SET_ERROR => "SET_ERROR"
    case TRY_RECONNECT => "TRY_RECONNECT"
    case STOP_ERROR_HANDLING => "STOP_ERROR_HANDLING"
    case SET_NAME => "SET_NAME"
    case SET_CONNECTED => "SET_CONNECTED"
    case SET_DISCONNECTED => "SET_DISCONNECTED"
    case SET_SSH_DISCONNECTED => "SET_SSH_DISCONNECTED"
    case SET_SSH_DISCONNECTING => "SET_SSH_DISCONNECTING"
    case SET_SSH_CONNECTING => "SET_SSH_CONNECTING"
    case SET_SSH_CONNECTED => "SET_SSH_CONNECTED"
    case SET_SSH_REMOTE_PORTS => "SET_SSH_REMOTE_PORTS"
    case SET_SSH_ERROR => "SET_SSH_ERROR"
    case SET_SSH_WILL_RECONNECT => "SET_SSH_WILL_RECONNECT"
    case HYDRATE => "HYDRATE"
  }

  /** Which `case` of a `switch (action.type)` over the constants matches. */
  function ParseType(s: string): Option<ActionType> {
    if s == "UPDATE_CONFIG" then Some(UPDATE_CONFIG)
    else if s == "REQUEST_START" then Some(REQUEST_START)
    else if s == "SET_STARTED" then Some(SET_STARTED)
    else if s == "REQUEST_STOP" then Some(REQUEST_STOP)
    else if s == "SET_STOPPED" then Some(SET_STOPPED)
    else if s == "REQUEST_RESTART" then Some(REQUEST_RESTART)
    else if s == "SET_ERROR" then Some(SET_ERROR)
    else if s == "TRY_RECONNECT" then Some(TRY_RECONNECT)
    else if s == "STOP_ERROR_HANDLING" then Some(STOP_ERROR_HANDLING)
    else if s == "SET_NAME" then Some(SET_NAME)
    else if s == "SET_CONNECTED" then Some(SET_CONNECTED)
    else if s == "SET_DISCONNECTED" then Some(SET_DISCONNECTED)
    else if s == "SET_SSH_DISCONNECTED" then Some(SET_SSH_DISCONNECTED)
    else if s == "SET_SSH_DISCONNECTING" then Some(SET_SSH_DISCONNECTING)
    else if s == "SET_SSH_CONNECTING" then Some(SET_SSH_CONNECTING)
    else if s == "SET_SSH_CONNECTED" then Some(SET_SSH_CONNECTED)
    else if s == "SET_SSH_REMOTE_PORTS" then Some(SET_SSH_REMOTE_PORTS)
    else if s == "SET_SSH_ERROR" then Some(SET_SSH_ERROR)
    else if s == "SET_SSH_WILL_RECONNECT" then Some(SET_SSH_WILL_RECONNECT)
    else if s == "HYDRATE" then Some(HYDRATE)
    else None
  }

  /** Every constant is matched by its own case and by no other: the values
      are pairwise distinct. */
  lemma ParseTypeName(t: ActionType)
    ensures ParseType(TypeName(t)) == Some(t)
  {
  }

  lemma ParseTypeSound(s: string, t: ActionType)
    requires ParseType(s) == Some(t)
    ensures TypeName(t) == s
  {
    if s == "UPDATE_CONFIG" {
    } else if s == "REQUEST_START" {
    } else if s == "SET_STARTED" {
    } else if s == "REQUEST_STOP" {
    } else if s == "SET_STOPPED" {
    } else if s == "REQUEST_RESTART" {
    } else if s == "SET_ERROR" {
    } else if s == "TRY_RECONNECT" {
    } else if s == "STOP_ERROR_HANDLING" {
    } else if s == "SET_NAME" {
    } else if s == "SET_CONNECTED" {
    } else if s == "SET_DISCONNECTED" {
    } else if s == "SET_SSH_DISCONNECTED" {
    } else if s == "SET_SSH_DISCONNECTING" {
    } else if s == "SET_SSH_CONNECTING" {
    } else if s == "SET_SSH_CONNECTED" {
    } else if s == "SET_SSH_REMOTE_PORTS" {
    } else if s == "SET_SSH_ERROR" {
    } else if s == "SET_SSH_WILL_RECONNECT" {
    } else if s == "HYDRATE" {
    }
  }

  lemma TypeNamesDistinct(t: ActionType, u: ActionType)
    requires TypeName(t) == TypeName(u)
    ensures t == u
  {
    ParseTypeName(t);
    ParseTypeName(u);
  }

  /** The constant an action's type matches, if any. */
  function Kind(a: Action): Option<ActionType> {
    ParseType(a.actionType)
  }

  /** `action.data` */
  function Data(a: Action): Value {
    if "data" in a.props then a.props["data"] else Undefined
  }

  /** A creator without arguments: `{ type: actions.X }`. */
  function Plain(t: ActionType): Action {
    Action(TypeName(t), map[])
  }

  function RequestStart(): Action { Plain(REQUEST_START) }
  function RequestStop(): Action { Plain(REQUEST_STOP) }
  function SetStarted(): Action { Plain(SET_STARTED) }
  function SetStopped(): Action { Plain(SET_STOPPED) }
  function RequestRestart(): Action { Plain(REQUEST_RESTART) }
  function StopErrorHandling(): Action { Plain(STOP_ERROR_HANDLING) }
  function SetConnected(): Action { Plain(SET_CONNECTED) }
  function SetDisconnected(): Action { Plain(SET_DISCONNECTED) }
  function SetSshConnecting(): Action { Plain(SET_SSH_CONNECTING) }
  function SetSshConnected(): Action { Plain(SET_SSH_CONNECTED) }
  function SetSshDisconnected(): Action { Plain(SET_SSH_DISCONNECTED) }

  /** `setSSHDisconnecting(error)`: the argument is not used. */
  function SetSshDisconnecting(error: Value): Action { Plain(SET_SSH_DISCONNECTING) }

  /** `setSSHWillReconnect(error)`: the argument is not used. */
  function SetSshWillReconnect(error: Value): Action { Plain(SET_SSH_WILL_RECONNECT) }

  /** `setError(error, stdout, stderr)` */
  function SetError(error: Value, stdout: Value, stderr: Value): Action {
    Action(TypeName(SET_ERROR), map["data" := error, "stdout" := stdout, "stderr" := stderr])
  }

  /** `setTryReconnect(to)`: the target travels under `to`, not `data`. */
  function SetTryReconnect(to: Value): Action {
    Action(TypeName(TRY_RECONNECT), map["to" := to])
  }

  function SetName(name: Value): Action {
    Action(TypeName(SET_NAME), map["data" := name])
  }

  function SetSshRemotePorts(ports: Value): Action {
    Action(TypeName(SET_SSH_REMOTE_PORTS), map["data" := ports])
  }

  function SetSshError(error: Value): Action {
    Action(TypeName(SET_SSH_ERROR), map["data" := error])
  }

  /** Each argument-free creator yields a record whose type is its own constant
      and which carries nothing else. */
  lemma {:induction false} PlainCreators()
    ensures Kind(RequestStart()) == Some(REQUEST_START) && RequestStart().props == map[]
    ensures Kind(RequestStop()) == Some(REQUEST_STOP) && RequestStop().props == map[]
    ensures Kind(SetStarted()) == Some(SET_STARTED) && SetStarted().props == map[]
    ensures Kind(SetStopped()) == Some(SET_STOPPED) && SetStopped().props == map[]
    ensures Kind(RequestRestart()) == Some(REQUEST_RESTART) && RequestRestart().props == map[]
    ensures Kind(StopErrorHandling()) == Some(STOP_ERROR_HANDLING) && StopErrorHandling().props == map[]
    ensures Kind(SetConnected()) == Some(SET_CONNECTED) && SetConnected().props == map[]
    ensures Kind(SetDisconnected()) == Some(SET_DISCONNECTED) && SetDisconnected().props == map[]
    ensures Kind(SetSshConnecting()) == Some(SET_SSH_CONNECTING) && SetSshConnecting().props == map[]
    ensures Kind(SetSshConnected()) == Some(SET_SSH_CONNECTED) && SetSshConnected().props == map[]
    ensures Kind(SetSshDisconnected()) == Some(SET_SSH_DISCONNECTED) && SetSshDisconnected().props == map[]
    ensures forall e :: Kind(SetSshDisconnecting(e)) == Some(SET_SSH_DISCONNECTING) && SetSshDisconnecting(e).props == map[]
    ensures forall e :: Kind(SetSshWillReconnect(e)) == Some(SET_SSH_WILL_RECONNECT) && SetSshWillReconnect(e).props == map[]
  {
    forall t: ActionType ensures Kind(Plain(t)) == Some(t) {
      ParseTypeName(t);
    }
  }

  /** The creators with arguments carry them where the reducers and the relay
      look for them. */
  lemma {:induction false} ArgumentCreators(x: Value, out: Value, err: Value)
    ensures Kind(SetError(x, out, err)) == Some(SET_ERROR) && Data(SetError(x, out, err)) == x
    ensures SetError(x, out, err).props.Keys == {"data", "stdout", "stderr"}
    ensures SetError(x, out, err).props["stdout"] == out && SetError(x, out, err).props["stderr"] == err
    ensures Kind(SetTryReconnect(x)) == Some(TRY_RECONNECT) && SetTryReconnect(x).props == map["to" := x]
    ensures Data(SetTryReconnect(x)) == Undefined
    ensures Kind(SetName(x)) == Some(SET_NAME) && Data(SetName(x)) == x
    ensures Kind(SetSshRemotePorts(x)) == Some(SET_SSH_REMOTE_PORTS) && Data(SetSshRemotePorts(x)) == x
    ensures Kind(SetSshError(x)) == Some(SET_SSH_ERROR) && Data(SetSshError(x)) == x
  {
    ParseTypeName(SET_ERROR);
    ParseTypeName(TRY_RECONNECT);
    ParseTypeName(SET_NAME);
    ParseTypeName(SET_SSH_REMOTE_PORTS);
    ParseTypeName(SET_SSH_ERROR);
  }

  /** What a thunk did: the actions it dispatched, in order, and how the
      promise it returned ends. */
  datatype ThunkRun = ThunkRun(dispatched: seq<Action>, outcome: Outcome)

  /** `updateConfig(update)`. A falsy `update` means "initialise": the stored
      configuration (`readConfig()`, passed in as `stored`) is used instead,
      and nothing is written back. Otherwise the promise is the disk write's,
      left Pending here. */
  function UpdateConfig(update: Value, stored: Value): (r: ThunkRun)
    ensures !Truthy(update) && !Truthy(stored) ==> r == ThunkRun([], Thrown("Could not load config."))
    ensures Truthy(update) || Truthy(stored) ==>
      var u := if Truthy(update) then update else stored;
      && 1 <= |r.dispatched| <= 2
      && Kind(r.dispatched[0]) == Some(UPDATE_CONFIG) && Data(r.dispatched[0]) == u
      && (|r.dispatched| == 2 <==> Truthy(Prop(u, "name")))
      && (|r.dispatched| == 2 ==> Kind(r.dispatched[1]) == Some(SET_NAME) && Data(r.dispatched[1]) == Prop(u, "name"))
      && (r.outcome == Resolved(Undefined) <==> !Truthy(update))
  {
    ParseTypeName(UPDATE_CONFIG);
    ParseTypeName(SET_NAME);
    var init := !Truthy(update);
    var u := if init then stored else update;
    if !Truthy(u) then ThunkRun([], Thrown("Could not load config."))
    else
      var first := Action(TypeName(UPDATE_CONFIG), map["data" := u]);
      var dispatched := if Truthy(Prop(u, "name")) then [first, SetName(Prop(u, "name"))] else [first];
      ThunkRun(dispatched, if init then Resolved(Undefined) else Pending)
  }
}
