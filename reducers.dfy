/** The store's reducers. Each is a switch over the action's type that returns
    the new value of one slice of the state; `Reduce` is their combination, and
    `Run` folds a sequence of dispatched actions through it. */
module Reducers {
  import opened Values
  import opened Actions

  /** The four values of `stream.running`. */
  const STOPPED: Value := Str("STOPPED")
  const STARTING: Value := Str("STARTING")
  const RUNNING: Value := Str("RUNNING")
  const STOPPING: Value := Str("STOPPING")

  predicate IsPhase(v: Value) {
    v == STOPPED || v == STARTING || v == RUNNING || v == STOPPING
  }

  /** A JavaScript default parameter: `state = d` applies only to undefined. */
  function Default(state: Value, d: Value): Value {
    if state == Undefined then d else state
  }

  /** `error`: the error code, set by SET_ERROR and cleared by SET_STARTED. */
  function ErrorReducer(state: Value, a: Action): Value {
    match Kind(a)
    case Some(SET_ERROR) => Data(a)
    case Some(SET_STARTED) => Bool(false)
    case _ => Default(state, Bool(false))
  }

  /** `handleError`: the name of the running error handler, or false. */
  function HandleErrorReducer(state: Value, a: Action): Value {
    match Kind(a)
    case Some(SET_STARTED) => Bool(false)
    case Some(STOP_ERROR_HANDLING) => Bool(false)
    case Some(TRY_RECONNECT) => Str(TypeName(TRY_RECONNECT))
    case _ => Default(state, Bool(false))
  }

  /** `running`: the stream's lifecycle phase. Starting from a phase (or from
      nothing), it is always one of the four phases. */
  function RunningReducer(state: Value, a: Action): (r: Value)
    ensures IsPhase(state) || state == Undefined ==> IsPhase(r)
  {
    match Kind(a)
    case Some(REQUEST_START) => STARTING
    case Some(SET_STARTED) => RUNNING
    case Some(REQUEST_STOP) => STOPPING
    case Some(SET_STOPPED) => STOPPED
    case Some(SET_ERROR) => STOPPED
    case _ => Default(state, STOPPED)
  }

  /** `restarting`: set by REQUEST_RESTART; no case resets it. */
  function RestartingReducer(state: Value, a: Action): Value {
    match Kind(a)
    case Some(REQUEST_RESTART) => Bool(true)
    case _ => Default(state, Bool(false))
  }

  const StreamFields: set<string> := {"running", "error", "handleError", "restarting"}

  /** `reducers.stream`: builds a fresh object from the four field reducers, so
      any other property of the old stream object is dropped. */
  function StreamReducer(state: Value, a: Action): (r: Value)
    ensures r.Obj? && r.props.Keys == StreamFields
  {
    Obj(map[
      "running" := RunningReducer(Prop(state, "running"), a),
      "error" := ErrorReducer(Prop(state, "error"), a),
      "handleError" := HandleErrorReducer(Prop(state, "handleError"), a),
      "restarting" := RestartingReducer(Prop(state, "restarting"), a)])
  }

  /** `reducers.config`: `Object.assign({}, state, action.data)` on UPDATE_CONFIG. */
  function ConfigReducer(state: Value, a: Action): Value {
    match Kind(a)
    case Some(UPDATE_CONFIG) => Obj(OwnProps(state) + OwnProps(Data(a)))
    case _ => Default(state, Bool(false))
  }

  function NameReducer(state: Value, a: Action): Value {
    match Kind(a)
    case Some(SET_NAME) => Data(a)
    case _ => Default(state, Str("Unnamed"))
  }

  function ConnectedReducer(state: Value, a: Action): Value {
    match Kind(a)
    case Some(SET_CONNECTED) => Bool(true)
    case Some(SET_DISCONNECTED) => Bool(false)
    case _ => Default(state, Bool(false))
  }

  /** The store's state: one slice per reducer key. */
  datatype State = State(stream: Value, config: Value, name: Value, connected: Value)

  /** The combined root reducer. */
  function Reduce(s: State, a: Action): State {
    State(
      StreamReducer(s.stream, a),
      ConfigReducer(s.config, a),
      NameReducer(s.name, a),
      ConnectedReducer(s.connected, a))
  }

  /** The state after dispatching `acts` in order. */
  function Run(s: State, acts: seq<Action>): State
    decreases |acts|
  {
    if acts == [] then s else Run(Reduce(s, acts[0]), acts[1..])
  }

  lemma {:induction false} RunAppend(s: State, acts: seq<Action>, more: seq<Action>)
    ensures Run(s, acts + more) == Run(Run(s, acts), more)
    decreases |acts|
  {
    if acts != [] {
      assert (acts + more)[1..] == acts[1..] + more;
      RunAppend(Reduce(s, acts[0]), acts[1..], more);
    } else {
      assert acts + more == more;
    }
  }

  function Running(s: State): Value { Prop(s.stream, "running") }
  function ErrorCode(s: State): Value { Prop(s.stream, "error") }
  function HandleError(s: State): Value { Prop(s.stream, "handleError") }
  function Restarting(s: State): Value { Prop(s.stream, "restarting") }

  /** The preloaded state of the entry point. Its stream object has fields no
      reducer keeps (`reconnecting`, the misspelt `restaring`, `snapshot`), and
      no `name`. */
  const Initial: State := State(
    Obj(map[
      "running" := STOPPED,
      "error" := Bool(false),
      "reconnecting" := Bool(false),
      "handleError" := Bool(false),
      "restaring" := Bool(false),
      "snapshot" := Obj(map["taking" := Bool(false), "failed" := Bool(false)])]),
    Bool(false),
    Undefined,
    Bool(false))

  /** The phase edges: which action moves `running` where. Every other action
      leaves a phase where it is. */
  lemma RunningEdges(p: Value, a: Action)
    requires IsPhase(p)
    ensures Kind(a) == Some(REQUEST_START) ==> RunningReducer(p, a) == STARTING
    ensures Kind(a) == Some(SET_STARTED) ==> RunningReducer(p, a) == RUNNING
    ensures Kind(a) == Some(REQUEST_STOP) ==> RunningReducer(p, a) == STOPPING
    ensures Kind(a) == Some(SET_STOPPED) || Kind(a) == Some(SET_ERROR) ==> RunningReducer(p, a) == STOPPED
    ensures RunningReducer(p, a) != p ==>
      Kind(a) in {Some(REQUEST_START), Some(SET_STARTED), Some(REQUEST_STOP), Some(SET_STOPPED), Some(SET_ERROR)}
  {
  }

  /** SET_STARTED leaves the stream running with no error and no handler. */
  lemma {:induction false} StartedClearsError(s: State)
    ensures Running(Reduce(s, SetStarted())) == RUNNING
    ensures ErrorCode(Reduce(s, SetStarted())) == Bool(false)
    ensures HandleError(Reduce(s, SetStarted())) == Bool(false)
  {
    ParseTypeName(SET_STARTED);
  }

  /** The error code becomes the payload of SET_ERROR; once set, only
      SET_STARTED (or a SET_ERROR carrying false) brings it back to false. */
  lemma {:induction false} ErrorTransitions(e: Value, a: Action)
    ensures Kind(a) == Some(SET_ERROR) ==> ErrorReducer(e, a) == Data(a)
    ensures Truthy(e) && ErrorReducer(e, a) == Bool(false) ==>
      Kind(a) == Some(SET_STARTED) || (Kind(a) == Some(SET_ERROR) && Data(a) == Bool(false))
    ensures e != Undefined && Kind(a) != Some(SET_ERROR) && Kind(a) != Some(SET_STARTED) ==> ErrorReducer(e, a) == e
  {
  }

  /** `handleError` becomes 'TRY_RECONNECT' on TRY_RECONNECT (whatever the target)
      and false on SET_STARTED or STOP_ERROR_HANDLING. */
  lemma {:induction false} HandleErrorTransitions(h: Value, a: Action)
    ensures Kind(a) == Some(TRY_RECONNECT) ==> HandleErrorReducer(h, a) == Str("TRY_RECONNECT")
    ensures Kind(a) == Some(SET_STARTED) || Kind(a) == Some(STOP_ERROR_HANDLING) ==> !Truthy(HandleErrorReducer(h, a))
    ensures Truthy(HandleErrorReducer(h, a)) ==> Kind(a) == Some(TRY_RECONNECT) || HandleErrorReducer(h, a) == h
  {
  }

  /** Once `restarting` is true (or a REQUEST_RESTART is dispatched), it stays
      true whatever follows. */
  lemma {:induction false} RestartingSticks(s: State, acts: seq<Action>)
    requires Restarting(s) == Bool(true) || exists i | 0 <= i < |acts| :: Kind(acts[i]) == Some(REQUEST_RESTART)
    ensures Restarting(Run(s, acts)) == Bool(true)
    decreases |acts|
  {
    if acts != [] {
      var s' := Reduce(s, acts[0]);
      if Restarting(s) == Bool(true) || Kind(acts[0]) == Some(REQUEST_RESTART) {
        assert Restarting(s') == Bool(true);
      } else {
        var i :| 0 <= i < |acts| && Kind(acts[i]) == Some(REQUEST_RESTART);
        assert Kind(acts[1..][i - 1]) == Some(REQUEST_RESTART);
      }
      RestartingSticks(s', acts[1..]);
    }
  }

  /** From the preloaded state, the first action already drops the stream's
      extra fields, and `restarting` starts out false because the preloaded
      object spells it `restaring`. */
  lemma {:induction false} InitialFirstAction(a: Action)
    ensures "snapshot" !in Reduce(Initial, a).stream.props
    ensures "restaring" !in Reduce(Initial, a).stream.props
    ensures "reconnecting" !in Reduce(Initial, a).stream.props
    ensures Restarting(Reduce(Initial, a)) == Bool(Kind(a) == Some(REQUEST_RESTART))
    ensures Kind(a) != Some(SET_NAME) ==> Reduce(Initial, a).name == Str("Unnamed")
  {
  }

  /** UPDATE_CONFIG merges: every key of the update wins, every other key of
      the old configuration is kept, nothing else appears. */
  lemma {:induction false} ConfigMerge(c: Value, a: Action, k: string)
    requires Kind(a) == Some(UPDATE_CONFIG)
    ensures ConfigReducer(c, a).Obj?
    ensures k in ConfigReducer(c, a).props <==> k in OwnProps(c) || k in OwnProps(Data(a))
    ensures k in OwnProps(Data(a)) ==> ConfigReducer(c, a).props[k] == OwnProps(Data(a))[k]
    ensures k !in OwnProps(Data(a)) && k in OwnProps(c) ==> ConfigReducer(c, a).props[k] == OwnProps(c)[k]
  {
  }

  /** Applying the same configuration update twice is the same as once. */
  lemma {:induction false} ConfigUpdateIdempotent(c: Value, a: Action)
    requires Kind(a) == Some(UPDATE_CONFIG)
    ensures ConfigReducer(ConfigReducer(c, a), a) == ConfigReducer(c, a)
  {
    var m := OwnProps(c) + OwnProps(Data(a));
    assert m + OwnProps(Data(a)) == m;
  }

  /** `name` follows SET_NAME; `connected` follows SET_CONNECTED/SET_DISCONNECTED. */
  lemma {:induction false} NameAndConnected(s: State, x: Value)
    ensures Reduce(s, SetName(x)).name == x
    ensures Reduce(s, SetConnected()).connected == Bool(true)
    ensures Reduce(s, SetDisconnected()).connected == Bool(false)
  {
    ParseTypeName(SET_NAME);
    ParseTypeName(SET_CONNECTED);
    ParseTypeName(SET_DISCONNECTED);
  }
  /** The redux store: the current state, and (for the proofs) the actions
      dispatched since it was created. */
  class Store {
    ghost const initial: State
    var state: State
    ghost var log: seq<Action>

    ghost predicate Valid()
      reads this
    {
      state == Run(initial, log)
    }

    constructor (preloaded: State)
      ensures Valid() && state == preloaded && initial == preloaded && log == []
    {
      initial := preloaded;
      state := preloaded;
      log := [];
    }

    /** `dispatch` of a plain action: every reducer runs once. */
    method Dispatch(a: Action)
      requires Valid()
      modifies this
      ensures Valid()
      ensures state == Reduce(old(state), a) && log == old(log) + [a]
    {
      RunAppend(initial, log, [a]);
      state := Reduce(state, a);
      log := log + [a];
    }

    /** Dispatches the actions one after another. */
    method DispatchAll(acts: seq<Action>)
      requires Valid()
      modifies this
      ensures Valid()
      ensures state == Run(old(state), acts) && log == old(log) + acts
    {
      ghost var s0 := state;
      ghost var log0 := log;
      for k := 0 to |acts|
        invariant Valid()
        invariant log == log0 + acts[..k]
        invariant state == Run(s0, acts[..k])
      {
        RunAppend(s0, acts[..k], [acts[k]]);
        assert acts[..k + 1] == acts[..k] + [acts[k]];
        Dispatch(acts[k]);
      }
      assert acts[..|acts|] == acts;
    }
  }
}
