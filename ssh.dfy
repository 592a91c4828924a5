/** The client side of the tunnel broker: the `connect`, `disconnect` and
    `restartTunnels` thunks, and the IPC client whose `connected` flag and
    pending requests the IPC events update. The store keeps no `ssh` slice,
    so the thunks take `ssh.status` as an argument. */
module Ssh {
  import opened Values
  import opened Actions

  const CONNECTED: Value := Str("CONNECTED")
  const CONNECTING: Value := Str("CONNECTING")
  const DISCONNECTED: Value := Str("DISCONNECTED")

  const DisabledMessage: string := "SSH is disabled."
  const ConflictMessage: string := "A command which is currently being executed is in conflict with the current one."
  const InvalidPortsMessage: string := "Invalid Ports!"
  const UnreachableMessage: string := "Cannot connect to the SSH-Manager."
  const TimeoutMessage: string := "IPC Timeout. Can't reach SSH-Manager."
  const LostMessage: string := "Connection to SSH-Manager lost!"
  const NotConnectedMessage: string := "Can't disconnect the SSH-Tunnels right now, please try later."
  const RestartedMessage: string := "SSH Tunnels successfully restarted."

  /* ------------------------------------------------------------------ */
  /*  Requests and their settlement                                      */
  /* ------------------------------------------------------------------ */

  /** The 'create_tunnel' message for one tunnel; host, user and ssh port
      come from `settings`, what `getConfig()` returns. The client never sends
      a `localHost`. */
  function CreatePayload(id: int, settings: Value, localPort: Value, remotePort: Value): (p: Value)
    ensures Prop(p, "localPort") == localPort && Prop(p, "remotePort") == remotePort
    ensures Prop(p, "id") == Num(id) && Prop(p, "localHost") == Undefined
    ensures Prop(p, "reverse") == Bool(true) && Prop(p, "serverAliveInterval") == Num(30)
  {
    Obj(map[
      "id" := Num(id),
      "host" := Prop(settings, "sshMaster"),
      "username" := Prop(settings, "sshUser"),
      "sshPort" := Prop(settings, "sshPort"),
      "localPort" := localPort,
      "remotePort" := remotePort,
      "serverAliveInterval" := Num(30),
      "reverse" := Bool(true)])
  }

  /** The 'close_tunnel' message. */
  function ClosePayload(id: int, port: Value): (p: Value)
    ensures Prop(p, "port") == port && Prop(p, "id") == Num(id)
  {
    Obj(map["id" := Num(id), "port" := port])
  }

  datatype RequestKind = CreateRequest | CloseRequest

  /** A request sent to the manager: the promise's state and the listeners
      and timer it left behind. */
  datatype Request = Request(
    id: int,
    kind: RequestKind,
    settled: Option<Outcome>,
    errorListener: bool,   // its once('error') listener on the channel is still registered
    timerArmed: bool)      // its 2000 ms timeout has neither fired nor been cleared

  /** What can happen to a pending request. */
  datatype IpcEvent =
    | Reply(name: string, data: Value)   // the manager emits `name` with `data`
    | ChannelError(error: Value)         // the IPC channel reports an error
    | TimerFired                         // the request's own 2000 ms timeout

  function SuccessName(id: int): string { "success" + IntToString(id) }
  function ErrorName(id: int): string { "error" + IntToString(id) }

  /** The reply names of different requests never collide. */
  lemma {:induction false} ReplyNamesDistinct(a: int, b: int)
    ensures SuccessName(a) == SuccessName(b) ==> a == b
    ensures ErrorName(a) == ErrorName(b) ==> a == b
    ensures SuccessName(a) != ErrorName(b)
  {
    if SuccessName(a) == SuccessName(b) {
      assert SuccessName(a)[7..] == IntToString(a);
      assert SuccessName(b)[7..] == IntToString(b);
      IntToStringInjective(a, b);
    }
    if ErrorName(a) == ErrorName(b) {
      assert ErrorName(a)[5..] == IntToString(a);
      assert ErrorName(b)[5..] == IntToString(b);
      IntToStringInjective(a, b);
    }
    assert SuccessName(a)[0] == 's' && ErrorName(b)[0] == 'e';
  }

  /** One event's effect on one request. `createTunnel` resolves with the
      replied port and rejects with the error; `closeTunnel` resolves and
      rejects with nothing except on its timeout. */
  function Step(r: Request, ev: IpcEvent): Request {
    match ev
    case Reply(name, data) =>
      if r.settled.Some? then r
      else if name == SuccessName(r.id) then
        r.(settled := Some(Resolved(if r.kind == CreateRequest then data else Undefined)))
      else if name == ErrorName(r.id) then
        r.(settled := Some(Rejected(if r.kind == CreateRequest then data else Undefined)))
      else r
    case ChannelError(e) =>
      if !r.errorListener then r
      else r.(errorListener := false, timerArmed := false,
        settled := if r.settled.Some? then r.settled
          else Some(Rejected(if r.kind == CreateRequest then e else Undefined)))
    case TimerFired =>
      if !r.timerArmed then r
      else r.(timerArmed := false,
        settled := if r.settled.Some? then r.settled else Some(Rejected(Str(TimeoutMessage))))
  }

  function StepAll(r: Request, evs: seq<IpcEvent>): Request
    decreases |evs|
  {
    if evs == [] then r else StepAll(Step(r, evs[0]), evs[1..])
  }

  /** What settles a still-pending request: its own reply names, a channel
      error while its listener is registered, or its armed timer. */
  predicate Settles(r: Request, ev: IpcEvent) {
    match ev
    case Reply(name, _) => name == SuccessName(r.id) || name == ErrorName(r.id)
    case ChannelError(_) => r.errorListener
    case TimerFired => r.timerArmed
  }

  /** A request settles once: after the first event that settles it, its
      outcome never changes; before it, events leave it pending. */
  lemma {:induction false} SettlesOnce(r: Request, evs: seq<IpcEvent>)
    requires r.settled.Some?
    ensures StepAll(r, evs).settled == r.settled
    decreases |evs|
  {
    if evs != [] {
      SettlesOnce(Step(r, evs[0]), evs[1..]);
    }
  }

  lemma {:induction false} FirstEventWins(r: Request, ev: IpcEvent, later: seq<IpcEvent>)
    requires r.settled.None? && Settles(r, ev)
    ensures Step(r, ev).settled.Some?
    ensures StepAll(r, [ev] + later).settled == Step(r, ev).settled
  {
    assert ([ev] + later)[1..] == later;
    SettlesOnce(Step(r, ev), later);
  }

  /** An event that does not concern a pending request leaves it pending. */
  lemma {:induction false} OtherEventsIgnored(r: Request, ev: IpcEvent)
    requires r.settled.None? && !Settles(r, ev)
    ensures Step(r, ev).settled.None?
  {
  }

  /** The other request's reply names do not touch this one. */
  lemma {:induction false} RepliesCorrelateById(r: Request, other: int, data: Value)
    requires other != r.id
    ensures Step(r, Reply(SuccessName(other), data)) == r
    ensures Step(r, Reply(ErrorName(other), data)) == r
  {
    ReplyNamesDistinct(other, r.id);
    ReplyNamesDistinct(r.id, other);
  }

  /* ------------------------------------------------------------------ */
  /*  The IPC client                                                     */
  /* ------------------------------------------------------------------ */

  /** The module state of the client: the `connected` flag and the requests
      sent to the manager. */
  class IpcClient {
    var connected: bool
    var requests: seq<Request>

    constructor ()
      ensures !connected && requests == []
    {
      connected := false;
      requests := [];
    }

    /** `ipcConnected`: sets the flag; `connect` runs again only when a
        reconnect was asked for. */
    method OnConnect(willReconnect: Value) returns (reconnect: bool)
      modifies this
      ensures connected && requests == old(requests)
      ensures reconnect == Truthy(willReconnect)
    {
      connected := true;
      reconnect := Truthy(willReconnect);
    }

    /** `ipcDisconnected`: a no-op unless connected; then the flag is cleared
        and a reconnect is asked for, with the error. */
    method OnDisconnect() returns (dispatched: seq<Action>)
      modifies this
      ensures !connected && requests == old(requests)
      ensures !old(connected) ==> dispatched == []
      ensures old(connected) ==> dispatched == [SetSshWillReconnect(Undefined), SetSshError(Str(LostMessage))]
    {
      if !connected {
        return [];
      }
      connected := false;
      dispatched := [SetSshWillReconnect(Undefined), SetSshError(Str(LostMessage))];
    }

    /** `createTunnel` / `closeTunnel` send a request and register its
        listeners and timer. */
    method Send(id: int, kind: RequestKind) returns (index: nat)
      modifies this
      ensures requests == old(requests) + [Request(id, kind, None, true, true)]
      ensures index == |old(requests)| && connected == old(connected)
    {
      index := |requests|;
      requests := requests + [Request(id, kind, None, true, true)];
    }

    /** A reply or a channel error reaches every request's listeners. Timers
        are per request and fire through `Expire`. */
    method Deliver(ev: IpcEvent)
      requires !ev.TimerFired?
      modifies this
      ensures |requests| == |old(requests)|
      ensures forall i | 0 <= i < |requests| :: requests[i] == Step(old(requests)[i], ev)
      ensures connected == old(connected)
    {
      requests := seq(|requests|, i requires 0 <= i < |requests| reads this => Step(requests[i], ev));
    }

    /** The timeout of one request fires. */
    method Expire(index: nat)
      modifies this
      ensures index < |old(requests)| ==> requests == old(requests)[index := Step(old(requests)[index], TimerFired)]
      ensures index >= |old(requests)| ==> requests == old(requests)
      ensures connected == old(connected)
    {
      if index < |requests| {
        requests := requests[index := Step(requests[index], TimerFired)];
      }
    }
  }

  /** Delivering an event never changes a settled request's outcome. */
  lemma {:induction false} DeliverKeepsSettled(old_: seq<Request>, new_: seq<Request>, ev: IpcEvent)
    requires |new_| == |old_|
    requires forall i | 0 <= i < |new_| :: new_[i] == Step(old_[i], ev)
    ensures forall i | 0 <= i < |old_| && old_[i].settled.Some? :: new_[i].settled == old_[i].settled
  {
  }

  /* ------------------------------------------------------------------ */
  /*  The connect thunk                                                  */
  /* ------------------------------------------------------------------ */

  /** `isIpcConnected()`: already connected, or, while not connected, the
      channel comes up, fails, or neither happens and the promise never settles. */
  datatype IpcCheck = AlreadyUp | CameUp | ChannelFailed | StillDown

  /** What the world answers, in the order `connect` asks. */
  datatype ConnectEnv = ConnectEnv(
    firstCheck: IpcCheck,
    ports: Outcome,           // `getPorts()`: Resolved(ports) or Rejected(reason)
    secondCheck: IpcCheck,
    sshId: int, sshReply: IpcEvent,
    camId: int, camReply: IpcEvent)

  /** What a thunk of this module did: the actions, the messages sent to the
      manager, and the outcome. */
  datatype SshRun = SshRun(dispatched: seq<Action>, sent: seq<Value>, outcome: Outcome)

  /** How a tunnel promise settles on its first event. */
  function Settlement(id: int, kind: RequestKind, ev: IpcEvent): Outcome {
    var r := Step(Request(id, kind, None, true, true), ev);
    if r.settled.Some? then r.settled.value else Pending
  }

  /** The failure path of the chain: SET_SSH_ERROR and the same rejection. */
  function Fail(prefix: seq<Action>, sent: seq<Value>, error: Value): SshRun {
    SshRun(prefix + [SetSshError(error)], sent, Rejected(error))
  }

  /** The actions of one `isIpcConnected()`: only a failure dispatches. */
  function CheckActions(c: IpcCheck): seq<Action> {
    if c == ChannelFailed then [SetSshWillReconnect(Undefined)] else []
  }

  /** `connect`. `settings` is what `getConfig()` returns, `status` is
      `ssh.status`, `config` the store's configuration when the chain starts. */
  function Connect(settings: Value, status: Value, config: Value, env: ConnectEnv): (r: SshRun)
    ensures !Truthy(Prop(settings, "ssh")) ==> r == SshRun([], [], Rejected(Str(DisabledMessage)))
    ensures Truthy(Prop(settings, "ssh")) && status == CONNECTED ==> r == SshRun([], [], Resolved(Undefined))
    ensures Truthy(Prop(settings, "ssh")) && status == CONNECTING ==> r == SshRun([], [], Rejected(Str(ConflictMessage)))
    ensures Truthy(Prop(settings, "ssh")) && status != CONNECTED && status != CONNECTING ==> r == Chain(settings, config, env)
  {
    if !Truthy(Prop(settings, "ssh")) then SshRun([], [], Rejected(Str(DisabledMessage)))
    else if status == CONNECTED then SshRun([], [], Resolved(Undefined))
    else if status == CONNECTING then SshRun([], [], Rejected(Str(ConflictMessage)))
    else Chain(settings, config, env)
  }

  /** The shape every run of the chain has: it starts with SET_SSH_CONNECTING;
      a rejection ends with SET_SSH_ERROR carrying the same reason; a
      resolution ends with the new remote ports and SET_SSH_CONNECTED. */
  predicate ChainShape(r: SshRun) {
    && |r.dispatched| >= 1 && r.dispatched[0] == SetSshConnecting()
    && (r.outcome.Resolved? || r.outcome.Rejected? || r.outcome.Pending?)
    && (r.outcome.Rejected? ==> |r.dispatched| >= 2 && r.dispatched[|r.dispatched| - 1] == SetSshError(r.outcome.reason))
    && (r.outcome.Resolved? ==>
      && r.outcome == Resolved(Undefined) && |r.dispatched| >= 3
      && r.dispatched[|r.dispatched| - 1] == SetSshConnected()
      && Kind(r.dispatched[|r.dispatched| - 2]) == Some(SET_SSH_REMOTE_PORTS))
  }

  /** The chain after SET_SSH_CONNECTING: connectivity, ports, connectivity
      again, then the two tunnels in order. There is no third check: the step
      after the camera tunnel returns `isIpcConnected` without calling it. */
  function Chain(settings: Value, config: Value, env: ConnectEnv): (r: SshRun)
    ensures ChainShape(r)
    ensures |r.sent| <= 2
    ensures |r.sent| >= 1 ==> Prop(r.sent[0], "localPort") == Prop(config, "sshPort")
    ensures |r.sent| == 2 ==> Prop(r.sent[1], "localPort") == Prop(config, "camPort")
    ensures |r.sent| == 2 ==> Settlement(env.sshId, CreateRequest, env.sshReply).Resolved?
    ensures r.outcome.Resolved? ==> |r.sent| == 2 && Settlement(env.camId, CreateRequest, env.camReply).Resolved?
  {
    var d := [SetSshConnecting()] + CheckActions(env.firstCheck);
    if env.firstCheck == ChannelFailed then Fail(d, [], Str(UnreachableMessage))
    else if env.firstCheck == StillDown || env.ports.Pending? then SshRun(d, [], Pending)
    else if !env.ports.Resolved? then Fail(d, [], PortsFailure(env.ports))
    else
      var ports := env.ports.value;
      if ports.Undefined? || ports.Null? then
        Fail(d, [], Str("TypeError: Cannot read properties of " + ToStr(ports) + " (reading 'sshForwardPort')"))
      else if !Prop(ports, "sshForwardPort").Num? || !Prop(ports, "camForwardPort").Num? then
        Fail(d, [], Str(InvalidPortsMessage))
      else
        var d := d + CheckActions(env.secondCheck);
        if env.secondCheck == ChannelFailed then Fail(d, [], Str(UnreachableMessage))
        else if env.secondCheck == StillDown then SshRun(d, [], Pending)
        else Tunnels(d, settings, config, ports, env)
  }

  /** The two `createTunnel` requests, ssh first, camera second. */
  function Tunnels(d: seq<Action>, settings: Value, config: Value, ports: Value, env: ConnectEnv): (r: SshRun)
    requires |d| >= 1 && d[0] == SetSshConnecting()
    ensures ChainShape(r)
    ensures |r.sent| >= 1 && Prop(r.sent[0], "localPort") == Prop(config, "sshPort")
    ensures |r.sent| <= 2
    ensures |r.sent| == 2 ==> Prop(r.sent[1], "localPort") == Prop(config, "camPort")
    ensures |r.sent| == 2 ==> Settlement(env.sshId, CreateRequest, env.sshReply).Resolved?
    ensures r.outcome.Resolved? ==> |r.sent| == 2 && Settlement(env.camId, CreateRequest, env.camReply).Resolved?
    ensures r.outcome.Resolved? ==> r.dispatched == d + [SetSshRemotePorts(Obj(map[
      "sshForwardPort" := Settlement(env.sshId, CreateRequest, env.sshReply).value,
      "camForwardPort" := Settlement(env.camId, CreateRequest, env.camReply).value])), SetSshConnected()]
  {
    var first := CreatePayload(env.sshId, settings, Prop(config, "sshPort"), Prop(ports, "sshForwardPort"));
    var sshDone := Settlement(env.sshId, CreateRequest, env.sshReply);
    if sshDone.Pending? then SshRun(d, [first], Pending)
    else if !sshDone.Resolved? then Fail(d, [first], sshDone.reason)
    else
      var second := CreatePayload(env.camId, settings, Prop(config, "camPort"), Prop(ports, "camForwardPort"));
      var camDone := Settlement(env.camId, CreateRequest, env.camReply);
      if camDone.Pending? then SshRun(d, [first, second], Pending)
      else if !camDone.Resolved? then Fail(d, [first, second], camDone.reason)
      else
        var newPorts := Obj(map["sshForwardPort" := sshDone.value, "camForwardPort" := camDone.value]);
        assert Kind(SetSshRemotePorts(newPorts)) == Some(SET_SSH_REMOTE_PORTS) by { ArgumentCreators(newPorts, Undefined, Undefined); }
        SshRun(d + [SetSshRemotePorts(newPorts), SetSshConnected()], [first, second], Resolved(Undefined))
  }

  function PortsFailure(o: Outcome): Value {
    match o
    case Rejected(e) => e
    case Thrown(m) => Str(m)
    case _ => Undefined
  }

  /** Ports that are not both numbers stop the chain before any tunnel is
      asked for. */
  lemma {:induction false} InvalidPortsRejected(settings: Value, status: Value, config: Value, env: ConnectEnv)
    requires Truthy(Prop(settings, "ssh")) && status != CONNECTED && status != CONNECTING
    requires env.firstCheck == AlreadyUp || env.firstCheck == CameUp
    requires env.ports.Resolved? && env.ports.value.Obj?
    requires !Prop(env.ports.value, "sshForwardPort").Num? || !Prop(env.ports.value, "camForwardPort").Num?
    ensures Connect(settings, status, config, env) ==
      SshRun([SetSshConnecting(), SetSshError(Str(InvalidPortsMessage))], [], Rejected(Str(InvalidPortsMessage)))
  {
  }

  /* ------------------------------------------------------------------ */
  /*  disconnect and restartTunnels                                      */
  /* ------------------------------------------------------------------ */

  /** `disconnect` as written: after SET_SSH_DISCONNECTING it calls the
      configuration object as a function, which throws; no tunnel is closed. */
  function DisconnectAsWritten(status: Value): SshRun {
    if status != CONNECTED then SshRun([], [], Rejected(Str(NotConnectedMessage)))
    else SshRun([SetSshDisconnecting(Undefined)], [], Thrown("TypeError: getState(...).config is not a function"))
  }

  /** What the world answers, in the order the intended `disconnect` asks. */
  datatype DisconnectEnv = DisconnectEnv(check: IpcCheck, sshId: int, sshReply: IpcEvent, camId: int, camReply: IpcEvent)

  /** `disconnect` as intended: close the ssh tunnel, then the camera tunnel;
      success and failure both end with SET_SSH_DISCONNECTED. */
  function Disconnect(status: Value, config: Value, env: DisconnectEnv): (r: SshRun)
    ensures status != CONNECTED ==> r == SshRun([], [], Rejected(Str(NotConnectedMessage)))
    ensures status == CONNECTED ==>
      && |r.dispatched| >= 1 && r.dispatched[0] == SetSshDisconnecting(Undefined)
      && (r.outcome != Pending ==> |r.dispatched| >= 2 && r.dispatched[|r.dispatched| - 1] == SetSshDisconnected())
      && (r.outcome.Resolved? ==> r.sent == [ClosePayload(env.sshId, Prop(config, "sshPort")), ClosePayload(env.camId, Prop(config, "camPort"))])
    ensures status == CONNECTED && r.outcome.Rejected? ==>
      (r.outcome.reason == Str(UnreachableMessage) <==> env.check == ChannelFailed)
    ensures status == CONNECTED && r.outcome.Rejected? && env.check != ChannelFailed ==>
      r.outcome.reason == Undefined
      || (r.outcome.reason == Str(TimeoutMessage) && (env.sshReply == TimerFired || env.camReply == TimerFired))
    ensures status == CONNECTED && env.check == StillDown ==> r.outcome == Pending && r.sent == []
  {
    if status != CONNECTED then SshRun([], [], Rejected(Str(NotConnectedMessage)))
    else
      var d := [SetSshDisconnecting(Undefined)] + CheckActions(env.check);
      var done := [SetSshDisconnected()];
      if env.check == ChannelFailed then SshRun(d + done, [], Rejected(Str(UnreachableMessage)))
      else if env.check == StillDown then SshRun(d, [], Pending)
      else
        var first := ClosePayload(env.sshId, Prop(config, "sshPort"));
        var sshDone := Settlement(env.sshId, CloseRequest, env.sshReply);
        if sshDone.Pending? then SshRun(d, [first], Pending)
        else if sshDone.Rejected? then SshRun(d + done, [first], sshDone)
        else
          var second := ClosePayload(env.camId, Prop(config, "camPort"));
          var camDone := Settlement(env.camId, CloseRequest, env.camReply);
          if camDone.Pending? then SshRun(d, [first, second], Pending)
          else if camDone.Rejected? then SshRun(d + done, [first, second], camDone)
          else SshRun(d + done, [first, second], Resolved(Undefined))
  }

  /** As written, a connected disconnect sends nothing to the manager and never
      reaches SET_SSH_DISCONNECTED; the intended one closes both tunnels when
      the manager answers. */
  lemma {:induction false} DisconnectNeverCloses(config: Value, env: DisconnectEnv)
    requires env.check == AlreadyUp || env.check == CameUp
    requires env.sshReply == Reply(SuccessName(env.sshId), Undefined)
    requires env.camReply == Reply(SuccessName(env.camId), Undefined)
    ensures DisconnectAsWritten(CONNECTED).sent == []
    ensures SetSshDisconnected() !in DisconnectAsWritten(CONNECTED).dispatched
    ensures Disconnect(CONNECTED, config, env).outcome == Resolved(Undefined)
    ensures |Disconnect(CONNECTED, config, env).sent| == 2
  {
    PlainCreators();
    assert DisconnectAsWritten(CONNECTED).dispatched == [SetSshDisconnecting(Undefined)];
    assert Kind(SetSshDisconnecting(Undefined)) != Kind(SetSshDisconnected());
  }

  /** `restartTunnels` as written: the disconnect is dispatched (and throws
      when connected); its continuation dispatches the `connect` factory
      itself, which only builds a thunk, so no connect runs. */
  function RestartTunnelsAsWritten(status: Value): (r: SshRun) {
    var d := DisconnectAsWritten(status);
    if d.outcome.Thrown? then d else SshRun(d.dispatched, [], Resolved(Undefined))
  }

  /** `ssh.status` when the connect of a restart begins: a settled
      disconnect from CONNECTED has dispatched SET_SSH_DISCONNECTED; a refused
      one changed nothing. */
  function StatusAfterDisconnect(status: Value): (after: Value)
    ensures after != CONNECTED
    ensures status != CONNECTED ==> after == status
  {
    if status == CONNECTED then DISCONNECTED else status
  }

  /** `restartTunnels` as intended: `connect()` runs once the disconnect has
      settled, either way (`.then(connect, connect)`), with the status the
      disconnect left; a resolved connect becomes the restart message and a
      rejected one is passed on. The intended thunk returns this chain. */
  function RestartTunnels(status: Value, settings: Value, config: Value, denv: DisconnectEnv, cenv: ConnectEnv): (r: SshRun)
  {
    var d := Disconnect(status, config, denv);
    if d.outcome.Pending? then d
    else
      var c := Connect(settings, StatusAfterDisconnect(status), config, cenv);
      SshRun(d.dispatched + c.dispatched, d.sent + c.sent,
        if c.outcome.Resolved? then Resolved(Str(RestartedMessage)) else c.outcome)
  }

  /** While the disconnect is pending, nothing of the connect happens: no
      SET_SSH_CONNECTING, no tunnel request, and the restart stays pending. */
  lemma {:induction false} RestartWaitsForDisconnect(status: Value, settings: Value, config: Value, denv: DisconnectEnv, cenv: ConnectEnv)
    requires Disconnect(status, config, denv).outcome.Pending?
    ensures RestartTunnels(status, settings, config, denv, cenv).outcome.Pending?
    ensures SetSshConnecting() !in RestartTunnels(status, settings, config, denv, cenv).dispatched
    ensures RestartTunnels(status, settings, config, denv, cenv).sent <=
      [ClosePayload(denv.sshId, Prop(config, "sshPort")), ClosePayload(denv.camId, Prop(config, "camPort"))]
  {
    var d := Disconnect(status, config, denv);
    PlainCreators();
    assert status == CONNECTED;
    assert d.dispatched == [SetSshDisconnecting(Undefined)] + CheckActions(denv.check);
    assert forall a | a in d.dispatched :: Kind(a) != Kind(SetSshConnecting());
  }

  /** Once the disconnect has settled, the restart resolves with its message
      exactly when the connect resolves, and otherwise ends as the connect
      does; the connect's actions and requests follow the disconnect's. */
  lemma {:induction false} RestartFollowsConnect(status: Value, settings: Value, config: Value, denv: DisconnectEnv, cenv: ConnectEnv)
    requires !Disconnect(status, config, denv).outcome.Pending?
    ensures var r := RestartTunnels(status, settings, config, denv, cenv);
      var c := Connect(settings, StatusAfterDisconnect(status), config, cenv);
      && (r.outcome == Resolved(Str(RestartedMessage)) <==> c.outcome.Resolved?)
      && (!c.outcome.Resolved? ==> r.outcome == c.outcome)
      && r.sent[|Disconnect(status, config, denv).sent|..] == c.sent
      && r.dispatched[|Disconnect(status, config, denv).dispatched|..] == c.dispatched
  {
    var c := Connect(settings, StatusAfterDisconnect(status), config, cenv);
    assert c.outcome.Resolved? ==> c.outcome == Resolved(Undefined) by {
      if c.outcome.Resolved? && StatusAfterDisconnect(status) != CONNECTING {
        assert ChainShape(c);
      }
    }
  }

  /** The intended disconnect from CONNECTED when the manager answers both
      close requests. */
  lemma {:induction false} DisconnectAnswered(config: Value, env: DisconnectEnv)
    requires env.check == AlreadyUp || env.check == CameUp
    requires env.sshReply == Reply(SuccessName(env.sshId), Undefined)
    requires env.camReply == Reply(SuccessName(env.camId), Undefined)
    ensures Disconnect(CONNECTED, config, env) == SshRun(
      [SetSshDisconnecting(Undefined), SetSshDisconnected()],
      [ClosePayload(env.sshId, Prop(config, "sshPort")), ClosePayload(env.camId, Prop(config, "camPort"))],
      Resolved(Undefined))
  {
    assert Settlement(env.sshId, CloseRequest, env.sshReply) == Resolved(Undefined);
    assert Settlement(env.camId, CloseRequest, env.camReply) == Resolved(Undefined);
  }

  /** The connect chain from DISCONNECTED when the channel is up, the ports
      are numbers and the manager answers both create requests. */
  lemma {:induction false} ConnectAnswered(settings: Value, config: Value, env: ConnectEnv, ports: Value, sshPort: Value, camPort: Value)
    requires Truthy(Prop(settings, "ssh"))
    requires env.firstCheck == AlreadyUp || env.firstCheck == CameUp
    requires env.secondCheck == AlreadyUp || env.secondCheck == CameUp
    requires env.ports == Resolved(ports)
    requires Prop(ports, "sshForwardPort").Num? && Prop(ports, "camForwardPort").Num?
    requires env.sshReply == Reply(SuccessName(env.sshId), sshPort)
    requires env.camReply == Reply(SuccessName(env.camId), camPort)
    ensures Connect(settings, DISCONNECTED, config, env) == SshRun(
      [SetSshConnecting(), SetSshRemotePorts(Obj(map["sshForwardPort" := sshPort, "camForwardPort" := camPort])), SetSshConnected()],
      [CreatePayload(env.sshId, settings, Prop(config, "sshPort"), Prop(ports, "sshForwardPort")),
       CreatePayload(env.camId, settings, Prop(config, "camPort"), Prop(ports, "camForwardPort"))],
      Resolved(Undefined))
  {
    assert Settlement(env.sshId, CreateRequest, env.sshReply) == Resolved(sshPort);
    assert Settlement(env.camId, CreateRequest, env.camReply) == Resolved(camPort);
    assert Connect(settings, DISCONNECTED, config, env) == Chain(settings, config, env);
  }

  /** From CONNECTED, with the manager answering every request: both tunnels
      are closed, then both are requested again, and the restart resolves. */
  lemma {:induction false} RestartFromConnected(settings: Value, config: Value, denv: DisconnectEnv, cenv: ConnectEnv, ports: Value, sshPort: Value, camPort: Value)
    requires denv.check == AlreadyUp || denv.check == CameUp
    requires denv.sshReply == Reply(SuccessName(denv.sshId), Undefined)
    requires denv.camReply == Reply(SuccessName(denv.camId), Undefined)
    requires Truthy(Prop(settings, "ssh"))
    requires cenv.firstCheck == AlreadyUp || cenv.firstCheck == CameUp
    requires cenv.secondCheck == AlreadyUp || cenv.secondCheck == CameUp
    requires cenv.ports == Resolved(ports)
    requires Prop(ports, "sshForwardPort").Num? && Prop(ports, "camForwardPort").Num?
    requires cenv.sshReply == Reply(SuccessName(cenv.sshId), sshPort)
    requires cenv.camReply == Reply(SuccessName(cenv.camId), camPort)
    ensures var r := RestartTunnels(CONNECTED, settings, config, denv, cenv);
      && r.outcome == Resolved(Str(RestartedMessage))
      && r.sent == [
        ClosePayload(denv.sshId, Prop(config, "sshPort")),
        ClosePayload(denv.camId, Prop(config, "camPort")),
        CreatePayload(cenv.sshId, settings, Prop(config, "sshPort"), Prop(ports, "sshForwardPort")),
        CreatePayload(cenv.camId, settings, Prop(config, "camPort"), Prop(ports, "camForwardPort"))]
      && r.dispatched == [
        SetSshDisconnecting(Undefined), SetSshDisconnected(), SetSshConnecting(),
        SetSshRemotePorts(Obj(map["sshForwardPort" := sshPort, "camForwardPort" := camPort])),
        SetSshConnected()]
  {
    DisconnectAnswered(config, denv);
    ConnectAnswered(settings, config, cenv, ports, sshPort, camPort);
    assert StatusAfterDisconnect(CONNECTED) == DISCONNECTED;
  }

  /** As written, restarting the tunnels never asks the manager for a tunnel,
      and dispatches nothing unless the tunnels were connected. */
  lemma {:induction false} RestartTunnelsNeverConnects(status: Value)
    ensures RestartTunnelsAsWritten(status).sent == []
    ensures status != CONNECTED ==> RestartTunnelsAsWritten(status).dispatched == []
  {
  }
}
