/** The tunnel broker: a separate process that owns the autossh tunnels and
    answers 'create_tunnel' and 'close_tunnel' requests over IPC. */
module SshManager {
  import opened Values
  import Ssh

  /** An emit back to the requesting socket. */
  datatype Emit = Emit(name: string, data: Value)

  /** `generateRelyFunction`: the reply event is the message glued to the id. */
  function ReplyName(message: string, id: Value): string {
    message + ToStr(id)
  }

  /** A reply the broker sends for a numeric id settles exactly the client
      request with that id, and no other. */
  lemma {:induction false} ReplyReachesItsRequest(r: Ssh.Request, id: int, data: Value)
    requires r.settled.None?
    ensures var s := Ssh.Step(r, Ssh.Reply(ReplyName("success", Num(id)), data));
      s.settled.Some? <==> id == r.id
    ensures var s := Ssh.Step(r, Ssh.Reply(ReplyName("error", Num(id)), data));
      s.settled.Some? <==> id == r.id
    ensures id == r.id ==> Ssh.Step(r, Ssh.Reply(ReplyName("success", Num(id)), data)).settled.value.Resolved?
    ensures id == r.id ==> Ssh.Step(r, Ssh.Reply(ReplyName("error", Num(id)), data)).settled.value.Rejected?
  {
    assert ReplyName("success", Num(id)) == Ssh.SuccessName(id);
    assert ReplyName("error", Num(id)) == Ssh.ErrorName(id);
    Ssh.ReplyNamesDistinct(id, r.id);
    Ssh.ReplyNamesDistinct(r.id, id);
  }

  /* ------------------------------------------------------------------ */
  /*  The tunnels table                                                  */
  /* ------------------------------------------------------------------ */

  /** An entry of the table: the placeholder written while a tunnel is being
      created, or the autossh instance with its `info`. */
  datatype Entry =
    | Placeholder(localHost: Value)
    | Live(localHost: Value, localPort: Value, remotePort: Value)

  /** `tunnel.info.remotePort`; a placeholder has none. */
  function RemotePort(e: Entry): Value {
    if e.Live? then e.remotePort else Undefined
  }

  /** Object keys are strings: the table is indexed by the port's text. */
  function Key(port: Value): string { ToStr(port) }

  /** What one handler invocation did. */
  datatype Handled = Handled(
    tunnels: map<string, Entry>,
    reply: Option<Emit>,     // the emit sent now, if any
    killed: Option<Entry>,   // the tunnel killed, if any
    threw: bool)             // an exception escaped the handler

  /** An existing entry answers the request when its host is 'localhost' or
      the requested one. */
  predicate Reuses(tunnels: map<string, Entry>, data: Value) {
    var key := Key(Prop(data, "localPort"));
    key in tunnels && (tunnels[key].localHost == Str("localhost") || tunnels[key].localHost == Prop(data, "localHost"))
  }

  /** The 'create_tunnel' handler up to starting the creation. */
  function Create(tunnels: map<string, Entry>, data: Value): (h: Handled)
    ensures h.killed == None && !h.threw
    ensures Reuses(tunnels, data) ==> (h.tunnels == tunnels
      && h.reply == Some(Emit(ReplyName("success", Prop(data, "id")), RemotePort(tunnels[Key(Prop(data, "localPort"))]))))
    ensures !Reuses(tunnels, data) ==> (h.reply == None
      && h.tunnels == tunnels[Key(Prop(data, "localPort")) := Placeholder(Or(Prop(data, "localHost"), Str("localhost")))])
  {
    var key := Key(Prop(data, "localPort"));
    if Reuses(tunnels, data) then
      Handled(tunnels, Some(Emit(ReplyName("success", Prop(data, "id")), RemotePort(tunnels[key]))), None, false)
    else
      Handled(tunnels[key := Placeholder(Or(Prop(data, "localHost"), Str("localhost")))], None, None, false)
  }

  /** The creation resolved with the autossh instance `tunnel`: it is stored
      under its own local port and its remote port is replied. */
  function Succeeded(tunnels: map<string, Entry>, data: Value, tunnel: Entry): (h: Handled)
    requires tunnel.Live?
    ensures h.tunnels == tunnels[Key(tunnel.localPort) := tunnel]
    ensures h.reply == Some(Emit(ReplyName("success", Prop(data, "id")), tunnel.remotePort))
    ensures h.killed == None && !h.threw
  {
    Handled(tunnels[Key(tunnel.localPort) := tunnel], Some(Emit(ReplyName("success", Prop(data, "id")), tunnel.remotePort)), None, false)
  }

  /** The creation rejected with `reason`: the error is replied and the
      requested port's entry removed. */
  function Failed(tunnels: map<string, Entry>, data: Value, reason: Value): (h: Handled)
    ensures h.tunnels == tunnels - {Key(Prop(data, "localPort"))}
    ensures h.reply == Some(Emit(ReplyName("error", Prop(data, "id")), reason))
    ensures h.killed == None && !h.threw
  {
    Handled(tunnels - {Key(Prop(data, "localPort"))}, Some(Emit(ReplyName("error", Prop(data, "id")), reason)), None, false)
  }

  const NoTunnelMessage: string := "No tunnel with this port."

  /** The 'close_tunnel' handler. A placeholder has no `kill`, so closing a
      port whose creation is still running throws out of the handler. */
  function Close(tunnels: map<string, Entry>, request: Value): (h: Handled)
    ensures Key(Prop(request, "port")) !in tunnels ==>
      h == Handled(tunnels, Some(Emit(ReplyName("error", Prop(request, "id")), Str(NoTunnelMessage))), None, false)
    ensures Key(Prop(request, "port")) in tunnels && tunnels[Key(Prop(request, "port"))].Placeholder? ==>
      h == Handled(tunnels, None, None, true)
    ensures Key(Prop(request, "port")) in tunnels && tunnels[Key(Prop(request, "port"))].Live? ==>
      h == Handled(tunnels - {Key(Prop(request, "port"))}, Some(Emit(ReplyName("success", Prop(request, "id")), Undefined)),
        Some(tunnels[Key(Prop(request, "port"))]), false)
  {
    var key := Key(Prop(request, "port"));
    if key !in tunnels then
      Handled(tunnels, Some(Emit(ReplyName("error", Prop(request, "id")), Str(NoTunnelMessage))), None, false)
    else if tunnels[key].Placeholder? then
      Handled(tunnels, None, None, true)
    else
      Handled(tunnels - {key}, Some(Emit(ReplyName("success", Prop(request, "id")), Undefined)), Some(tunnels[key]), false)
  }

  /** Every running tunnel sits under its own local port. */
  predicate LiveKeyed(tunnels: map<string, Entry>) {
    forall k | k in tunnels && tunnels[k].Live? :: k == Key(tunnels[k].localPort)
  }

  lemma {:induction false} HandlersKeepLiveKeyed(tunnels: map<string, Entry>, data: Value, tunnel: Entry, reason: Value)
    requires LiveKeyed(tunnels) && tunnel.Live?
    ensures LiveKeyed(Create(tunnels, data).tunnels)
    ensures LiveKeyed(Succeeded(tunnels, data, tunnel).tunnels)
    ensures LiveKeyed(Failed(tunnels, data, reason).tunnels)
    ensures LiveKeyed(Close(tunnels, data).tunnels)
  {
    var t := Succeeded(tunnels, data, tunnel).tunnels;
    forall k | k in t && t[k].Live?
      ensures k == Key(t[k].localPort)
    {
      if k != Key(tunnel.localPort) {
        assert t[k] == tunnels[k];
      }
    }
  }

  /** A repeated request for a port already being created or running is
      answered at once and starts no second creation; while the first is
      still being created the answer carries no remote port. */
  lemma {:induction false} CreateTwice(tunnels: map<string, Entry>, data: Value)
    ensures var h := Create(Create(tunnels, data).tunnels, data);
      && h.tunnels == Create(tunnels, data).tunnels
      && h.reply.Some?
    ensures !Reuses(tunnels, data) ==>
      Create(Create(tunnels, data).tunnels, data).reply == Some(Emit(ReplyName("success", Prop(data, "id")), Undefined))
  {
    var key := Key(Prop(data, "localPort"));
    if !Reuses(tunnels, data) {
      var t := Create(tunnels, data).tunnels;
      assert t[key] == Placeholder(Or(Prop(data, "localHost"), Str("localhost")));
      assert Reuses(t, data);
    }
  }

  /** A request from another host for a port whose tunnel runs on a host
      other than 'localhost' replaces the running tunnel with a placeholder
      without killing it. */
  lemma {:induction false} OtherHostForgetsTunnel(tunnels: map<string, Entry>, data: Value)
    requires Key(Prop(data, "localPort")) in tunnels
    requires tunnels[Key(Prop(data, "localPort"))].Live?
    requires tunnels[Key(Prop(data, "localPort"))].localHost != Str("localhost")
    requires tunnels[Key(Prop(data, "localPort"))].localHost != Prop(data, "localHost")
    ensures Create(tunnels, data).tunnels[Key(Prop(data, "localPort"))].Placeholder?
    ensures Create(tunnels, data).killed == None
  {
  }

  /** A tunnel that was created can be closed by its local port: it is killed
      and its entry removed. */
  lemma {:induction false} CreatedThenClosed(tunnels: map<string, Entry>, data: Value, tunnel: Entry, id: Value)
    requires tunnel.Live?
    ensures var t := Succeeded(tunnels, data, tunnel).tunnels;
      var h := Close(t, Obj(map["port" := tunnel.localPort, "id" := id]));
      && h.killed == Some(tunnel)
      && h.tunnels == tunnels - {Key(tunnel.localPort)}
      && h.reply == Some(Emit(ReplyName("success", id), Undefined))
  {
    var request := Obj(map["port" := tunnel.localPort, "id" := id]);
    assert Prop(request, "port") == tunnel.localPort;
    assert Prop(request, "id") == id;
    var t := Succeeded(tunnels, data, tunnel).tunnels;
    assert t - {Key(tunnel.localPort)} == tunnels - {Key(tunnel.localPort)};
  }

  /** The process: the tunnels table, the tunnels killed so far and whether an
      exception has escaped a handler (which ends the process). */
  class TunnelDaemon {
    var tunnels: map<string, Entry>
    var killed: seq<Entry>
    var crashed: bool

    ghost predicate Valid()
      reads this
    {
      LiveKeyed(tunnels)
    }

    constructor ()
      ensures Valid() && tunnels == map[] && killed == [] && !crashed
    {
      tunnels := map[];
      killed := [];
      crashed := false;
    }

    /** Applies one handler's effect. */
    method Apply(h: Handled) returns (reply: Option<Emit>)
      modifies this
      ensures tunnels == h.tunnels && reply == h.reply
      ensures killed == old(killed) + (if h.killed.Some? then [h.killed.value] else [])
      ensures crashed == (old(crashed) || h.threw)
    {
      tunnels := h.tunnels;
      if h.killed.Some? {
        killed := killed + [h.killed.value];
      }
      crashed := crashed || h.threw;
      reply := h.reply;
    }

    /** 'create_tunnel'; when no reply comes now, a creation was started. */
    method CreateTunnel(data: Value) returns (reply: Option<Emit>)
      requires Valid()
      modifies this
      ensures Valid()
      ensures tunnels == Create(old(tunnels), data).tunnels && reply == Create(old(tunnels), data).reply
      ensures killed == old(killed) && crashed == old(crashed)
    {
      HandlersKeepLiveKeyed(tunnels, data, Live(Undefined, Undefined, Undefined), Undefined);
      reply := Apply(Create(tunnels, data));
    }

    /** The creation for `data` resolved with `tunnel`. */
    method CreationSucceeded(data: Value, tunnel: Entry) returns (reply: Emit)
      requires Valid() && tunnel.Live?
      modifies this
      ensures Valid()
      ensures tunnels == old(tunnels)[Key(tunnel.localPort) := tunnel]
      ensures reply == Emit(ReplyName("success", Prop(data, "id")), tunnel.remotePort)
      ensures killed == old(killed) && crashed == old(crashed)
    {
      HandlersKeepLiveKeyed(tunnels, data, tunnel, Undefined);
      var r := Apply(Succeeded(tunnels, data, tunnel));
      reply := r.value;
    }

    /** The creation for `data` rejected with `reason`. */
    method CreationFailed(data: Value, reason: Value) returns (reply: Emit)
      requires Valid()
      modifies this
      ensures Valid()
      ensures tunnels == old(tunnels) - {Key(Prop(data, "localPort"))}
      ensures reply == Emit(ReplyName("error", Prop(data, "id")), reason)
      ensures killed == old(killed) && crashed == old(crashed)
    {
      HandlersKeepLiveKeyed(tunnels, data, Live(Undefined, Undefined, Undefined), reason);
      var r := Apply(Failed(tunnels, data, reason));
      reply := r.value;
    }

    /** 'close_tunnel'. */
    method CloseTunnel(request: Value) returns (reply: Option<Emit>)
      requires Valid()
      modifies this
      ensures Valid()
      ensures var h := Close(old(tunnels), request);
        && tunnels == h.tunnels && reply == h.reply
        && killed == old(killed) + (if h.killed.Some? then [h.killed.value] else [])
        && crashed == (old(crashed) || h.threw)
    {
      HandlersKeepLiveKeyed(tunnels, request, Live(Undefined, Undefined, Undefined), Undefined);
      reply := Apply(Close(tunnels, request));
    }
  }

  /* ------------------------------------------------------------------ */
  /*  createNewTunnel                                                    */
  /* ------------------------------------------------------------------ */

  /** What the autossh instance emits. */
  datatype AutosshEvent =
    | Connected            // 'connect': arms a 1000 ms timer
    | TimerElapsed         // one of those timers fires
    | Errored(error: Value)

  /** How the 'error' listener treats an error. */
  datatype ErrorVerdict = Ignore | Fail(reason: Value) | Throw(message: string)

  const ListenFailure: string := "failed for listen port"
  const Refused: string := "refused"

  /** The failing rule: a string error, or an error whose message mentions a
      listen-port failure or a refusal. Reading a message of `undefined` or
      `null`, or searching a message that is neither a string nor an array,
      throws. */
  function Judge(error: Value): (v: ErrorVerdict)
    ensures error.Str? ==> v == Fail(error)
    ensures Prop(error, "message").Str? ==>
      (v.Fail? <==> Contains(Prop(error, "message").s, ListenFailure) || Contains(Prop(error, "message").s, Refused))
    ensures v.Fail? && !error.Str? ==> v.reason == Prop(error, "message")
    ensures error.Obj? && !Truthy(Prop(error, "message")) ==> v == Ignore
  {
    if error.Str? then Fail(error)
    else if error.Undefined? || error.Null? then Throw("TypeError: Cannot read properties of " + ToStr(error))
    else
      var message := Prop(error, "message");
      if !Truthy(message) then Ignore
      else if message.Str? then
        if Contains(message.s, ListenFailure) || Contains(message.s, Refused) then Fail(message) else Ignore
      else if message.Arr? then
        if Str(ListenFailure) in message.elems || Str(Refused) in message.elems then Fail(message) else Ignore
      else Throw("TypeError: error.message.indexOf is not a function")
  }

  /** The promise of `createNewTunnel` with the listeners' side effects. */
  datatype Creation = Creation(
    settled: Option<Outcome>,
    timers: nat,     // armed 1000 ms timers
    kills: nat,      // calls of `tunnel.kill()`
    threw: bool)     // an exception escaped the 'error' listener

  const Started := Creation(None, 0, 0, false)

  function Settle(s: Option<Outcome>, o: Outcome): Option<Outcome> {
    if s.Some? then s else Some(o)
  }

  /** One event. Resolution carries the tunnel itself, written `Resolved(Undefined)`. */
  function CreationStep(c: Creation, ev: AutosshEvent): Creation {
    match ev
    case Connected => c.(timers := c.timers + 1)
    case TimerElapsed =>
      if c.timers == 0 then c
      else c.(timers := c.timers - 1, settled := Settle(c.settled, Resolved(Undefined)))
    case Errored(e) =>
      match Judge(e)
      case Ignore => c
      case Fail(reason) => c.(kills := c.kills + 1, settled := Settle(c.settled, Rejected(reason)))
      case Throw(_) => c.(threw := true)
  }

  function CreationRun(c: Creation, evs: seq<AutosshEvent>): Creation
    decreases |evs|
  {
    if evs == [] then c else CreationRun(CreationStep(c, evs[0]), evs[1..])
  }

  /** The failing errors among `evs`. */
  function FailingErrors(evs: seq<AutosshEvent>): nat
    decreases |evs|
  {
    if evs == [] then 0
    else (if evs[0].Errored? && Judge(evs[0].error).Fail? then 1 else 0) + FailingErrors(evs[1..])
  }

  /** Every failing error kills the tunnel, also after the creation resolved. */
  lemma {:induction false} KillsPerFailingError(c: Creation, evs: seq<AutosshEvent>)
    ensures CreationRun(c, evs).kills == c.kills + FailingErrors(evs)
    decreases |evs|
  {
    if evs != [] {
      KillsPerFailingError(CreationStep(c, evs[0]), evs[1..]);
    }
  }

  /** The creation settles once: the first resolution or failure decides it. */
  lemma {:induction false} CreationSettlesOnce(c: Creation, evs: seq<AutosshEvent>)
    requires c.settled.Some?
    ensures CreationRun(c, evs).settled == c.settled
    decreases |evs|
  {
    if evs != [] {
      CreationSettlesOnce(CreationStep(c, evs[0]), evs[1..]);
    }
  }

  /** A connect followed by its timer resolves the creation; a failing error
      after that still kills the tunnel, which stays in the table. */
  lemma {:induction false} ResolvedThenKilled(e: Value, later: seq<AutosshEvent>)
    requires Judge(e).Fail?
    ensures CreationRun(Started, [Connected, TimerElapsed, Errored(e)] + later).settled == Some(Resolved(Undefined))
    ensures CreationRun(Started, [Connected, TimerElapsed, Errored(e)] + later).kills >= 1
  {
    var evs := [Connected, TimerElapsed, Errored(e)] + later;
    var c := CreationStep(CreationStep(Started, Connected), TimerElapsed);
    assert c.settled == Some(Resolved(Undefined));
    assert evs[2..] == [Errored(e)] + later;
    assert CreationRun(Started, evs) == CreationRun(c, evs[2..]);
    CreationSettlesOnce(c, evs[2..]);
    KillsPerFailingError(c, evs[2..]);
    assert FailingErrors(evs[2..]) == 1 + FailingErrors(later) by {
      assert (evs[2..])[1..] == later;
    }
  }

  /** A failing error before any timer fires rejects with its reason. */
  lemma {:induction false} FailureBeforeTimer(e: Value, later: seq<AutosshEvent>)
    requires Judge(e).Fail?
    ensures CreationRun(Started, [Connected, Errored(e)] + later).settled == Some(Rejected(Judge(e).reason))
  {
    var evs := [Connected, Errored(e)] + later;
    var c := CreationStep(CreationStep(Started, Connected), Errored(e));
    assert evs[2..] == later;
    assert CreationRun(Started, evs) == CreationRun(c, later);
    CreationSettlesOnce(c, later);
  }
}
