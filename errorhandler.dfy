/** The error handlers: the reconnect prober that waits until a lost host
    answers again, and `stopHandling`, which cancels error handling before a
    restart. */
module ErrorHandler {
  import opened Values
  import opened Actions
  import opened Reducers

  /** Where a reconnect handler probes: the host and port it was given. */
  datatype Target = Target(host: Value, port: Value)

  /** The host the probe socket connects to: `host.split('/')[0]`, the whole
      host when it has no '/', and otherwise the text before its first '/'. */
  function ProbeHost(host: string): (h: string)
    ensures '/' !in h
    ensures |h| <= |host| && host[..|h|] == h
    ensures h == host || host[|h|] == '/'
    ensures '/' !in host ==> h == host
  {
    SplitJoin(host, '/');
    var parts := Split(host, '/');
    PrefixOfJoin(parts, '/');
    parts[0]
  }

  lemma {:induction false} PrefixOfJoin(parts: seq<string>, sep: char)
    requires |parts| >= 1
    ensures |parts[0]| <= |Join(parts, sep)| && Join(parts, sep)[..|parts[0]|] == parts[0]
    ensures Join(parts, sep) == parts[0] || Join(parts, sep)[|parts[0]|] == sep
  {
    if |parts| > 1 {
      assert Join(parts, sep) == parts[0] + ([sep] + Join(parts[1..], sep));
    }
  }

  /** The probe host is everything before the first '/'. */
  lemma {:induction false} ProbeHostBeforeSlash(p: string, q: string)
    requires '/' !in p
    ensures ProbeHost(p + "/" + q) == p
  {
    var parts := [p] + Split(q, '/');
    SplitJoin(q, '/');
    assert NoSep(parts, '/');
    assert Join(parts, '/') == p + "/" + q by {
      assert parts[1..] == Split(q, '/');
    }
    JoinSplit(parts, '/');
  }

  /** The upstream target's probe goes to the relay's host name. */
  lemma UpstreamProbeHost()
    ensures ProbeHost("a.rtmp.youtube.com/live2/") == "a.rtmp.youtube.com"
  {
    assert "a.rtmp.youtube.com/live2/" == "a.rtmp.youtube.com" + "/" + "live2/";
    ProbeHostBeforeSlash("a.rtmp.youtube.com", "live2/");
  }

  /* ------------------------------------------------------------------ */
  /*  handle: the synchronous part of the thunk                          */
  /* ------------------------------------------------------------------ */

  datatype HandleRun = HandleRun(
    dispatched: seq<Action>,
    probe: Option<string>,      // the host of the first probe
    thrown: Option<string>)

  /** `handle(host, port, after)` run by dispatch: validate, record the target,
      and open the first probe (the store says TRY_RECONNECT at that point). */
  function Handle(t: Target): (r: HandleRun)
    ensures (!Truthy(t.host) || !Truthy(t.port)) <==> r.thrown == Some("Invalid Host or Port!")
    ensures r.thrown == Some("Invalid Host or Port!") ==> r.dispatched == []
    ensures Truthy(t.host) && Truthy(t.port) ==> r.dispatched == [SetTryReconnect(Arr([t.host, t.port]))]
    ensures r.probe.Some? <==> r.thrown.None?
    ensures r.probe.Some? ==> t.host.Str? && r.probe.value == ProbeHost(t.host.s)
    ensures r.dispatched == [] || (|r.dispatched| == 1 && Kind(r.dispatched[0]) == Some(TRY_RECONNECT))
  {
    ArgumentCreators(Arr([t.host, t.port]), Undefined, Undefined);
    if !Truthy(t.host) || !Truthy(t.port) then HandleRun([], None, Some("Invalid Host or Port!"))
    else if !t.host.Str? then
      HandleRun([SetTryReconnect(Arr([t.host, t.port]))], None, Some("TypeError: host.split is not a function"))
    else HandleRun([SetTryReconnect(Arr([t.host, t.port]))], Some(ProbeHost(t.host.s)), None)
  }

  /** After a valid `handle` the stream's handler is TRY_RECONNECT, so the
      first attempt does probe. */
  lemma {:induction false} HandleArmsProbe(s: State, t: Target)
    requires Truthy(t.host) && Truthy(t.port)
    ensures HandleError(Run(s, Handle(t).dispatched)) == Str("TRY_RECONNECT")
    ensures Truthy(HandleError(Run(s, Handle(t).dispatched)))
  {
    ParseTypeName(TRY_RECONNECT);
    assert Run(s, Handle(t).dispatched) == Reduce(s, SetTryReconnect(Arr([t.host, t.port])));
  }

  /* ------------------------------------------------------------------ */
  /*  reconnect: the retry chain                                         */
  /* ------------------------------------------------------------------ */

  /** How one probe socket ends; a socket error and a 1000 ms socket timeout
      both count as Failed. */
  datatype ProbeResult = Connected | Failed

  /** One entry into `reconnect`: the value of `stream.handleError` it reads,
      and how its probe ends (ignored when it does not probe). */
  datatype Attempt = Attempt(handleError: Value, result: ProbeResult)

  datatype ProbeEnd =
    | Waiting     // every probe so far failed; the next attempt is pending
    | Cancelled   // an attempt found the handler cleared and returned
    | Reached     // a probe connected; the success timer is set

  /** `probes`: how many attempts opened a socket. */
  datatype Trace = Trace(probes: nat, end: ProbeEnd)

  predicate FailedProbes(attempts: seq<Attempt>, n: nat)
    requires n <= |attempts|
  {
    forall i | 0 <= i < n :: Truthy(attempts[i].handleError) && attempts[i].result == Failed
  }

  /** The chain of attempts, one after another; each failure leads to the next. */
  function ProbeTrace(attempts: seq<Attempt>): (t: Trace)
    ensures t.probes <= |attempts|
    ensures t.end == Waiting ==> t.probes == |attempts| && FailedProbes(attempts, |attempts|)
    ensures t.end == Cancelled ==>
      t.probes < |attempts| && FailedProbes(attempts, t.probes) && !Truthy(attempts[t.probes].handleError)
    ensures t.end == Reached ==>
      0 < t.probes && FailedProbes(attempts, t.probes - 1)
      && Truthy(attempts[t.probes - 1].handleError) && attempts[t.probes - 1].result == Connected
    decreases |attempts|
  {
    if attempts == [] then Trace(0, Waiting)
    else if !Truthy(attempts[0].handleError) then Trace(0, Cancelled)
    else if attempts[0].result == Connected then Trace(1, Reached)
    else
      var t := ProbeTrace(attempts[1..]);
      assert forall i | 1 <= i <= t.probes :: attempts[i] == attempts[1..][i - 1];
      Trace(1 + t.probes, t.end)
  }

  /** Once the chain has been cancelled or has connected, later attempts
      change nothing: there are none. */
  lemma {:induction false} ProbeTraceFinal(attempts: seq<Attempt>, more: seq<Attempt>)
    requires ProbeTrace(attempts).end != Waiting
    ensures ProbeTrace(attempts + more) == ProbeTrace(attempts)
    decreases |attempts|
  {
    if Truthy(attempts[0].handleError) && attempts[0].result == Failed {
      assert (attempts + more)[1..] == attempts[1..] + more;
      ProbeTraceFinal(attempts[1..], more);
    }
  }

  /** The effective cancellation: an attempt that reads a cleared handler
      ends the chain without probing, whatever follows it. */
  lemma {:induction false} ClearedHandlerCancels(failed: seq<Attempt>, h: Value, r: ProbeResult, more: seq<Attempt>)
    requires FailedProbes(failed, |failed|) && !Truthy(h)
    ensures ProbeTrace(failed + [Attempt(h, r)] + more) == Trace(|failed|, Cancelled)
    decreases |failed|
  {
    var all := failed + [Attempt(h, r)] + more;
    if failed != [] {
      assert all[1..] == failed[1..] + [Attempt(h, r)] + more;
      ClearedHandlerCancels(failed[1..], h, r, more);
    } else {
      assert all[0] == Attempt(h, r);
    }
  }

  /** A pending retry timer (`connectHandle`) owned by the reconnect handler. */
  class Reconnector {
    var retryArmed: bool

    constructor ()
      ensures !retryArmed
    {
      retryArmed := false;
    }

    /** `handle`'s chain over the given attempts: each failed probe arms the
        1000 ms retry timer, whose firing is the next attempt. */
    method Reconnect(attempts: seq<Attempt>) returns (t: Trace)
      modifies this
      ensures t == ProbeTrace(attempts)
      ensures retryArmed <==> t.end == Waiting && attempts != []
    {
      retryArmed := false;
      t := Trace(0, Waiting);
      var k := 0;
      while k < |attempts| && t.end == Waiting
        invariant 0 <= k <= |attempts|
        invariant t.end == Waiting ==> t.probes == k
        invariant t.end == Waiting ==>
          ProbeTrace(attempts) == Trace(k + ProbeTrace(attempts[k..]).probes, ProbeTrace(attempts[k..]).end)
        invariant t.end != Waiting ==> t == ProbeTrace(attempts)
        invariant retryArmed <==> t.end == Waiting && k > 0
        decreases |attempts| - k
      {
        var a := attempts[k];
        assert attempts[k..][1..] == attempts[k + 1..];
        if !Truthy(a.handleError) {
          t := Trace(k, Cancelled);
          retryArmed := false;
        } else if a.result == Connected {
          t := Trace(k + 1, Reached);
          retryArmed := false;
        } else {
          t := Trace(k + 1, Waiting);
          retryArmed := true;
        }
        k := k + 1;
      }
      if t.end == Waiting {
        assert attempts[k..] == [];
      }
    }

    /** `stop`: clears the pending retry timer. */
    method Stop()
      modifies this
      ensures !retryArmed
    {
      retryArmed := false;
    }
  }

  /* ------------------------------------------------------------------ */
  /*  success                                                            */
  /* ------------------------------------------------------------------ */

  datatype SuccessRun = SuccessRun(dispatched: seq<Action>, thrown: Option<string>, afterCalled: bool)

  /** The success timer as written: after STOP_ERROR_HANDLING it calls
      `setErrorResolved`, which the action creators do not define, so it
      throws and `after` never runs. */
  function SuccessAsWritten(): SuccessRun {
    SuccessRun([StopErrorHandling()], Some("TypeError: setErrorResolved is not a function"), false)
  }

  /** The success timer as intended: clear the handler, then call `after`. */
  function Success(): SuccessRun {
    SuccessRun([StopErrorHandling()], None, true)
  }

  /** Both clear the handler, and only the intended one restarts the stream. */
  lemma {:induction false} SuccessClearsHandler(s: State)
    ensures !Truthy(HandleError(Run(s, SuccessAsWritten().dispatched)))
    ensures !Truthy(HandleError(Run(s, Success().dispatched)))
    ensures Success().afterCalled && Success().thrown.None?
    ensures !SuccessAsWritten().afterCalled && SuccessAsWritten().thrown.Some?
  {
    ParseTypeName(STOP_ERROR_HANDLING);
    assert Run(s, [StopErrorHandling()]) == Reduce(s, StopErrorHandling());
  }

  /* ------------------------------------------------------------------ */
  /*  stopHandling                                                       */
  /* ------------------------------------------------------------------ */

  /** The keys of the handler map. */
  const HandlerKeys: set<string> := {"tryReconnect"}

  datatype StopRun = StopRun(dispatched: seq<Action>, stopCalled: bool, outcome: Outcome)

  /** `stopHandling` as written: the handler is looked up under the value of
      `handleError` in a map keyed `tryReconnect`; the test of `handleError`
      comes after STOP_ERROR_HANDLING has cleared it; and the registered
      handler is the `handle` function, which has no `stop`. */
  function StopHandlingAsWritten(s: State): StopRun {
    var found := ToStr(HandleError(s)) in HandlerKeys;
    var cleared := Reduce(s, StopErrorHandling());
    if !Truthy(HandleError(cleared)) then StopRun([StopErrorHandling()], false, Resolved(Undefined))
    else if !found then StopRun([StopErrorHandling()], false, Resolved(Undefined))
    else StopRun([StopErrorHandling()], false, Thrown("TypeError: handler.stop is not a function"))
  }

  /** As written, `stopHandling` always resolves at once and never stops the
      pending retry, even while a reconnect is running. */
  lemma {:induction false} StopHandlingNeverStops(s: State)
    ensures StopHandlingAsWritten(s).dispatched == [StopErrorHandling()]
    ensures StopHandlingAsWritten(s).outcome == Resolved(Undefined)
    ensures !StopHandlingAsWritten(s).stopCalled
    ensures !Truthy(HandleError(Run(s, StopHandlingAsWritten(s).dispatched)))
  {
    ParseTypeName(STOP_ERROR_HANDLING);
    assert Run(s, [StopErrorHandling()]) == Reduce(s, StopErrorHandling());
  }

  /** `stopHandling` as intended: the handler running under the current
      `handleError` is found before the clear, and stopped. */
  function StopHandling(s: State): StopRun {
    StopRun([StopErrorHandling()], HandleError(s) == Str(TypeName(TRY_RECONNECT)), Resolved(Undefined))
  }

  /** The intended version stops the reconnect handler exactly when one is
      running, and clears the handler either way. */
  lemma {:induction false} StopHandlingStopsReconnect(s: State, to: Value)
    ensures StopHandling(s).stopCalled <==> HandleError(s) == Str("TRY_RECONNECT")
    ensures StopHandling(Reduce(s, SetTryReconnect(to))).stopCalled
    ensures !Truthy(HandleError(Run(s, StopHandling(s).dispatched)))
    ensures StopHandling(s).outcome == Resolved(Undefined)
  {
    ParseTypeName(STOP_ERROR_HANDLING);
    ParseTypeName(TRY_RECONNECT);
    assert Run(s, [StopErrorHandling()]) == Reduce(s, StopErrorHandling());
  }
}
