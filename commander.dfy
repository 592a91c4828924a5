/** The stream supervisor: how the relay command is built from the
    configuration, how a crash message is classified, and the start / stop /
    restart thunks with the process events that complete them. */
module Commander {
  import opened Values
  import opened Actions
  import opened Reducers
  import ErrorHandler

  /** The relay endpoint the output URL is built from. */
  const YouTube: string := "rtmp://a.rtmp.youtube.com/live2/"

  /* ------------------------------------------------------------------ */
  /*  createCommand: the source URL and the custom option strings        */
  /* ------------------------------------------------------------------ */

  /** The camera stream the command reads from. */
  function Source(config: Value): string {
    "rtsp://" + ToStr(Prop(config, "camIP")) + ":" + ToStr(Prop(config, "camPort")) + "/" + ToStr(Prop(config, "camProfile"))
  }

  /** JavaScript's `\s`: white space and line terminators. */
  predicate IsSpace(c: char) {
    c == '\t' || c == '\n' || c == '\U{000B}' || c == '\U{000C}' || c == '\r' || c == ' '
    || c == '\U{00A0}' || c == '\U{1680}' || ('\U{2000}' <= c <= '\U{200A}')
    || c == '\U{2028}' || c == '\U{2029}' || c == '\U{202F}' || c == '\U{205F}'
    || c == '\U{3000}' || c == '\U{FEFF}'
  }

  /** Length of the run of white space that `s` starts with. */
  function SpaceRun(s: string): (n: nat)
    ensures n <= |s|
    ensures forall i | 0 <= i < n :: IsSpace(s[i])
    ensures n < |s| ==> !IsSpace(s[n])
  {
    if s != [] && IsSpace(s[0]) then 1 + SpaceRun(s[1..]) else 0
  }

  /** `s.replace(/\s+\,\s+/g, ',')`: a comma with white space on BOTH sides
      becomes a bare comma; the scan resumes after each replacement. No comma
      of the result has white space on both sides. */
  function CollapseCommas(s: string): (r: string)
    ensures s == [] <==> r == []
    ensures r != [] ==> r[0] == ',' || r[0] == s[0]
    ensures |r| > 1 && r[0] == ',' && IsSpace(r[1]) ==> s[0] == ','
    ensures forall i | 0 < i < |r| - 1 :: r[i] == ',' && IsSpace(r[i - 1]) ==> !IsSpace(r[i + 1])
    decreases |s|
  {
    if s == [] then []
    else
      var n := SpaceRun(s);
      if 0 < n < |s| && s[n] == ',' && SpaceRun(s[n + 1..]) > 0 then
        var rest := CollapseCommas(s[n + 1 + SpaceRun(s[n + 1..])..]);
        var r := "," + rest;
        assert forall i | 1 < i < |r| :: r[i] == rest[i - 1];
        r
      else
        var rest := CollapseCommas(s[1..]);
        var r := [s[0]] + rest;
        assert forall i | 1 < i < |r| :: r[i] == rest[i - 1];
        r
  }

  /** `s.replace(/\s+\-/g, ',-')`: white space in front of a dash becomes a
      comma. The result never has white space right before a dash, and it is
      empty exactly when `s` is, starting with a comma or with `s[0]`. */
  function DashToComma(s: string): (r: string)
    ensures s == [] <==> r == []
    ensures r != [] ==> r[0] == ',' || r[0] == s[0]
    ensures forall i | 0 < i < |r| :: r[i] == '-' ==> !IsSpace(r[i - 1])
    decreases |s|
  {
    if s == [] then []
    else
      var n := SpaceRun(s);
      if 0 < n < |s| && s[n] == '-' then
        var rest := DashToComma(s[n + 1..]);
        var r := ",-" + rest;
        assert forall i | 2 < i < |r| :: r[i] == rest[i - 2];
        r
      else
        var rest := DashToComma(s[1..]);
        assert IsSpace(s[0]) && |s| > 1 ==> s[1] != '-';
        var r := [s[0]] + rest;
        assert forall i | 1 < i < |r| :: r[i] == rest[i - 1];
        r
  }

  /** A custom option string as it is handed to `outputOptions`. */
  function NormalizeOptions(s: string): (parts: seq<string>)
    ensures |parts| >= 1 && NoSep(parts, ',')
    ensures Join(parts, ',') == DashToComma(CollapseCommas(s))
  {
    SplitJoin(DashToComma(CollapseCommas(s)), ',');
    Split(DashToComma(CollapseCommas(s)), ',')
  }

  /** No piece of a normalised option string holds white space followed by a
      dash: every `-flag` that was separated by white space starts its own piece. */
  lemma {:induction false} NormalizedPiecesSeparateFlags(s: string, k: nat, i: nat)
    requires k < |NormalizeOptions(s)|
    requires 0 < i < |NormalizeOptions(s)[k]| && NormalizeOptions(s)[k][i] == '-'
    ensures !IsSpace(NormalizeOptions(s)[k][i - 1])
  {
    var parts := NormalizeOptions(s);
    var offset := PieceOffset(parts, k);
    var r := DashToComma(CollapseCommas(s));
    PieceAt(parts, ',', k, i);
    PieceAt(parts, ',', k, i - 1);
    assert r[offset + i] == '-';
  }

  /** The fluent-ffmpeg command as `createCommand` configures it. */
  datatype Command = Command(
    input: string,
    outputOptions: seq<seq<string>>,   // one list per `outputOptions(...)` call, in order
    audioCodec: Option<string>,
    videoCodec: Option<string>,
    format: string,
    output: string)

  datatype Built = Built(command: Command) | Failed(message: string)

  /** One custom option field: "" leaves it out; a string is normalised; any
      other value has no `replace` and throws. */
  function CustomOptions(v: Value): Option<Option<seq<string>>> {
    if v == Str("") then Some(None)
    else if v.Str? then Some(Some(NormalizeOptions(v.s)))
    else None
  }

  function AddOptions(opts: seq<seq<string>>, o: Option<seq<string>>): seq<seq<string>> {
    if o.Some? then opts + [o.value] else opts
  }

  /** The `outputOptions` list one custom option string contributes: none
      when it is empty, its normalised pieces otherwise. */
  function CustomList(v: Value): seq<seq<string>> {
    if v.Str? && v != Str("") then [NormalizeOptions(v.s)] else []
  }

  /** Adding a custom option field to the option lists appends its list. */
  lemma {:induction false} AddCustom(opts: seq<seq<string>>, v: Value)
    requires CustomOptions(v).Some?
    ensures AddOptions(opts, CustomOptions(v).value) == opts + CustomList(v)
  {
  }

  /** The `outputOptions` calls for the three custom fields, in the order
      `createCommand` makes them: output, audio, video. */
  function OptionLists(config: Value): (opts: seq<seq<string>>)
    requires CustomOptions(Prop(config, "customOutputOptions")).Some?
    requires CustomOptions(Prop(config, "customAudioOptions")).Some?
    requires CustomOptions(Prop(config, "customVideoOptions")).Some?
    ensures opts == CustomList(Prop(config, "customOutputOptions")) + CustomList(Prop(config, "customAudioOptions"))
      + CustomList(Prop(config, "customVideoOptions"))
  {
    var out := Prop(config, "customOutputOptions");
    var audio := Prop(config, "customAudioOptions");
    var video := Prop(config, "customVideoOptions");
    AddCustom([], out);
    AddCustom(CustomList(out), audio);
    AddCustom(CustomList(out) + CustomList(audio), video);
    AddOptions(AddOptions(AddOptions([], CustomOptions(out).value), CustomOptions(audio).value), CustomOptions(video).value)
  }

  /** `createCommand`. Without custom audio options the audio codec is set to
      'copy' (the source calls that setter `AudioCodec`, see CreateCommandAsWritten). */
  function CreateCommand(config: Value): (r: Built)
    ensures r.Built? ==> r.command.input == Source(config)
    ensures r.Built? ==> r.command.output == YouTube + ToStr(Prop(config, "key"))
    ensures r.Built? ==> r.command.format == "flv"
    ensures r.Built? ==> |r.command.outputOptions| >= 1 && r.command.outputOptions[|r.command.outputOptions| - 1] == ["-bufsize 50000k", "-tune film"]
    ensures r.Built? <==>
      (Prop(config, "customOutputOptions").Str? && Prop(config, "customAudioOptions").Str? && Prop(config, "customVideoOptions").Str?)
    ensures r.Built? ==> (r.command.audioCodec == Some("copy") <==> Prop(config, "customAudioOptions") == Str(""))
    ensures r.Built? ==> (r.command.videoCodec == Some("copy") <==> Prop(config, "customVideoOptions") == Str(""))
    ensures r.Built? ==> (r.command.outputOptions ==
      CustomList(Prop(config, "customOutputOptions")) + CustomList(Prop(config, "customAudioOptions"))
      + CustomList(Prop(config, "customVideoOptions")) + [["-bufsize 50000k", "-tune film"]])
  {
    var out := CustomOptions(Prop(config, "customOutputOptions"));
    var audio := CustomOptions(Prop(config, "customAudioOptions"));
    var video := CustomOptions(Prop(config, "customVideoOptions"));
    if out.None? || audio.None? || video.None? then Failed("TypeError: replace is not a function")
    else
      var opts := OptionLists(config);
      Built(Command(
        Source(config),
        opts + [["-bufsize 50000k", "-tune film"]],
        if audio.value.None? then Some("copy") else None,
        if video.value.None? then Some("copy") else None,
        "flv",
        YouTube + ToStr(Prop(config, "key"))))
  }

  /** `createCommand` as written: `cmd.AudioCodec` is not a fluent-ffmpeg
      setter (that one is `audioCodec`), so the call throws whenever no custom
      audio options are configured. */
  function CreateCommandAsWritten(config: Value): Built {
    var out := CustomOptions(Prop(config, "customOutputOptions"));
    var audio := CustomOptions(Prop(config, "customAudioOptions"));
    if out.None? || audio.None? then Failed("TypeError: replace is not a function")
    else if audio.value.None? then Failed("TypeError: cmd.AudioCodec is not a function")
    else CreateCommand(config)
  }

  /** With every custom option empty, the command as written cannot be built,
      while the intended one copies both codecs. */
  lemma {:induction false} AudioCodecCrash(config: Value)
    requires Prop(config, "customOutputOptions") == Str("")
    requires Prop(config, "customAudioOptions") == Str("")
    requires Prop(config, "customVideoOptions") == Str("")
    ensures CreateCommandAsWritten(config) == Failed("TypeError: cmd.AudioCodec is not a function")
    ensures CreateCommand(config).Built?
    ensures CreateCommand(config).command.audioCodec == Some("copy")
    ensures CreateCommand(config).command.videoCodec == Some("copy")
  {
  }

  /* ------------------------------------------------------------------ */
  /*  crashed: classification of a process error                         */
  /* ------------------------------------------------------------------ */

  /** The error codes 0..3, plus the supervisor's own termination signal. */
  datatype Crash = CameraLost | UpstreamLost | BadExecutable | Terminated | Unknown

  function Code(c: Crash): int
    requires c != Terminated
  {
    match c
    case CameraLost => 0
    case UpstreamLost => 1
    case BadExecutable => 2
    case Unknown => 3
  }

  /** The tests of `crashed`, in order; the first that matches decides. */
  function Classify(message: string, source: string, key: Value): (c: Crash)
    ensures c == CameraLost <==> Contains(message, source)
    ensures c == UpstreamLost <==> !Contains(message, source) && Contains(message, YouTube + ToStr(key))
    ensures c == BadExecutable <==>
      !Contains(message, source) && !Contains(message, YouTube + ToStr(key))
      && (Contains(message, "spawn") || Contains(message, "niceness"))
    ensures c == Terminated <==>
      !Contains(message, source) && !Contains(message, YouTube + ToStr(key))
      && !Contains(message, "spawn") && !Contains(message, "niceness")
      && (Contains(message, "SIGINT") || Contains(message, "SIGKILL"))
  {
    if Contains(message, source) then CameraLost
    else if Contains(message, source + "Input/output error") || Contains(message, YouTube + ToStr(key)) then
      assert !Contains(message, source + "Input/output error") by {
        if Contains(message, source + "Input/output error") {
          ContainsPrefixOf(message, source, "Input/output error");
        }
      }
      UpstreamLost
    else if Contains(message, "spawn") || Contains(message, "niceness") then BadExecutable
    else if Contains(message, "SIGINT") || Contains(message, "SIGKILL") then Terminated
    else Unknown
  }

  /** The camera test runs first: an I/O error reported against the source is
      classified as the camera (code 0), never as the upstream (code 1). */
  lemma {:induction false} SourceIoErrorIsCamera(pre: string, post: string, source: string, key: Value)
    ensures Classify(pre + source + "Input/output error" + post, source, key) == CameraLost
  {
    ContainsSelf(source, pre, "Input/output error" + post);
    assert pre + source + "Input/output error" + post == pre + source + ("Input/output error" + post);
  }

  /** Before the source is known every message contains it: everything is
      classified as the camera, even the supervisor's own SIGINT. */
  lemma {:induction false} EmptySourceIsCamera(message: string, key: Value)
    ensures Classify(message, "", key) == CameraLost
  {
    EmptyContained(message);
  }

  /** What `crashed` does about a classified error. */
  datatype CrashRun = CrashRun(
    dispatched: seq<Action>,                     // SET_ERROR, if any
    target: Option<ErrorHandler.Target>,         // where the reconnect handler probes
    retry: bool)                                 // a start is scheduled 1000 ms later

  /** The handler target of the codes that have one. */
  function TargetOf(c: Crash, config: Value): Option<ErrorHandler.Target> {
    match c
    case CameraLost => Some(ErrorHandler.Target(Prop(config, "camIP"), Prop(config, "camPort")))
    case UpstreamLost => Some(ErrorHandler.Target(Str("a.rtmp.youtube.com/live2/"), Num(1935)))
    case _ => None
  }

  function CrashResponse(message: string, stdout: Value, stderr: Value, source: string, config: Value): (r: CrashRun)
    ensures var c := Classify(message, source, Prop(config, "key"));
      && (c == Terminated <==> r.dispatched == [])
      && (c != Terminated ==> r.dispatched == [SetError(Num(Code(c)), stdout, stderr)])
      && (r.target.Some? <==> c == CameraLost || c == UpstreamLost)
      && (c == CameraLost ==> r.target == Some(ErrorHandler.Target(Prop(config, "camIP"), Prop(config, "camPort"))))
      && (c == UpstreamLost ==> r.target == Some(ErrorHandler.Target(Str("a.rtmp.youtube.com/live2/"), Num(1935))))
      && (r.retry <==> c == Unknown)
    ensures r.dispatched == [] || (|r.dispatched| == 1 && Kind(r.dispatched[0]) == Some(SET_ERROR))
  {
    ArgumentCreators(Num(0), stdout, stderr);
    ArgumentCreators(Num(1), stdout, stderr);
    ArgumentCreators(Num(2), stdout, stderr);
    ArgumentCreators(Num(3), stdout, stderr);
    var c := Classify(message, source, Prop(config, "key"));
    if c == Terminated then CrashRun([], None, false)
    else CrashRun([SetError(Num(Code(c)), stdout, stderr)], TargetOf(c, config), c == Unknown)
  }

  /** Every crash that is not the supervisor's own signal stops the stream and
      records its code; the next start is refused only if a handler runs. */
  lemma {:induction false} CrashStopsStream(s: State, message: string, stdout: Value, stderr: Value, source: string)
    requires Classify(message, source, Prop(s.config, "key")) != Terminated
    ensures var r := CrashResponse(message, stdout, stderr, source, s.config);
      && Running(Run(s, r.dispatched)) == STOPPED
      && ErrorCode(Run(s, r.dispatched)) == Num(Code(Classify(message, source, Prop(s.config, "key"))))
  {
    ParseTypeName(SET_ERROR);
    var r := CrashResponse(message, stdout, stderr, source, s.config);
    assert Run(s, r.dispatched) == Run(Reduce(s, r.dispatched[0]), []);
  }
  /** A REQUEST_RESTART anywhere in the history keeps `restarting` true. */
  lemma RestartRecorded(s: State, log: seq<Action>, i: nat)
    requires i < |log| && log[i] == RequestRestart()
    ensures Restarting(Run(s, log)) == Bool(true)
  {
    ParseTypeName(REQUEST_RESTART);
    RestartingSticks(s, log);
  }

  /* ------------------------------------------------------------------ */
  /*  The supervisor: start, stop, restart and the process events        */
  /* ------------------------------------------------------------------ */

  datatype Signal = SIGINT | SIGKILL

  /** Where a restart chain is waiting. */
  datatype RestartStage = NoRestart | AwaitingStop | AwaitingStart

  /** The promises one event settles: a pending start, a pending stop, a
      pending restart. */
  datatype Settled = Settled(start: Option<Outcome>, stop: Option<Outcome>, restart: Option<Outcome>)

  /** The phases in which `start` has nothing to do. */
  predicate StartBusy(running: Value) {
    running == STARTING || running == STOPPING || running == RUNNING
  }

  /** The phases in which `stop` has nothing to do. */
  predicate StopIdle(running: Value) {
    running == STARTING || running == STOPPING || running == STOPPED
  }

  const StartedMessage: Value := Str("Successfully Started.")
  const StoppedMessage: Value := Str("Successfully Stopped!")
  const RestartedMessage: Value := Str("Successfully restarted.")
  const StartFailedMessage: Value := Str("An error has occured. Could not start!")
  const RestartFailedMessage: Value := Str("Could not start!")

  /** The Commander singleton with the ffmpeg command it drives. Its fields are
      the module state the event listeners close over. */
  class Supervisor {
    const store: Store
    const reconnector: ErrorHandler.Reconnector
    /** The command built at construction; `command.input` is `source`. */
    const command: Command
    /** A start waits for the process's 'start' or 'error'. */
    var startPending: bool
    /** A stop waits for the process's 'stop' or 'error'. */
    var stopPending: bool
    /** `_stopHandle`: the 3000 ms force-kill timer. */
    var graceTimer: bool
    /** The 1000 ms restarts scheduled after unknown crashes. */
    var retryTimers: nat
    /** Signals sent to the process, in order. */
    var signals: seq<Signal>
    /** How often `cmd.run()` was called. */
    var runs: nat
    var restart: RestartStage
    /** An exception escaped the constructor or an event listener: the agent
        process has exited. */
    var dead: bool

    /** What the pending promises and timers say about the stream's phase. */
    ghost predicate Pendings(running: Value)
      reads this
    {
      && (stopPending ==> running == STOPPING && !startPending)
      && (startPending ==> running == STARTING)
      && (graceTimer ==> stopPending)
      && (restart == AwaitingStop ==> stopPending)
      && (restart == AwaitingStart ==> startPending)
    }

    ghost predicate Valid()
      reads this, store
    {
      store.Valid() && (!dead ==> Pendings(Running(store.state)))
    }

    /** `new Commander(getState, getConfig, dispatch)`: builds the command from
        the loaded configuration; nothing is pending. When the command cannot
        be built, the exception leaves the constructor and nothing catches it
        at start-up, so the agent process exits. */
    constructor (store: Store, reconnector: ErrorHandler.Reconnector)
      requires store.Valid() && Truthy(store.state.config)
      ensures Valid() && this.store == store && this.reconnector == reconnector
      ensures dead <==> CreateCommand(store.state.config).Failed?
      ensures !dead ==> command == CreateCommand(store.state.config).command
      ensures !startPending && !stopPending && !graceTimer && retryTimers == 0
      ensures signals == [] && runs == 0 && restart == NoRestart
    {
      this.store := store;
      this.reconnector := reconnector;
      var built := CreateCommand(store.state.config);
      command := if built.Built? then built.command else Command("", [], None, None, "", "");
      startPending := false;
      stopPending := false;
      graceTimer := false;
      retryTimers := 0;
      signals := [];
      runs := 0;
      restart := NoRestart;
      dead := built.Failed?;
    }

    /** The `start` thunk. It refuses an unconfigured camera and a running error
        handler, ignores a busy stream, and otherwise dispatches REQUEST_START
        and runs the command; the promise then waits for the process. */
    method Start() returns (o: Outcome)
      requires Valid() && !dead
      modifies this, store
      ensures Valid() && !dead
      ensures var s := old(store.state);
        if Truthy(Prop(s.config, "unconfigured")) then
          o == Rejected(Str("Please configurate the camera before you start it!")) && store.log == old(store.log)
        else if Truthy(HandleError(s)) then
          o == Rejected(Str("Please resolve the error, or restart!")) && store.log == old(store.log)
        else if StartBusy(Running(s)) then
          o == Resolved(Undefined) && store.log == old(store.log)
        else
          o == Pending && store.log == old(store.log) + [RequestStart()]
      ensures o == Pending ==> startPending && runs == old(runs) + 1 && Running(store.state) == STARTING
      ensures o != Pending ==> startPending == old(startPending) && runs == old(runs) && store.state == old(store.state)
      ensures stopPending == old(stopPending) && graceTimer == old(graceTimer) && retryTimers == old(retryTimers)
      ensures signals == old(signals) && restart == old(restart)
    {
      var s := store.state;
      if Truthy(Prop(s.config, "unconfigured")) {
        return Rejected(Str("Please configurate the camera before you start it!"));
      }
      if Truthy(HandleError(s)) {
        return Rejected(Str("Please resolve the error, or restart!"));
      }
      if StartBusy(Running(s)) {
        return Resolved(Undefined);
      }
      store.Dispatch(RequestStart());
      ParseTypeName(REQUEST_START);
      runs := runs + 1;
      startPending := true;
      o := Pending;
    }

    /** The `stop` thunk. It ignores a stream that is not running; otherwise it
        dispatches REQUEST_STOP, sends SIGINT and arms the force-kill timer.
        It never rejects. */
    method Stop() returns (o: Outcome)
      requires Valid() && !dead
      modifies this, store
      ensures Valid() && !dead
      ensures StopIdle(Running(old(store.state))) ==>
        o == Resolved(Undefined) && store.log == old(store.log) && stopPending == old(stopPending)
        && graceTimer == old(graceTimer) && signals == old(signals)
      ensures !StopIdle(Running(old(store.state))) ==>
        o == Pending && store.log == old(store.log) + [RequestStop()] && stopPending && graceTimer
        && signals == old(signals) + [SIGINT] && Running(store.state) == STOPPING
      ensures !o.Rejected?
      ensures startPending == old(startPending) && retryTimers == old(retryTimers) && runs == old(runs)
      ensures restart == old(restart)
    {
      if StopIdle(Running(store.state)) {
        return Resolved(Undefined);
      }
      store.Dispatch(RequestStop());
      ParseTypeName(REQUEST_STOP);
      signals := signals + [SIGINT];
      graceTimer := true;
      stopPending := true;
      o := Pending;
    }

    /** A pending stop completes: clear the timer and dispatch SET_STOPPED.
        `resume` says that a restart was waiting on this stop. */
    method StopCompleted() returns (stopped: Outcome, resume: bool)
      requires store.Valid() && !dead && stopPending && Pendings(STOPPING)
      modifies this, store
      ensures Valid() && !dead && !stopPending && !graceTimer && !startPending
      ensures stopped == Resolved(StoppedMessage)
      ensures store.log == old(store.log) + [SetStopped()] && Running(store.state) == STOPPED
      ensures resume == (old(restart) == AwaitingStop)
      ensures restart == (if resume then NoRestart else old(restart))
      ensures retryTimers == old(retryTimers) && signals == old(signals) && runs == old(runs)
    {
      graceTimer := false;
      ParseTypeName(SET_STOPPED);
      store.Dispatch(SetStopped());
      stopPending := false;
      stopped := Resolved(StoppedMessage);
      resume := restart == AwaitingStop;
      if resume {
        restart := NoRestart;
      }
    }

    /** The restart chain after its stop has settled: `start`, and the
        restart settles with it. */
    method ResumeRestart() returns (restarted: Option<Outcome>)
      requires Valid() && !dead && restart == NoRestart
      modifies this, store
      ensures Valid() && !dead
      ensures restarted.None? <==> restart == AwaitingStart
      ensures restart == AwaitingStart ==> startPending && store.log == old(store.log) + [RequestStart()]
      ensures restarted.Some? ==>
        (restart == NoRestart && store.log == old(store.log)
        && restarted.value in {Resolved(RestartedMessage), Rejected(RestartFailedMessage)})
      ensures stopPending == old(stopPending) && graceTimer == old(graceTimer)
      ensures retryTimers == old(retryTimers) && signals == old(signals)
    {
      var o := Start();
      if o == Pending {
        restart := AwaitingStart;
        restarted := None;
      } else if o.Resolved? {
        restarted := Some(Resolved(RestartedMessage));
      } else {
        restarted := Some(Rejected(RestartFailedMessage));
      }
    }

    /** The process emitted 'start': a pending start dispatches SET_STARTED and
        resolves, and so does a restart waiting on it. */
    method OnProcessStart() returns (settled: Settled)
      requires Valid() && !dead
      modifies this, store
      ensures Valid() && !dead && !startPending
      ensures old(startPending) ==>
        store.log == old(store.log) + [SetStarted()] && Running(store.state) == RUNNING
        && ErrorCode(store.state) == Bool(false) && HandleError(store.state) == Bool(false)
        && settled.start == Some(Resolved(StartedMessage))
        && (old(restart) == AwaitingStart <==> settled.restart == Some(Resolved(RestartedMessage)))
        && restart == NoRestart
      ensures !old(startPending) ==> store.log == old(store.log) && settled == Settled(None, None, None) && restart == old(restart)
      ensures settled.stop.None? && (settled.restart.Some? ==> settled.restart == Some(Resolved(RestartedMessage)))
      ensures stopPending == old(stopPending) && graceTimer == old(graceTimer) && retryTimers == old(retryTimers)
      ensures signals == old(signals) && runs == old(runs)
    {
      settled := Settled(None, None, None);
      if startPending {
        store.Dispatch(SetStarted());
        StartedClearsError(old(store.state));
        startPending := false;
        settled := settled.(start := Some(Resolved(StartedMessage)));
        if restart == AwaitingStart {
          restart := NoRestart;
          settled := settled.(restart := Some(Resolved(RestartedMessage)));
        }
      }
    }

    /** The process emitted 'stop'. */
    method OnProcessStop() returns (settled: Settled)
      requires Valid() && !dead
      modifies this, store
      ensures Valid() && !dead && !stopPending && (old(stopPending) ==> !graceTimer)
      ensures old(stopPending) ==>
        |store.log| > |old(store.log)| && store.log[..|old(store.log)| + 1] == old(store.log) + [SetStopped()]
        && settled.stop == Some(Resolved(StoppedMessage)) && settled.start.None?
      ensures !old(stopPending) ==>
        store.log == old(store.log) && settled == Settled(None, None, None)
        && restart == old(restart) && startPending == old(startPending) && graceTimer == old(graceTimer)
      ensures retryTimers == old(retryTimers) && signals == old(signals)
    {
      settled := Settled(None, None, None);
      if stopPending {
        var stopped, resume := StopCompleted();
        settled := Settled(None, Some(stopped), None);
        if resume {
          var restarted := ResumeRestart();
          settled := settled.(restart := restarted);
        }
      }
    }

    /** The 3000 ms timer of a stop fired: the process is killed with SIGKILL. */
    method OnGraceTimer()
      requires Valid() && !dead
      modifies this
      ensures Valid() && !dead && !graceTimer
      ensures signals == old(signals) + (if old(graceTimer) then [SIGKILL] else [])
      ensures startPending == old(startPending) && stopPending == old(stopPending) && retryTimers == old(retryTimers)
      ensures runs == old(runs) && restart == old(restart)
    {
      if graceTimer {
        graceTimer := false;
        signals := signals + [SIGKILL];
      }
    }

    /** The 1000 ms timer scheduled by an unknown crash fired: `start` runs
        again (nobody handles its promise). */
    method OnRetryTimer() returns (o: Option<Outcome>)
      requires Valid() && !dead
      modifies this, store
      ensures Valid() && !dead
      ensures old(retryTimers) == 0 ==>
        o.None? && store.log == old(store.log) && retryTimers == 0
        && startPending == old(startPending) && runs == old(runs)
      ensures old(retryTimers) > 0 ==>
        o.Some? && retryTimers == old(retryTimers) - 1
        && (o.value == Pending <==> store.log == old(store.log) + [RequestStart()])
        && (o.value != Pending ==> store.log == old(store.log))
      ensures stopPending == old(stopPending) && graceTimer == old(graceTimer)
      ensures signals == old(signals) && restart == old(restart)
    {
      if retryTimers == 0 {
        return None;
      }
      retryTimers := retryTimers - 1;
      var r := Start();
      o := Some(r);
    }

    /** SET_ERROR, if `crashed` dispatches it. */
    method DispatchCrash(acts: seq<Action>)
      requires store.Valid()
      requires acts == [] || (|acts| == 1 && Kind(acts[0]) == Some(SET_ERROR))
      modifies store
      ensures store.Valid() && store.log == old(store.log) + acts
      ensures acts != [] ==> Running(store.state) == STOPPED
      ensures acts == [] ==> store.state == old(store.state)
    {
      if acts != [] {
        store.Dispatch(acts[0]);
        assert acts == [acts[0]];
      }
    }

    /** TRY_RECONNECT, if the handler's thunk gets that far. */
    method DispatchHandler(acts: seq<Action>)
      requires store.Valid()
      requires acts == [] || (|acts| == 1 && Kind(acts[0]) == Some(TRY_RECONNECT))
      modifies store
      ensures store.Valid() && store.log == old(store.log) + acts
      ensures Running(old(store.state)) == STOPPED ==> Running(store.state) == STOPPED
      ensures acts == [] ==> store.state == old(store.state)
    {
      if acts != [] {
        store.Dispatch(acts[0]);
        assert acts == [acts[0]];
      }
    }

    /** `crashed` itself: classify, dispatch SET_ERROR, schedule the retry of
        an unknown crash and run the reconnect handler's thunk. */
    method Crashed(message: string, stdout: Value, stderr: Value)
      returns (crash: CrashRun, handled: ErrorHandler.HandleRun)
      requires Valid() && !dead
      modifies this, store
      ensures store.Valid() && (!dead ==> Pendings(Running(old(store.state))))
      ensures crash == CrashResponse(message, stdout, stderr, command.input, old(store.state.config))
      ensures handled == (if crash.target.Some? then ErrorHandler.Handle(crash.target.value)
        else ErrorHandler.HandleRun([], None, None))
      ensures store.log == old(store.log) + crash.dispatched + handled.dispatched
      ensures retryTimers == old(retryTimers) + (if crash.retry then 1 else 0)
      ensures dead <==> handled.thrown.Some?
      ensures crash.dispatched != [] ==> Running(store.state) == STOPPED
      ensures crash.dispatched == [] ==> store.state == old(store.state)
      ensures startPending == old(startPending) && stopPending == old(stopPending) && graceTimer == old(graceTimer)
      ensures signals == old(signals) && runs == old(runs) && restart == old(restart)
    {
      crash := CrashResponse(message, stdout, stderr, command.input, store.state.config);
      handled := if crash.target.Some? then ErrorHandler.Handle(crash.target.value)
        else ErrorHandler.HandleRun([], None, None);
      DispatchCrash(crash.dispatched);
      DispatchHandler(handled.dispatched);
      if crash.retry {
        retryTimers := retryTimers + 1;
      }
      if handled.thrown.Some? {
        dead := true;
      }
    }

    /** The prepended error listener of a pending start rejects it, and a
        restart waiting on that start rejects too. */
    method StartFailed() returns (settled: Settled)
      requires store.Valid() && !dead && startPending && Pendings(STARTING)
      modifies this
      ensures Valid() && !dead && !startPending
      ensures settled.start == Some(Rejected(StartFailedMessage)) && settled.stop.None?
      ensures old(restart) == AwaitingStart <==> settled.restart == Some(Rejected(RestartFailedMessage))
      ensures old(restart) != AwaitingStart ==> settled.restart.None? && restart == old(restart)
      ensures old(restart) == AwaitingStart ==> restart == NoRestart
      ensures stopPending == old(stopPending) && graceTimer == old(graceTimer) && retryTimers == old(retryTimers)
      ensures signals == old(signals) && runs == old(runs)
    {
      startPending := false;
      settled := Settled(Some(Rejected(StartFailedMessage)), None, None);
      if restart == AwaitingStart {
        restart := NoRestart;
        settled := settled.(restart := Some(Rejected(RestartFailedMessage)));
      }
    }

    /** A process 'error'. The listeners run in order: the prepended start or
        stop listener settles its promise, then `crashed` runs; the settled
        promise's continuation runs after them. An exception out of the
        handler ends the process first. */
    method OnProcessError(message: string, stdout: Value, stderr: Value)
      returns (crash: CrashRun, handled: ErrorHandler.HandleRun, settled: Settled)
      requires Valid() && !dead
      modifies this, store
      ensures Valid()
      ensures crash == CrashResponse(message, stdout, stderr, command.input, old(store.state.config))
      ensures handled == (if crash.target.Some? then ErrorHandler.Handle(crash.target.value)
        else ErrorHandler.HandleRun([], None, None))
      ensures |store.log| >= |old(store.log)| + |crash.dispatched + handled.dispatched|
      ensures store.log[..|old(store.log)| + |crash.dispatched + handled.dispatched|]
        == old(store.log) + crash.dispatched + handled.dispatched
      ensures retryTimers == old(retryTimers) + (if crash.retry then 1 else 0)
      ensures dead <==> handled.thrown.Some?
      ensures dead ==> settled == Settled(None, None, None)
      ensures !dead && old(startPending) ==> settled.start == Some(Rejected(StartFailedMessage))
      ensures !dead && old(startPending) ==>
        (old(restart) == AwaitingStart <==> settled.restart == Some(Rejected(RestartFailedMessage)))
      ensures !dead && old(stopPending) ==> settled.stop == Some(Resolved(StoppedMessage)) && !graceTimer
      ensures !old(startPending) ==> settled.start.None?
      ensures !old(stopPending) ==> settled.stop.None?
      ensures !dead && old(restart) != AwaitingStop ==> !startPending && !stopPending
      ensures signals == old(signals)
    {
      ghost var log0 := store.log;
      crash, handled := Crashed(message, stdout, stderr);
      assert store.log[..|log0| + |crash.dispatched + handled.dispatched|] == log0 + crash.dispatched + handled.dispatched;
      settled := Settled(None, None, None);
      if dead {
        return;
      }
      ghost var log1 := store.log;
      settled := Settle();
      assert store.log[..|log1|] == log1;
    }

    /** The continuations of the promises an 'error' settled. */
    method Settle() returns (settled: Settled)
      requires store.Valid() && !dead
      requires Pendings(if startPending then STARTING else if stopPending then STOPPING else Running(store.state))
      modifies this, store
      ensures Valid() && !dead
      ensures |store.log| >= |old(store.log)| && store.log[..|old(store.log)|] == old(store.log)
      ensures old(startPending) ==> settled.start == Some(Rejected(StartFailedMessage))
      ensures old(startPending) ==>
        (old(restart) == AwaitingStart <==> settled.restart == Some(Rejected(RestartFailedMessage)))
      ensures old(stopPending) ==> settled.stop == Some(Resolved(StoppedMessage)) && !graceTimer
      ensures !old(startPending) ==> settled.start.None?
      ensures !old(stopPending) ==> settled.stop.None?
      ensures old(restart) != AwaitingStop ==> !startPending && !stopPending
      ensures retryTimers == old(retryTimers) && signals == old(signals)
    {
      settled := Settled(None, None, None);
      if startPending {
        settled := StartFailed();
      }
      if stopPending {
        var stopped, resume := StopCompleted();
        settled := settled.(stop := Some(stopped));
        if resume {
          var restarted := ResumeRestart();
          settled := settled.(restart := restarted);
        }
      }
    }

    /** The first two steps of `restart`: REQUEST_RESTART, then the (intended)
        `stopHandling`, which stops a running reconnect handler. */
    method CancelHandling()
      requires Valid() && !dead
      modifies this, store, reconnector
      ensures Valid() && !dead
      ensures store.log == old(store.log) + [RequestRestart(), StopErrorHandling()]
      ensures Running(store.state) == Running(old(store.state)) || (Running(old(store.state)) == Undefined && Running(store.state) == STOPPED)
      ensures !Truthy(HandleError(store.state)) && Restarting(store.state) == Bool(true)
      ensures Prop(store.state.config, "unconfigured") == Prop(old(store.state).config, "unconfigured")
      ensures reconnector.retryArmed == (old(reconnector.retryArmed) && HandleError(old(store.state)) != Str("TRY_RECONNECT"))
      ensures startPending == old(startPending) && stopPending == old(stopPending) && graceTimer == old(graceTimer)
      ensures signals == old(signals) && runs == old(runs) && restart == old(restart) && retryTimers == old(retryTimers)
    {
      ParseTypeName(REQUEST_RESTART);
      ParseTypeName(STOP_ERROR_HANDLING);
      var handling := HandleError(store.state);
      store.Dispatch(RequestRestart());
      var stopping := ErrorHandler.StopHandling(store.state);
      store.Dispatch(StopErrorHandling());
      if stopping.stopCalled {
        reconnector.Stop();
      }
    }

    /** The rest of `restart`: `stop`, then `start` once the stop has settled. */
    method StopThenStart() returns (o: Outcome)
      requires Valid() && !dead
      modifies this, store
      ensures Valid() && !dead
      ensures |store.log| >= |old(store.log)| && store.log[..|old(store.log)|] == old(store.log)
      ensures o.Resolved? ==> o == Resolved(RestartedMessage)
      ensures o.Rejected? ==> o == Rejected(RestartFailedMessage)
      ensures o == Pending ==> (restart == AwaitingStop && stopPending) || (restart == AwaitingStart && startPending)
      ensures old(restart) != NoRestart ==> o != Pending && restart == old(restart) && store.log == old(store.log)
      ensures Running(old(store.state)) == RUNNING ==>
        (o == Pending && restart == AwaitingStop && signals == old(signals) + [SIGINT]
        && store.log == old(store.log) + [RequestStop()])
      ensures (Running(old(store.state)) == STOPPED && !Truthy(HandleError(old(store.state)))
        && !Truthy(Prop(old(store.state).config, "unconfigured"))) ==>
        (o == Pending && restart == AwaitingStart && startPending && store.log == old(store.log) + [RequestStart()])
      ensures Running(old(store.state)) == STOPPED && Truthy(Prop(old(store.state).config, "unconfigured")) ==>
        o == Rejected(RestartFailedMessage)
      ensures retryTimers == old(retryTimers)
    {
      var stopped := Stop();
      if stopped == Pending {
        restart := AwaitingStop;
        return Pending;
      }
      var started := Start();
      if started == Pending {
        restart := AwaitingStart;
        o := Pending;
      } else if started.Resolved? {
        o := Resolved(RestartedMessage);
      } else {
        o := Rejected(RestartFailedMessage);
      }
    }

    /** `restart`: REQUEST_RESTART, then stopping the error handling, then
        `stop`, then `start`, each after the previous one has settled. */
    method Restart() returns (o: Outcome)
      requires Valid() && !dead
      modifies this, store, reconnector
      ensures Valid() && !dead
      ensures |store.log| >= |old(store.log)| + 2
      ensures store.log[..|old(store.log)| + 2] == old(store.log) + [RequestRestart(), StopErrorHandling()]
      ensures Restarting(store.state) == Bool(true)
      ensures reconnector.retryArmed == (old(reconnector.retryArmed) && HandleError(old(store.state)) != Str("TRY_RECONNECT"))
      ensures o.Resolved? ==> o == Resolved(RestartedMessage)
      ensures o.Rejected? ==> o == Rejected(RestartFailedMessage)
      ensures o == Pending ==> (restart == AwaitingStop && stopPending) || (restart == AwaitingStart && startPending)
      ensures old(restart) != NoRestart ==>
        (o != Pending && restart == old(restart)
        && store.log == old(store.log) + [RequestRestart(), StopErrorHandling()])
      ensures Running(old(store.state)) == RUNNING ==>
        (o == Pending && restart == AwaitingStop && signals == old(signals) + [SIGINT]
        && store.log == old(store.log) + [RequestRestart(), StopErrorHandling(), RequestStop()])
      ensures Running(old(store.state)) == STOPPED && !Truthy(Prop(old(store.state).config, "unconfigured")) ==>
        (o == Pending && restart == AwaitingStart && startPending
        && store.log == old(store.log) + [RequestRestart(), StopErrorHandling(), RequestStart()])
      ensures Running(old(store.state)) == STOPPED && Truthy(Prop(old(store.state).config, "unconfigured")) ==>
        o == Rejected(RestartFailedMessage)
      ensures retryTimers == old(retryTimers)
    {
      CancelHandling();
      ghost var log1 := store.log;
      o := StopThenStart();
      assert store.log[..|old(store.log)| + 2] == log1;
      RestartRecorded(store.initial, store.log, |old(store.log)|);
    }

    /** The reconnect prober reached its host: the intended success clears the
        handler and calls `after`, which starts the stream again. */
    method OnProbeSuccess() returns (o: Outcome)
      requires Valid() && !dead
      modifies this, store
      ensures Valid() && !dead
      ensures |store.log| >= |old(store.log)| + 1
      ensures store.log[..|old(store.log)| + 1] == old(store.log) + ErrorHandler.Success().dispatched
      ensures Running(old(store.state)) == STOPPED && !Truthy(Prop(old(store.state).config, "unconfigured")) ==>
        o == Pending && startPending && store.log == old(store.log) + [StopErrorHandling(), RequestStart()]
      ensures stopPending == old(stopPending) && graceTimer == old(graceTimer) && retryTimers == old(retryTimers)
      ensures signals == old(signals) && restart == old(restart)
    {
      ParseTypeName(STOP_ERROR_HANDLING);
      var success := ErrorHandler.Success();
      store.Dispatch(StopErrorHandling());
      ghost var log1 := store.log;
      o := Start();
      assert store.log[..|old(store.log)| + 1] == log1;
    }
  }
}
