# doccam-pi core in Dafny

A model of the agent that runs on a doccam camera box. It pulls the camera's
RTSP stream through ffmpeg and pushes it to YouTube. It reports its state to a
master server over socket.io, and it keeps two reverse SSH tunnels open
through a separate tunnel-broker process.

One module per source file:

- `Values` (values.dfy): the JavaScript values the agent passes around. It covers `undefined`, `null`, booleans, integers, strings, arrays and plain objects, with JavaScript truthiness and `||`. It also has the string helpers the source relies on: `indexOf > -1`, `split` and `join`, and `String(n)`.
- `Actions` (src/actions.js): the action-type constants, the action creators and the `updateConfig` thunk.
- `Reducers` (src/reducers.js): the field reducers, their combination, and a `Store` class. The class holds the current state and keeps `state == Run(initial, log)` over everything dispatched to it.
- `ErrorHandler` (src/errorHandler.js):
  - the `tryReconnect` handler: argument checks, TRY_RECONNECT, and the probe loop, modelled as a `Reconnector` class with a `while` loop over probe attempts;
  - what a successful probe does;
  - `stop`;
  - `stopHandling`.
- `Commander` (src/commander.js):
  - the ffmpeg command built from the configuration, including custom-option normalisation;
  - the crash classifier and the crash response;
  - a `Supervisor` class with the `start`, `stop` and `restart` thunks. Each process event ('start', 'stop', 'error', and the 3000 ms and 1000 ms timers) is a method that updates the pending promises, timers and signals.
- `Ssh` (src/ssh.js):
  - the `connect`, `disconnect` and `restartTunnels` thunks, as functions of the given `ssh.status` and of what the outside world answers;
  - an `IpcClient` class that holds the `connected` flag and the pending tunnel requests. Requests settle on `success<id>`, `error<id>`, a channel error or a timeout.
- `SshManager` (extras/sshManager.js): the broker's tunnel table as a `TunnelDaemon` class with its 'create_tunnel' and 'close_tunnel' handlers, the rule that decides when a tunnel creation has failed, and the reply naming.
- `Communicator` (src/communicator.js): `sendAction`, `sendMessage`, the store middleware and the socket 'connect' handler.
- `MemWrite` (lib/memWrite.js): the in-memory writable stream `WMStrm` with its append-only `memStore`.

The store has no reducer for `ssh`, so `getState().ssh` is not part of the state (`Reducers.State`). As assembled, every read of `getState().ssh` throws: the status checks of `connect` and `disconnect`, and the `willReconnect` test of the IPC 'connect' handler. The model describes these functions as they behave with a store that has an `ssh` slice: the `Ssh` functions take `ssh.status` as an argument, and `Ssh.IpcClient.OnConnect` takes `willReconnect`.

Asynchronous steps are modelled by their outcomes, given as inputs, in the order the code awaits them:

- a promise ends as `Resolved`, `Rejected`, `Thrown` (a synchronous exception) or `Pending`;
- a thunk's run is the list of actions it dispatched plus that outcome.

## Model

| member | source | states |
|---|---|---|
| Values.Or | src/communicator.js:110 | JavaScript `a \|\| b`: the left operand when it is truthy, the right one otherwise |
| Values.Split | src/errorHandler.js:114 | `split` always yields at least one piece |
| Values.SplitJoin | src/commander.js:222 | the pieces of `split(sep)` contain no separator, and joining them restores the string |
| Values.JoinSplit | src/commander.js:222 | splitting the join of separator-free pieces gives the pieces back |
| Values.PieceAt | src/commander.js:222 | a character of a piece is the character at the piece's offset in the joined string |
| Values.IntToStringInjective | src/ssh.js:245 | distinct numbers have distinct decimal texts, so reply names built from ids do not collide |
| Values.ParseNatToString | src/ssh.js:245 | reading the decimal text of a natural number gives the number back |
| Values.ContainsPrefixOf | src/commander.js:272 | a string containing `s + t` also contains `s` |
| Actions.ParseTypeName | src/actions.js:18-45 | each type constant is recognised as itself by the reducers' switch |
| Actions.ParseTypeSound | src/actions.js:18-45 | a string recognised as a type is exactly that constant's value |
| Actions.TypeNamesDistinct | src/actions.js:18-45 | every constant's value equals its key, so no two types share a value |
| Actions.PlainCreators | src/actions.js:88-116 | each argument-free creator returns only its own type; `setSSHDisconnecting` and `setSSHWillReconnect` ignore their argument |
| Actions.ArgumentCreators | src/actions.js:119-140 | `setError` carries data, stdout and stderr; `setTryReconnect` carries `to`; `setName`, `setSSHRemotePorts` and `setSSHError` carry their argument in `data` |
| Actions.UpdateConfig | src/actions.js:62-86 | without an update, the stored configuration is used and nothing is written; with neither, it throws 'Could not load config.'; UPDATE_CONFIG comes first, and SET_NAME follows only when `name` is truthy |
| Reducers.RunningReducer | src/reducers.js:60-74 | starting from a phase, `running` stays one of the four phases |
| Reducers.StreamReducer | src/reducers.js:92-99 | the stream slice has exactly the fields running, error, handleError and restarting |
| Reducers.RunningEdges | src/reducers.js:60-74 | REQUEST_START→STARTING, SET_STARTED→RUNNING, REQUEST_STOP→STOPPING, SET_STOPPED or SET_ERROR→STOPPED; any change of phase comes from one of these five |
| Reducers.StartedClearsError | src/reducers.js:27-52 | after SET_STARTED: running is RUNNING, error is false and handleError is false |
| Reducers.ErrorTransitions | src/reducers.js:27-36 | SET_ERROR stores its data; only SET_STARTED (or a SET_ERROR carrying false) clears a set error; anything else keeps it |
| Reducers.HandleErrorTransitions | src/reducers.js:42-52 | TRY_RECONNECT sets 'TRY_RECONNECT'; SET_STARTED and STOP_ERROR_HANDLING clear it; nothing else sets it |
| Reducers.RestartingSticks | src/reducers.js:79-86 | once REQUEST_RESTART has been dispatched, `restarting` stays true whatever follows |
| Reducers.InitialFirstAction | main.js:34-55 | from the preloaded state, the first action drops the extra stream fields, and `restarting` starts false because the preloaded object misspells it |
| Reducers.ConfigMerge | src/reducers.js:105-112 | on UPDATE_CONFIG the update's keys win, the other keys are kept, and nothing else appears |
| Reducers.ConfigUpdateIdempotent | src/reducers.js:105-112 | applying the same configuration update twice equals applying it once |
| Reducers.NameAndConnected | src/reducers.js:118-136 | SET_NAME sets the name; SET_CONNECTED and SET_DISCONNECTED set `connected` |
| Reducers.RunAppend | src/reducers.js:138 | folding two batches of actions equals folding their concatenation |
| Reducers.Store.constructor | src/reducers.js:138 | a new store holds the preloaded state and has dispatched nothing |
| Reducers.Store.Dispatch | src/reducers.js:138 | the new state is the root reducer applied to the old state and the action |
| Reducers.Store.DispatchAll | src/reducers.js:138 | dispatching a batch in order leaves the state that folding the batch gives |
| ErrorHandler.ProbeHost | src/errorHandler.js:114 | the probed host is the whole target when it has no '/', and otherwise the prefix before its first '/' |
| ErrorHandler.ProbeHostBeforeSlash | src/errorHandler.js:114 | for `p + "/" + q` with no '/' in p, the probe goes to p |
| ErrorHandler.UpstreamProbeHost | src/errorHandler.js:114 | the upstream target 'a.rtmp.youtube.com/live2/' is probed at 'a.rtmp.youtube.com' |
| ErrorHandler.Handle | src/errorHandler.js:88-118 | it throws 'Invalid Host or Port!' without dispatching if and only if host or port is falsy; otherwise it dispatches TRY_RECONNECT with [host, port] before the first probe; a non-string host then throws from `split` |
| ErrorHandler.HandleArmsProbe | src/errorHandler.js:93-100 | after `handle` dispatches, `handleError` is set, so the first probe attempt goes ahead |
| ErrorHandler.ProbeTrace | src/errorHandler.js:97-118 | each attempt checks `handleError` first: a cleared value cancels the loop, a connect reaches the target, and a failure waits and retries |
| ErrorHandler.ProbeTraceFinal | src/errorHandler.js:97-118 | once the loop is cancelled or has reached its target, later attempts change nothing |
| ErrorHandler.ClearedHandlerCancels | src/errorHandler.js:98-100 | after any number of failed probes, clearing `handleError` cancels the next attempt without probing |
| ErrorHandler.Reconnector.Reconnect | src/errorHandler.js:97-118 | the loop's trace equals `ProbeTrace`, and a retry timer is armed exactly when the loop is still waiting |
| ErrorHandler.Reconnector.Stop | src/errorHandler.js:130-132 | `stop` clears the pending retry timer |
| ErrorHandler.SuccessClearsHandler | src/errorHandler.js:120-126 | a successful probe dispatches STOP_ERROR_HANDLING, which clears `handleError`; as written it then throws and never calls `after`, while the corrected version calls it |
| ErrorHandler.StopHandlingNeverStops | src/errorHandler.js:47-68 | as written, `stopHandling` dispatches STOP_ERROR_HANDLING, resolves and never stops a handler |
| ErrorHandler.StopHandlingStopsReconnect | src/errorHandler.js:47-68 | corrected: the handler is stopped exactly when `handleError` names the reconnect handler (as it does after TRY_RECONNECT), and `handleError` ends cleared |
| Commander.SpaceRun | src/commander.js:222 | the length of the run of `\s` characters at the start of a string |
| Commander.DashToComma | src/commander.js:222 | after `replace(/\s+\-/g, ',-')` no whitespace precedes a '-' |
| Commander.CollapseCommas | src/commander.js:222 | after `replace(/\s+\,\s+/g, ',')` no comma has whitespace on both sides; the result is empty exactly when the input is |
| Commander.NormalizeOptions | src/commander.js:222-230 | the option pieces contain no ',' and join back to the string after both replacements |
| Commander.NormalizedPiecesSeparateFlags | src/commander.js:222-230 | inside a normalised piece, no '-' is preceded by whitespace |
| Commander.OptionLists | src/commander.js:221-230 | the three custom option fields contribute their normalised lists in the order output, audio, video, and an empty field contributes none |
| Commander.CreateCommand | src/commander.js:212-240 | the input is 'rtsp://'+camIP+':'+camPort+'/'+camProfile and the output is the YouTube URL plus the key, in flv; the output options are the normalised output, audio and video option lists, each only when its string is non-empty and in that order, followed by the fixed buffer options; audio and video are copied exactly when their custom options are empty; the command fails when an option value is not a string |
| Commander.AudioCodecCrash | src/commander.js:224-227 | with empty custom audio options the command as written throws at `cmd.AudioCodec`; the corrected command copies audio and video |
| Commander.Classify | src/commander.js:261-295 | the first match wins: source → code 0; YouTube URL with key → code 1; 'spawn' or 'niceness' → code 2; 'SIGINT' or 'SIGKILL' → no error; otherwise code 3 (each as an if-and-only-if) |
| Commander.SourceIoErrorIsCamera | src/commander.js:265-272 | a message with source + 'Input/output error' is always code 0, never code 1 |
| Commander.EmptySourceIsCamera | src/commander.js:265 | with an empty source every message is code 0 |
| Commander.CrashResponse | src/commander.js:261-302 | every crash except the supervisor's own signal dispatches exactly one SET_ERROR with its code; only codes 0 and 1 attach a reconnect handler (camIP:camPort, or the YouTube ingest at 1935); only code 3 schedules a start |
| Commander.CrashStopsStream | src/commander.js:297 | after a crash's SET_ERROR, the stream is STOPPED and the error is the crash code |
| Commander.RestartRecorded | src/commander.js:152-166 | a REQUEST_RESTART anywhere in the log leaves `restarting` true |
| Commander.Supervisor.constructor | src/commander.js:67-101 | the command is built from the configuration (with the corrected audio setter of `Commander.CreateCommand`), and nothing is pending; when the command cannot be built, the exception ends the agent process |
| Commander.Supervisor.Start | src/commander.js:116-146 | the checks run in order: unconfigured rejects, then a running handler rejects, both before any dispatch; a busy stream resolves without dispatching; otherwise REQUEST_START is dispatched, the command runs and the promise waits |
| Commander.Supervisor.Stop | src/commander.js:173-204 | when STARTING, STOPPING or STOPPED it resolves and does nothing; otherwise it dispatches REQUEST_STOP, sends SIGINT and arms the kill timer; it never rejects |
| Commander.Supervisor.OnProcessStart | src/commander.js:134-140 | a pending start dispatches SET_STARTED and resolves, leaving the stream running with no error and no handler |
| Commander.Supervisor.OnProcessStop | src/commander.js:184-201 | a pending stop clears the kill timer, dispatches SET_STOPPED and resolves |
| Commander.Supervisor.StopCompleted | src/commander.js:196-200 | SET_STOPPED is dispatched and the kill timer cleared |
| Commander.Supervisor.ResumeRestart | src/commander.js:159-162 | a restart that was waiting on the stop runs `start` |
| Commander.Supervisor.OnGraceTimer | src/commander.js:191-195 | the armed kill timer sends SIGKILL once |
| Commander.Supervisor.OnRetryTimer | src/commander.js:291-294 | a timer scheduled by an unknown crash runs `start` |
| Commander.Supervisor.Crashed | src/commander.js:261-302 | the crash response is dispatched and its handler started; an exception from the handler ends the process |
| Commander.Supervisor.OnProcessError | src/commander.js:98 | the listeners that `start` and `stop` prepend (src/commander.js:136, src/commander.js:186) only settle their promises before `crashed` runs; `crashed`'s SET_ERROR and its handler's dispatches come first in the log, and the continuations run after them: a pending start rejects (a restart waiting on it too), a pending stop clears the kill timer, dispatches SET_STOPPED and resolves; when the handler throws, the process ends and nothing settles |
| Commander.Supervisor.StartFailed | src/commander.js:136-142 | a start-time error rejects the pending start, and a restart waiting on it |
| Commander.Supervisor.Settle | src/commander.js:134-201 | a start-time error rejects a pending start; the same error completes a pending stop |
| Commander.Supervisor.CancelHandling | src/commander.js:154-158 | REQUEST_RESTART, then the corrected `stopHandling`, which disarms the reconnect loop's timer when the reconnect handler runs |
| Commander.Supervisor.StopThenStart | src/commander.js:159-164 | `stop`, then `start` once the stream has stopped; the restart resolves when started and rejects with 'Could not start!' |
| Commander.Supervisor.Restart | src/commander.js:152-167 | REQUEST_RESTART, STOP_ERROR_HANDLING, then stop and start in that order; `restarting` is left true; it uses the corrected `stopHandling`, so a running reconnect loop's retry timer is disarmed (as written it stays armed, see `ErrorHandler.StopHandlingNeverStops`) |
| Commander.Supervisor.OnProbeSuccess | src/commander.js:267-268 | the handler's `after` callback, with the corrected recovery (src/errorHandler.js:120-126): STOP_ERROR_HANDLING, then `start` |
| Ssh.CreatePayload | src/ssh.js:265-274 | the 'create_tunnel' message carries id, ports, keep-alive 30 and reverse, and no `localHost` |
| Ssh.ClosePayload | src/ssh.js:298-301 | the 'close_tunnel' message carries the id and the port |
| Ssh.ReplyNamesDistinct | src/ssh.js:245-257 | `success<id>` and `error<id>` names of different ids never coincide, and a success name is never an error name |
| Ssh.SettlesOnce | src/ssh.js:243-303 | once a tunnel request has settled, no later event changes its outcome |
| Ssh.FirstEventWins | src/ssh.js:243-303 | the first of `success<id>`, `error<id>`, a channel error or the timeout settles the request for good |
| Ssh.OtherEventsIgnored | src/ssh.js:243-303 | an event that does not concern a pending request leaves it pending |
| Ssh.RepliesCorrelateById | src/ssh.js:250-257 | replies for another id leave a request untouched |
| Ssh.IpcClient.constructor | src/ssh.js:40 | a new client is not connected and has no requests |
| Ssh.IpcClient.OnConnect | src/ssh.js:213-218 | the flag is set, and `connect` is run only when `willReconnect` is set |
| Ssh.IpcClient.OnDisconnect | src/ssh.js:223-233 | does nothing when not connected; otherwise it clears the flag and dispatches SET_SSH_WILL_RECONNECT, then SET_SSH_ERROR |
| Ssh.IpcClient.Send | src/ssh.js:243-276 | a request is added pending, with its error listener and timer armed |
| Ssh.IpcClient.Deliver | src/ssh.js:250-261 | a reply or a channel error reaches every request's listeners; timers fire one request at a time through `Expire` |
| Ssh.IpcClient.Expire | src/ssh.js:248 | a request's own timer fires |
| Ssh.DeliverKeepsSettled | src/ssh.js:243-303 | delivering an event never changes a settled request |
| Ssh.Connect | src/ssh.js:105-115 | 'SSH is disabled.' comes before any status check; CONNECTED resolves without dispatching; CONNECTING rejects with the conflict message; otherwise the chain runs |
| Ssh.Chain | src/ssh.js:117-144 | SET_SSH_CONNECTING first; a connectivity check that never settles leaves the chain pending; every failure ends with SET_SSH_ERROR carrying the rejection reason; success ends with SET_SSH_REMOTE_PORTS and SET_SSH_CONNECTED; the ssh tunnel is requested before the camera tunnel, and only after the first succeeds; there is no third connectivity check, because line 135 returns `isIpcConnected` without calling it |
| Ssh.Tunnels | src/ssh.js:129-138 | on success the remote ports dispatched are exactly the ports the manager replied |
| Ssh.InvalidPortsRejected | src/ssh.js:121-123 | ports that are not both numbers reject with 'Invalid Ports!' before any tunnel is requested |
| Ssh.Disconnect | src/ssh.js:153-177 | corrected: rejects unless CONNECTED; after SET_SSH_DISCONNECTING, success and failure both end with SET_SSH_DISCONNECTED, and success closes both tunnels; a rejection carries 'Cannot connect to the SSH-Manager.' exactly when the channel failed, and otherwise `undefined` or the timeout message of a timer that fired; a check that never settles leaves it pending with nothing sent |
| Ssh.DisconnectNeverCloses | src/ssh.js:163-164 | as written, a connected disconnect sends nothing and never reaches SET_SSH_DISCONNECTED; corrected, it closes both tunnels |
| Ssh.StatusAfterDisconnect | src/ssh.js:167-174 | once a disconnect has settled the status is no longer CONNECTED; a refused disconnect leaves it as it was |
| Ssh.RestartWaitsForDisconnect | src/ssh.js:188-189 | corrected: while the disconnect is pending the restart is pending, no SET_SSH_CONNECTING is dispatched and only close requests are sent |
| Ssh.RestartFollowsConnect | src/ssh.js:188-191 | corrected: once the disconnect has settled either way, the restart resolves with 'SSH Tunnels successfully restarted.' exactly when the connect resolves, and otherwise ends as the connect does; the connect's actions and requests follow the disconnect's |
| Ssh.DisconnectAnswered | src/ssh.js:160-170 | corrected: from CONNECTED, with both close requests answered, SET_SSH_DISCONNECTING and SET_SSH_DISCONNECTED are dispatched and both tunnels are closed, ssh first |
| Ssh.ConnectAnswered | src/ssh.js:117-139 | from DISCONNECTED, with the channel up, numeric ports and both create requests answered, the connect requests the ssh tunnel then the camera tunnel and dispatches the replied ports and SET_SSH_CONNECTED |
| Ssh.RestartFromConnected | src/ssh.js:184-193 | corrected: from CONNECTED with every request answered, both tunnels are closed, then both are requested again, and the restart resolves with its message |
| Ssh.RestartTunnelsNeverConnects | src/ssh.js:186 | as written, no tunnel is ever requested, and nothing is dispatched unless the tunnels were connected |
| SshManager.ReplyReachesItsRequest | extras/sshManager.js:124-126 | a broker reply for id n settles exactly the client request with id n (src/ssh.js:251-257): success resolves it and error rejects it |
| SshManager.Create | extras/sshManager.js:41-61 | an entry whose host is 'localhost' or the requested one is answered with its remote port and nothing changes; otherwise a placeholder is stored before creation starts |
| SshManager.Succeeded | extras/sshManager.js:62-65 | the tunnel is stored under its own local port and its remote port is replied |
| SshManager.Failed | extras/sshManager.js:66-70 | the error is replied and the requested port's entry removed |
| SshManager.Close | extras/sshManager.js:76-93 | an absent port is answered 'No tunnel with this port.' and nothing changes; a present tunnel is killed, only its entry is removed, and success is replied; a placeholder throws |
| SshManager.HandlersKeepLiveKeyed | extras/sshManager.js:41-93 | every handler keeps each running tunnel under its own local port |
| SshManager.CreateTwice | extras/sshManager.js:47-59 | a repeated request is answered at once without a second creation; while the first is still pending the answer has no remote port |
| SshManager.OtherHostForgetsTunnel | extras/sshManager.js:50-59 | a request from another host replaces a running tunnel's entry with a placeholder without killing it |
| SshManager.CreatedThenClosed | extras/sshManager.js:62-92 | a created tunnel is closed by its local port: it is killed and its entry removed |
| SshManager.TunnelDaemon.constructor | extras/sshManager.js:18 | the table starts empty |
| SshManager.TunnelDaemon.Apply | extras/sshManager.js:41-93 | a handler's effect on the table, the killed tunnels and the process |
| SshManager.TunnelDaemon.CreateTunnel | extras/sshManager.js:41-61 | the table and reply follow `Create` and the keying invariant holds |
| SshManager.TunnelDaemon.CreationSucceeded | extras/sshManager.js:62-65 | the table and reply follow `Succeeded` |
| SshManager.TunnelDaemon.CreationFailed | extras/sshManager.js:66-70 | the table and reply follow `Failed` |
| SshManager.TunnelDaemon.CloseTunnel | extras/sshManager.js:76-93 | the table, reply and killed tunnels follow `Close`, and a placeholder crashes the process |
| SshManager.Judge | extras/sshManager.js:109-117 | a creation fails on a string error, or on a message containing 'failed for listen port' or 'refused'; other errors are ignored |
| SshManager.KillsPerFailingError | extras/sshManager.js:111-113 | every failing error kills the tunnel, also after the creation resolved |
| SshManager.CreationSettlesOnce | extras/sshManager.js:99-122 | the first resolution or failure decides the creation |
| SshManager.ResolvedThenKilled | extras/sshManager.js:104-113 | 'connect' and its 1000 ms timer resolve the creation; a failing error afterwards still kills the stored tunnel |
| SshManager.FailureBeforeTimer | extras/sshManager.js:104-114 | a failing error before the timer rejects with its reason |
| Communicator.RunningCode | src/communicator.js:109 | 0 exactly when `stream.running` is 'RUNNING', otherwise 1 |
| Communicator.ErrorField | src/communicator.js:110 | `error \|\| -1`: a falsy error, false or 0, is sent as -1 |
| Communicator.SendAction | src/communicator.js:93-142 | nothing is sent when disconnected or without a type; only SET_STARTED, SET_STOPPED, SET_ERROR, UPDATE_CONFIG and HYDRATE are sent; HYDRATE sends 'meta' and the others 'change' |
| Communicator.SendMessage | src/communicator.js:151-169 | nothing is sent when disconnected; otherwise the fixed 'Could not start SSH tunnels!' error goes to the recipient |
| Communicator.SendMessageIgnoresArguments | src/communicator.js:151-169 | title, type and text make no difference |
| Communicator.Middleware | src/communicator.js:250-258 | the reducers run first and the action is returned unchanged; the relayed state is the new one |
| Communicator.StartRelayed | src/communicator.js:105-112 | the server learns of SET_STARTED as running 0 and error -1 |
| Communicator.StopRelayed | src/communicator.js:105-112 | the server learns of SET_STOPPED as running 1, with the held error or -1 |
| Communicator.ErrorRelayed | src/communicator.js:114-120 | the server learns of SET_ERROR as running 2 with the action's own error code |
| Communicator.SettingsRelayed | src/communicator.js:122-127 | the server learns of UPDATE_CONFIG as the whole merged configuration |
| Communicator.OthersNotRelayed | src/communicator.js:137-138 | other actions reach the reducers and nothing is sent |
| Communicator.OnSocketConnected | src/communicator.js:214-224 | SET_CONNECTED passes through the store, then a 'meta' snapshot of the new state is sent |
| Communicator.ConnectSnapshotKeepsPhase | src/communicator.js:214-224 | that snapshot carries the phase and the name the state had before |
| MemWrite.ChunkBytes | lib/memWrite.js:18-20 | a Buffer chunk is stored as it is, and a string is stored through its encoding |
| MemWrite.StoredAppend | lib/memWrite.js:23 | writing in two batches stores the concatenation of both |
| MemWrite.StoredGrows | lib/memWrite.js:23 | earlier contents are a prefix of later contents, and the lengths add up |
| MemWrite.StoredLength | lib/memWrite.js:23 | the length of the store is the sum of the chunk lengths |
| MemWrite.WMStrm.constructor | lib/memWrite.js:5-12 | a new stream's store is empty |
| MemWrite.WMStrm.Write | lib/memWrite.js:15-24 | the store becomes the old contents followed by the chunk's bytes, and the callback is called once, without an error |

## Left out

- Process I/O is left out: spawning ffmpeg, signalling it, sockets, the IPC channel, autossh and the disk. Their events and answers are inputs to the model.
- The logger (src/logger.js) is not part of this model. Neither is the wiring in main.js beyond the preloaded state.
- Clocks are left out. Timer durations (1000, 2000 and 3000 ms) are events, not times. Request ids come from the clock in the source and are inputs here.
- Node's string encodings (Buffer from a string) are left out: the encoding is a function parameter of `MemWrite.WMStrm.Write`.
- The regular expressions are modelled for ASCII and the Unicode spaces JavaScript's `\s` matches. Surrogate pairs are treated as single characters.
- Numbers are integers: no NaN, fractions or floating-point formatting.
- Ssh.Connect, Ssh.Disconnect, Ssh.DisconnectAsWritten, Ssh.IpcClient.OnConnect: `getState().ssh` does not exist in the store (no reducer owns it), so as assembled each of them throws where it reads it: the status checks at src/ssh.js:110 and src/ssh.js:156, before any dispatch, and the `willReconnect` test at src/ssh.js:215, after `connected` is set. The model takes the status and `willReconnect` as arguments instead.
- Ssh.RestartTunnels: the source's thunk does not return its chain, so its caller gets `undefined`; the corrected model gives the chain's outcome.
- Ssh.Chain, Ssh.Disconnect: every `isIpcConnected()` call made while not connected leaves a `once('error')` listener behind even after the channel comes up. Any later channel error fires each such stale listener, which dispatches another SET_SSH_WILL_RECONNECT: during a later check, while a tunnel is requested or closed, or after the chain has ended. The model dispatches SET_SSH_WILL_RECONNECT only for the check that itself fails, and only the 'error' listener of each pending request settles it.
- ErrorHandler.Reconnector.Reconnect: one probe chain is modelled. In the source, `handle` forgets an older chain's timer without clearing it, so two chains can run side by side. A socket timeout followed by a late error or connect can also start a second one. The model does not cover either case.
- Commander.Supervisor.OnRetryTimer: the promise of that `start` is not handled in the source, so a rejection goes nowhere. The model returns the outcome.
- Communicator: the 'disconnect' handler dispatches the `setDisconnected` creator itself rather than an action, and re-creates the socket. Neither is modelled; socket re-creation is I/O.
- Communicator.SendAction: `running == 'RUNNING'` uses loose equality. It agrees with strict equality on the string phases the reducers produce, which is what is modelled.
- SshManager.Judge: a thrown exception is modelled for an error value of `undefined` or `null`, and for a message that is neither a string nor an array. Any other message without `indexOf` is treated the same way.
- MemWrite.WMStrm.Write: the `enc` argument for string chunks is the encoding function itself. Node's `Writable` machinery (buffering, `decodeStrings`) is outside this model.

## Findings

| source | as written | input that shows it | evidently intended | confidence | as-written member | corrected member |
|---|---|---|---|---|---|---|
| src/errorHandler.js:123 | `setErrorResolved` is imported from the creators (line 17) but no such creator exists. Calling it throws after STOP_ERROR_HANDLING, so `after()` never runs. The throw happens inside a `setTimeout` callback and the agent installs no 'uncaughtException' handler, so the agent process exits | any successful probe | clear the handler, then call `after()` | high (not executed) | ErrorHandler.SuccessAsWritten, ErrorHandler.SuccessClearsHandler | ErrorHandler.Success, Commander.Supervisor.OnProbeSuccess |
| src/errorHandler.js:50-61 | `stopHandling` looks the handler up under 'TRY_RECONNECT' while it is registered as `tryReconnect`. It then tests `handleError` only after dispatching STOP_ERROR_HANDLING, and the registered value is `handle`, which has no `stop`. So no handler is ever stopped | `restart` while a reconnect loop is running | stop the running reconnect handler's timer | high (not executed) | ErrorHandler.StopHandlingAsWritten, ErrorHandler.StopHandlingNeverStops | ErrorHandler.StopHandling, ErrorHandler.StopHandlingStopsReconnect, Commander.Supervisor.CancelHandling, Commander.Supervisor.Restart |
| src/ssh.js:163-164 | Given a store that has an `ssh` slice (as assembled, line 156 throws first): `getState().config()` calls the configuration object, which throws after SET_SSH_DISCONNECTING. `isIpcConnected` is also used without being called | `disconnect` with status CONNECTED | close both tunnels and end with SET_SSH_DISCONNECTED | high (not executed) | Ssh.DisconnectAsWritten, Ssh.DisconnectNeverCloses | Ssh.Disconnect |
| src/ssh.js:186 | `dispatch(self.connect)` dispatches the `connect` factory. The thunk middleware calls it, which only builds a thunk, so no connection is made | `restartTunnels` with any status | run `connect()` after the disconnect | high (not executed) | Ssh.RestartTunnelsAsWritten, Ssh.RestartTunnelsNeverConnects | Ssh.RestartTunnels, Ssh.RestartFollowsConnect, Ssh.RestartFromConnected |
| src/commander.js:227 | `cmd.AudioCodec('copy')`, while the ffmpeg builder's method is `audioCodec` | configuration with empty `customAudioOptions` | copy the audio stream | medium (not executed; depends on the builder library's API) | Commander.CreateCommandAsWritten, Commander.AudioCodecCrash | Commander.CreateCommand, Commander.Supervisor.constructor |
