# Kenium session core in Dafny

Kenium is a JavaScript port of the Lavalink audio node. This project models its core
in Dafny and proves properties of that model.

**The session registry and the per-session state machine.**
- `SocketServer` has two maps keyed by session id, kept in insertion order: the live sessions and the paused, resumable ones.
  - It draws 16-character session ids from a 36-character pool.
  - It routes an incoming websocket to a resumed session or to a new one.
  - On disconnect it either parks a resumable session, after shutting down any paused session filed under the same id, or it shuts the session down.
  - It expires paused sessions and shuts everything down.
- `SocketContext` is one session.
  - It has a guild-to-player map, a `resumable` flag, a resume timeout, the websocket it writes to, a pending resume timer and a replay queue.
  - It creates players and voice connections on first use and destroys players.
  - `pause` starts the resume timer.
  - `resume` sends the ready message, replays the queue first in first out, then sends one update per player.
  - A message is dropped when no socket is attached.
- The listener dispatcher of `EventEmitter` runs every listener in order. A listener that throws does not stop the others, and the dispatch rejects with every thrown error, in order.
- The statistics collector sums players over the live sessions. It averages the frame counters of one session's usable playing players, and the three averages add up to 3000 frames per minute. It also builds the memory block and keeps a CPU baseline.
- The shutdown hook closes every session with status 1001 and swallows failures.
- The session PATCH endpoint updates two settings.

All of these are imperative Dafny.
- Classes have `modifies` clauses, and the maps are `seq` of pairs that the methods reassign.
- Loops carry their invariants.
- Every effect on the outside world is appended to a shared `Trace` object, so the order of effects across objects can be stated:
  - an emitted event;
  - a socket write;
  - a destroyed player or voice connection;
  - a session shutdown;
  - a close attempt.

**Small decision functions and parsers.** They are modelled as functions with lemmas:
- the websocket handshake gate, which gives 401 for a wrong password, 400 for a missing or numerically zero user id, and a Session-Resumed header;
- the REST authorization filter, which gives 401 for a missing password and 403 for a wrong one (sections 15.5.2 and 15.5.4 of RFC 9110);
- the plugin manifest `key=value` parser and the `group:name:version` dependency parser;
- jar version reconciliation;
- the audio player set-up:
  - tuning defaults written back into the configuration;
  - the retry-limit mapping;
  - the fixed order of source-manager registration;
  - the route-planner construction;
- the voice-client buffer and native-sending decision;
- the route-planner status endpoints;
- the probe-info string.

**Foreign code and the environment.**
- Foreign objects are values or parameters: players, voice connections, the audio player manager, source managers, route planners, CIDR recognisers and date formatting.
- `Math.random` is a sequence of draws in `[0, 1)`.
- A timer is the recorded `PendingTimeout` it would fire.
- The operating-system figures are a `HostSample` taken by the caller.

**Shared helper modules.**
- `Wrappers`: `Option` and `Result`.
- `JsText`: JavaScript truthiness, `split`, `join`, `trim`, ASCII `toLowerCase` and decimal `toString`, with their round-trips.
- `JsMaps`: the insertion-ordered `Map` as a sequence of pairs, with `get`, `set` and `delete` lemmas.
- `Protocol`: the message and statistics records.

## Model

| member | source | states |
|---|---|---|
| Server.PoolIndex | io/SocketServer.js:53 | `Math.floor(r * 36)` is an index into the pool for every draw `r` in `[0, 1)` |
| Server.PoolChar | io/SocketServer.js:53 | every drawn character belongs to the a–z0–9 pool |
| Server.Candidate | io/SocketServer.js:51-54 | a candidate id has exactly 16 characters, all from the pool |
| Server.FirstFree | io/SocketServer.js:48-58 | the id the do-while settles on is a 16-character pool id that is not a live session id; it is absent only when every candidate the draws allow is taken |
| Server.FirstFreeIndex | io/SocketServer.js:50-55 | the loop stops at the first free candidate; every earlier candidate was a live session id |
| Server.SocketServer.GenerateUniqueSessionId | io/SocketServer.js:48-58 | the retry loop returns the first free candidate, which is a valid id not among the live sessions |
| Server.SocketServer.constructor | io/SocketServer.js:33-46 | both maps start empty and the registry invariant holds |
| Server.SocketServer.Contexts | io/SocketServer.js:60-62 | the live sessions, in insertion order, one per entry |
| Server.SocketServer.ContextsAsWrittenLosesSessions | io/SocketServer.js:61 | as written, `contexts` differs from the live sessions whenever there is one |
| Server.SocketServer.ResumeTarget | io/SocketServer.js:71-74 | a session is resumed only for a truthy Session-Id naming a resumable session, and it is that session |
| Server.SocketServer.OnConnectionEstablished | io/SocketServer.js:64-99 | resume path: the paused session is re-filed under its own id, resumed on the socket, then `onWebSocketOpen(true)` fires, and no id is drawn; new path: a fresh id is drawn, the socket is tagged with it, a new session with no players is appended and sends `ready(false, id)` before `onWebSocketOpen(false)`; the resumable map is untouched; the registry invariant is preserved; the frame is the live map, the socket's id, the trace and the resumed session's `resumable`, `session` and queue, so its players and timer and every other paused session stay as they were |
| Server.SocketServer.NewConnectionThrowsAsWritten | io/SocketServer.js:83 | as written, every connection that does not resume fails at the reassignment of a `const` |
| Server.SocketServer.SetValid | io/SocketServer.js:75 | filing a session under its own id keeps keys distinct and every entry under its own id |
| Server.SocketServer.OnConnectionClosed | io/SocketServer.js:115-140 | a socket of no live session changes nothing; a non-resumable session is shut down, its `resumable` flag and timer unchanged, and the resumable map is untouched; a resumable session first shuts down any paused session with the same id, then replaces it and pauses, with a timer of `resumeTimeout * 1000` ms; the frame is the resumable map, the trace and the closing session's `resumable` and timer, so its players, socket and queue and every other session stay as they were |
| Server.SocketServer.Park | io/SocketServer.js:119-135 | the same-id paused session, if any, is shut down before the closing session is filed in its place and pauses; the registry invariant is preserved |
| Server.SocketServer.SetResumableValid | io/SocketServer.js:129 | filing into the resumable map keeps it valid |
| Server.SocketServer.OnSessionResumeTimeout | io/SocketServer.js:142-145 | the id is removed from the resumable map, every other entry is unchanged, then the session is shut down |
| Server.SocketServer.DeleteResumableValid | io/SocketServer.js:143 | deleting an id keeps the resumable map valid |
| Server.SocketServer.CanResume | io/SocketServer.js:147-149 | true exactly when the id names a paused session whose timer was pending; that timer is cancelled, and it is the only field the call may change |
| Server.SocketServer.Shutdown | io/SocketServer.js:151-154 | one shutdown per live session, then one per resumable session, each in insertion order |
| Server.ShutdownEffects | io/SocketServer.js:152-153 | one shutdown effect per session, in order |
| Server.ExpireThenAsk | io/SocketServer.js:142-149 | after the resume timeout fires, `canResume` for that session is false |
| Session.WritesOfSendEffects | io/SocketContext.js:86-91 | with a socket attached, it receives exactly the messages sent, in order; with a different socket or none, it receives nothing |
| Session.PlayerUpdates | io/SocketContext.js:83 | one player update per player, in the map's order |
| Session.WsEventHandler.GatewayClosed | io/SocketContext.js:106-120 | sends a `connection: false` update with the code, the reason or `''`, and `byRemote`, then a full player update |
| Session.WsEventHandler.GatewayReady | io/SocketContext.js:122-124 | sends one full player update |
| Session.SocketContext.constructor | io/SocketContext.js:20-31 | a new session has no players, is not resumable, writes to its socket and has nothing queued |
| Session.SocketContext.GetPlayer | io/SocketContext.js:33-40 | the first call for a guild appends one new player owned by the session and emits `newPlayer` once; later calls return the stored player and change nothing; the one-player-per-guild invariant is preserved |
| Session.GetPlayerTwice | io/SocketContext.js:33-40 | two calls for a new guild return the same player and emit `newPlayer` once |
| Session.SocketContext.GetMediaConnection | io/SocketContext.js:43-51 | an existing connection is returned with its connections and listeners unchanged; otherwise a new connection is created for the guild with exactly the player's gateway listener |
| Session.SocketContext.DestroyPlayer | io/SocketContext.js:53-61 | an unknown guild changes nothing; a known guild loses only its entry, then `destroyPlayer`, `player.destroy()` and `koe.destroyConnection` follow in that order |
| Session.SocketContext.DeleteValid | io/SocketContext.js:57 | removing a guild keeps every other player filed under its own guild |
| Session.SocketContext.Pause | io/SocketContext.js:63-69 | sets `resumable`, schedules one timeout of `resumeTimeout * 1000` ms targeting this session, emits `pause` |
| Session.SocketContext.Resume | io/SocketContext.js:71-84 | attaches the socket, clears `resumable`, empties the queue; the socket receives the ready message, then the queued messages, first in first out, then one update per player |
| Session.SocketContext.SendMessage | io/SocketContext.js:86-91 | always emits `sendMessage`; writes to the socket only when one is attached |
| Session.SocketContext.SendMessageAsWrittenDropsMessage | io/SocketContext.js:88 | as written, an attached socket receives nothing, where the corrected version writes the message |
| Session.SocketContext.OnKoeConnectionClosed | io/SocketContext.js:93-97 | emits `gatewayClosed` with the target, 1000 and "Koe connection closed" |
| Session.SocketContext.StopResumeTimeout | io/SocketServer.js:148 | answers whether a timer was pending and cancels it |
| Events.Invocations | io/EventEmitter.js:38-51 | every listener is called exactly once, in registration order |
| Events.ErrorsEmpty | io/EventEmitter.js:45-51 | no error is collected exactly when no listener threw |
| Events.SettleResolved | io/EventEmitter.js:40-41 | the promise resolves exactly when no listener threw, so an empty list resolves |
| Events.ThreeListeners | io/EventEmitter.js:35-56 | with the first and the third listener throwing, all three run and the rejection lists both errors, in order |
| Events.EventEmitter.constructor | io/EventEmitter.js:5-9 | keeps the session and the listener list |
| Events.EventEmitter.Iterate | io/EventEmitter.js:35-56 | calls every listener of a copy once, in order, and settles with exactly the errors thrown; the listener list is not modified |
| Events.EventEmitter.OnWebSocketOpen | io/EventEmitter.js:11-13 | forwards `(context, resumed)` to every listener |
| Events.EventEmitter.OnSocketContextPaused | io/EventEmitter.js:15-17 | forwards `(context)` to every listener |
| Events.EventEmitter.OnSocketContextDestroyed | io/EventEmitter.js:19-21 | forwards `(context)` to every listener |
| Events.EventEmitter.OnWebSocketMessageOut | io/EventEmitter.js:23-25 | forwards `(context, message)` to every listener |
| Events.EventEmitter.OnNewPlayer | io/EventEmitter.js:27-29 | forwards `(context, player)` to every listener |
| Events.EventEmitter.OnDestroyPlayer | io/EventEmitter.js:31-33 | forwards `(context, player)` to every listener |
| Stats.PlayingPlayers | io/StatsCollector.js:41 | every kept player is one of the session's players and is playing, and every playing player is kept |
| Stats.PlayingPlayersFilter | io/StatsCollector.js:41 | the playing players keep the map's order, and each occurs as often as in the map when playing, otherwise not at all |
| Stats.TotalPlayers | io/StatsCollector.js:37-42 | the reference definition of the sum of `players.size` over the sessions |
| Stats.PlayingAtMostTotal | io/StatsCollector.js:37-42 | the playing total never exceeds the player total |
| Stats.UsableTotals | io/StatsCollector.js:73-79 | no more usable counters than players; none exactly when no counter is usable |
| Stats.UsableTotalsStep | io/StatsCollector.js:73-79 | one more player adds its counter only when it is usable |
| Stats.Averages | io/StatsCollector.js:82-91 | the per-player averages over the usable counters, the deficit measured against the expected rate |
| Stats.AveragesBalance | io/StatsCollector.js:82-91 | per counted player, sent + nulled + deficit = 3000 |
| Stats.FrameStatsBalance | io/StatsCollector.js:68-93 | frame statistics, when present, balance to 3000 frames per minute |
| Stats.FrameStatsOf | io/StatsCollector.js:68-93 | the reference definition of the frame statistics of the given session's playing players |
| Stats.FrameStatsAbsent | io/StatsCollector.js:68-93 | frame statistics are absent exactly when no session is given or no playing player's counter is usable, so there is no division by zero |
| Stats.MemoryOf | io/StatsCollector.js:47-52 | free is the first free reading and allocated and reservable the second and third total readings; used + free = allocated when the first two total and the two free readings agree, and reservable = allocated when the last two totals agree |
| Stats.MemoryDrift | io/StatsCollector.js:48-49 | memory taken between the two free readings makes used + free differ from allocated |
| Stats.StatsCollector.constructor | io/StatsCollector.js:6-11 | no CPU baseline yet |
| Stats.StatsCollector.CountPlayers | io/StatsCollector.js:37-42 | the accumulators end as the sums of `players.size` and of `playingPlayers.size` over the sessions |
| Stats.StatsCollector.CollectFrameStats | io/StatsCollector.js:68-93 | the loop over the playing players yields the averages over the usable counters, or nothing |
| Stats.StatsCollector.SampleCpu | io/StatsCollector.js:54-66 | the CPU block is the host's core count, the system load since the previous baseline (on the first collection, since a sample taken just before), and the process load; the baseline is then the latest sample |
| Stats.StatsCollector.RetrieveStats | io/StatsCollector.js:36-103 | totals over the live sessions, the session's frame statistics, the memory block, uptime and the CPU block measured against the previous baseline, or a fresh one on the first collection; afterwards the baseline is the latest sample |
| Stats.StatsCollector.RunTask | io/StatsCollector.js:25-34 | in the evidently intended version (`Message` is unbound, see Left out): a failing collection is swallowed and sends nothing; otherwise the stats are sent to the session |
| Shutdown.CloseAttempts | io/ShutdownHandler.js:9-15 | one close attempt with status 1001 per session, in order |
| Shutdown.ShutdownHandler.constructor | io/ShutdownHandler.js:5-7 | keeps the server |
| Shutdown.ShutdownHandler.Run | io/ShutdownHandler.js:9-15 | every live session is attempted exactly once, in order, whether or not earlier ones threw |
| SessionRest.FieldValue | io/SessionRestHandler.js:8 | a body field is `undefined` exactly when no field has that name, otherwise the value of the last field of that name |
| SessionRest.ReadInWholeSeconds | io/SessionRestHandler.js:17 | `.inWholeSeconds` throws on `null`, reads the field of an object, and is `undefined` on every other JSON value |
| SessionRest.TimeoutAsWritten | io/SessionRestHandler.js:16-17 | as written: an absent timeout keeps the field; a JSON number stores `undefined`; `null` throws |
| SessionRest.Serialize | io/SessionRestHandler.js:20-23 | `res.json` keeps exactly the properties whose value is defined, and no more of them |
| SessionRest.NumericTimeoutLost | io/SessionRestHandler.js:16-23 | as written, `{"timeout": n}` stores `undefined` and the response then has no `timeout` field |
| SessionRest.ObjectTimeoutRead | io/SessionRestHandler.js:17 | as written, only a body wrapping the seconds as `{"inWholeSeconds": n}` stores `n` |
| SessionRest.Patch | io/SessionRestHandler.js:6-24 | in the evidently intended reading: `resuming`, when given, becomes `resumable`; `timeout`, when given, becomes `resumeTimeout` in seconds; the response reports both after the update; no other field changes; an unknown id is an error |
| Handshake.NumberIsZero | io/HandshakeInterceptorImpl.js:18 | the reference definition of `Number(s) === 0`: after trimming, empty, a signed decimal literal of zeros with an optional exponent, or a hexadecimal, octal or binary literal of zeros |
| Handshake.ZeroExamples | io/HandshakeInterceptorImpl.js:18 | `"0"`, `" 0x00 "`, `"-0.0e+5"` and `".0"` count as numerically zero |
| Handshake.NonZeroExamples | io/HandshakeInterceptorImpl.js:18 | `"1"`, `"0x1"`, a signed hexadecimal zero and a bare exponent do not |
| Handshake.NonZeroDigitNotZero | io/HandshakeInterceptorImpl.js:18 | a trimmed User-Id with a digit 1 to 9 and no exponent mark is never numerically zero |
| Handshake.BeforeHandshake | io/HandshakeInterceptorImpl.js:8-32 | accepted exactly when the password matches and the User-Id is truthy and not numerically zero |
| Handshake.WrongPasswordIsUnauthorized | io/HandshakeInterceptorImpl.js:9-15 | a wrong or missing password gives 401, whatever the User-Id |
| Handshake.BadUserIdIsBadRequest | io/HandshakeInterceptorImpl.js:17-22 | with the right password, 400 exactly for a missing, empty or numerically zero User-Id |
| Handshake.ResumeHeader | io/HandshakeInterceptorImpl.js:26-29 | the server is asked exactly when Session-Id is truthy, about that id; Session-Resumed is `true` exactly when it answers yes |
| Handshake.NoSessionIgnoresServer | io/HandshakeInterceptorImpl.js:26-27 | without a Session-Id, the server's answer makes no difference |
| RequestAuth.PreHandle | config/RequestAuthorizationFilter.js:13-38 | a refused request gets 401 or 403 and nothing else |
| RequestAuth.PreHandleOutcomes | config/RequestAuthorizationFilter.js:13-38 | `next` exactly when exempt or carrying the password; 401 exactly when not exempt with no Authorization; 403 exactly when not exempt with a wrong one |
| RequestAuth.ExemptPasses | config/RequestAuthorizationFilter.js:14-20 | the metrics endpoint and `/error` pass whatever the Authorization |
| PluginManager.ManifestOf | bootsrap/PluginManager.js:134-139 | a manifest exactly when name, path and version are all non-empty, made of those three values |
| PluginManager.LineEntry | bootsrap/PluginManager.js:128-130 | the trimmed key and value of a line whose first two `=`-fragments are both non-empty, or nothing |
| PluginManager.PropsOf | bootsrap/PluginManager.js:126-132 | the reference definition of the properties of the lines, later lines overwriting earlier ones |
| PluginManager.ParsePluginManifest | bootsrap/PluginManager.js:125-140 | the line loop builds the properties of the lines in order and yields their manifest, with no empty field |
| PluginManager.ValueIsSecondFragment | bootsrap/PluginManager.js:128 | on a line with several `=`, the value is the text between the first and the second |
| PluginManager.NoSeparatorIgnored | bootsrap/PluginManager.js:128-129 | a line without `=` sets nothing |
| PluginManager.EmptyKeyIgnored | bootsrap/PluginManager.js:129 | a line starting with `=` sets nothing |
| PluginManager.EmptyValueIgnored | bootsrap/PluginManager.js:129 | a line with an empty value sets nothing |
| PluginManager.LastLineWins | bootsrap/PluginManager.js:130 | a key has the value of the last line that sets it |
| PluginManager.PropsKeys | bootsrap/PluginManager.js:127-132 | every property comes from some line |
| PluginManager.NormalizeRepository | bootsrap/PluginManager.js:39 | the repository ends in exactly the one `/` it had or was given |
| PluginManager.NormalizeIdempotent | bootsrap/PluginManager.js:39 | normalising twice is normalising once |
| PluginManager.ParseDeclaration | bootsrap/PluginManager.js:29-42 | a declaration without a dependency is dropped; a parsed dependency's group, name and version are the three `:`-split fragments and join back to the declared string; its repository is the declaration's own when that is non-empty, otherwise the default, normalised to end in `/`; with neither set it is an error |
| PluginManager.ParseDependencyRoundTrip | bootsrap/PluginManager.js:32-40 | `group:name:version` with its own repository parses back to those parts and that repository, whatever the default |
| PluginManager.DefaultRepositoryApplies | bootsrap/PluginManager.js:34 | `group:name:version` without its own repository parses to those parts and the normalised default repository |
| PluginManager.WrongFragmentCount | bootsrap/PluginManager.js:33 | a dependency that does not split into three fragments is an error naming it |
| PluginManager.ParseDeclarations | bootsrap/PluginManager.js:29-43 | the list parses exactly when every declaration does, and its value is then the present dependencies of the declarations parsed one by one, in order; otherwise the error is that of the first declaration that fails |
| PluginManager.UniqueDeclarations | bootsrap/PluginManager.js:45 | deduplication never adds declarations |
| PluginManager.UniqueDeclarationsSound | bootsrap/PluginManager.js:45 | no plugin is kept twice, every kept declaration is an original one, and every declared plugin is kept |
| PluginManager.UniqueKeepsFirst | bootsrap/PluginManager.js:45 | the first declaration of each plugin is the one kept |
| PluginManager.UniqueNoNewIds | bootsrap/PluginManager.js:45 | an undeclared plugin never appears |
| PluginManager.Stale | bootsrap/PluginManager.js:48-56 | only jars of the plugin with another version are deleted |
| PluginManager.StaleExactly | bootsrap/PluginManager.js:48-56 | a jar is deleted exactly when it has the plugin's name and another version |
| PluginManager.Reconcile | bootsrap/PluginManager.js:47-61 | the loop deletes the stale jars and downloads exactly when no jar has the declared version |
| PluginManager.ReconcileAsWrittenDiffers | bootsrap/PluginManager.js:45-58 | as written, a plugin with a jar on disk is reconciled differently from the intended way |
| PluginManager.ManifestsOfIgnoresOthers | bootsrap/PluginManager.js:113-114 | entries outside `lavalink-plugins/*.properties` contribute nothing |
| PluginManager.LoadPluginManifests | bootsrap/PluginManager.js:111-123 | the parseable manifest entries' manifests, in entry order |
| PluginManager.LoadJar | bootsrap/PluginManager.js:99-109 | an error naming the file exactly when the jar holds no manifest, otherwise its manifests |
| PluginInfo.ProbeInfo | io/DefaultAudioPluginInfoModifier.js:3-5 | the probe name alone when the parameters are falsy, otherwise name, `\|` and parameters |
| PluginInfo.ProbeInfoRoundTrip | io/DefaultAudioPluginInfoModifier.js:3-5 | a `\|`-free name and absent or non-empty parameters read back unchanged |
| PluginInfo.EmptyParametersDropped | io/DefaultAudioPluginInfoModifier.js:4 | empty parameters render as none |
| PluginInfo.Entry | io/DefaultAudioPluginInfoModifier.js:19 | a one-key object exactly when key and value are truthy |
| PluginInfo.OtherTrackThrows | io/DefaultAudioPluginInfoModifier.js:8-17 | as written, any other track throws |
| PluginInfo.ModifyAudioTrackPluginInfo | io/DefaultAudioPluginInfoModifier.js:7-20 | local and HTTP tracks with a non-empty probe info get exactly `{probeInfo: info}`; everything else is null |
| PluginInfo.ModifierAgreesOnHandledTracks | io/DefaultAudioPluginInfoModifier.js:10-13 | on local and HTTP tracks the corrected and the written modifier agree |
| PluginInfo.LocalTrackProbeInfo | io/DefaultAudioPluginInfoModifier.js:10-11 | a local track reports its container probe info under `probeInfo` |
| RoutePlannerRest.FailingStatus | io/RoutePlannerRestHandler.js:54-60 | one entry per failing address, in map order, with its formatted date |
| RoutePlannerRest.GetDetailBlock | io/RoutePlannerRestHandler.js:47-104 | an error naming the class exactly for an unknown planner class; otherwise the class tag, a decimal block size that reads back as the size, the block type, and the failing addresses in order |
| RoutePlannerRest.DetailsMatchClass | io/RoutePlannerRestHandler.js:62-100 | each class gets its own details record, whose counters read back as the planner's |
| RoutePlannerRest.FailingDates | io/RoutePlannerRestHandler.js:58 | each failing address carries the formatted time of its last failure |
| RoutePlannerRest.GetStatus | io/RoutePlannerRestHandler.js:13-19 | 204 exactly without a planner; otherwise 200 with its detail block, or the detail block's error |
| RoutePlannerRest.FreeSingleAddress | io/RoutePlannerRestHandler.js:24-33 | the disabled error without a planner; 204 when freeing succeeds; a 400 with "Invalid address: " and the planner's message when it throws |
| RoutePlannerRest.FreeAllAddresses | io/RoutePlannerRestHandler.js:38-42 | status 500 with the disabled message without a planner, otherwise 204 |
| RoutePlannerRest.DisabledEndpoints | io/RoutePlannerRestHandler.js:107-112 | without a planner, status is 204 and both free endpoints fail with 500 |
| KoeConfig.DetectSystemType | config/KoeConfiguration.js:59-65 | a pair exactly when both detections succeed, made of the detected values |
| KoeConfig.SupportedSystemsTable | config/KoeConfiguration.js:12-26 | the ten listed pairs are exactly four Linux, two musl, two Windows and two Darwin hosts |
| KoeConfig.UndetectedUnsupported | config/KoeConfiguration.js:41 | a failed detection is never supported |
| KoeConfig.NasSupported | config/KoeConfiguration.js:41 | the `some` over the supported systems: a detected pair equal to a listed one |
| KoeConfig.BufferSize | config/KoeConfiguration.js:35 | `bufferDurationMs || DEFAULT_BUFFER_DURATION` |
| KoeConfig.FramePollerFor | config/KoeConfiguration.js:33-56 | the reference definition of the factory `getKoeOptions` installs, whose conditions `FramePollerConditions` states |
| KoeConfig.FramePollerConditions | config/KoeConfiguration.js:35-56 | a factory exactly when the buffer size is positive, the host supported and the factory does not throw; its duration is the buffer size when at least 40 ms, the default otherwise |
| KoeConfig.ZeroBufferIsUnset | config/KoeConfiguration.js:35 | a zero and an unset buffer duration behave alike |
| KoeConfig.KoeOptions.constructor | config/KoeConfiguration.js:30-32 | options with the given gateway version and no factory |
| KoeConfig.KoeOptions.SetFramePollerFactory | config/KoeConfiguration.js:49 | installs the factory |
| KoeConfig.KoeConfiguration.constructor | config/KoeConfiguration.js:10-27 | keeps the buffer setting and lists the ten supported hosts |
| KoeConfig.KoeConfiguration.GetKoeOptions | config/KoeConfiguration.js:29-57 | fresh V8 options whose factory is the one the conditions select |
| AudioPlayerConfig.ServerConfig.constructor | config/ServerConfig.js:24-42 | every tuning setting unset, GC warnings and both searches on, no blocks configured |
| AudioPlayerConfig.WithDefaults | config/AudioPlayerConfiguration.js:23-44 | each setting keeps a truthy configured value and otherwise gets its default; seek ghosting is true only when configured true |
| AudioPlayerConfig.WithDefaultsIdempotent | config/AudioPlayerConfiguration.js:23-44 | after the values are written back, a second set-up chooses the same values |
| AudioPlayerConfig.RetryLimitMapping | config/AudioPlayerConfiguration.js:61-73 | the unlimited-retries branch is unreachable; the default set-up exactly for an unset, zero or -1 limit; otherwise the configured limit |
| AudioPlayerConfig.ApplyTuning | config/AudioPlayerConfiguration.js:14-44 | the configuration gets the chosen values and the manager receives the flag and setting calls in order |
| AudioPlayerConfig.ApplyFlags | config/AudioPlayerConfiguration.js:14-21 | GC monitoring, then the non-allocating buffer, each only when configured |
| AudioPlayerConfig.ApplySettings | config/AudioPlayerConfiguration.js:23-44 | the five chosen values, handed in by `ApplyTuning`, are written back and passed to their setters, in order; nothing else in the configuration changes |
| AudioPlayerConfig.RegisterYoutube | config/AudioPlayerConfiguration.js:48-79 | fails exactly when YouTube is on without its block, registering nothing; otherwise registers YouTube when it is on |
| AudioPlayerConfig.RegisterIfOn | config/AudioPlayerConfiguration.js:95 | registers the manager exactly when its switch is on |
| AudioPlayerConfig.RegisterBuiltIns | config/AudioPlayerConfiguration.js:80-99 | the six conditional registrations, in order |
| AudioPlayerConfig.BuiltInCallsRegisterEnabled | config/AudioPlayerConfiguration.js:80-99 | the six conditional registrations register exactly the enabled built-in managers, in order |
| AudioPlayerConfig.RegisterPlugins | config/AudioPlayerConfiguration.js:101-104 | each plugin's manager, in list order |
| AudioPlayerConfig.RunConfigurators | config/AudioPlayerConfiguration.js:108-109 | each configurator is handed the manager, in order |
| AudioPlayerConfig.RegisterHttp | config/AudioPlayerConfiguration.js:112-132 | HTTP last, with a proxy when a proxy host is set, and `{}` written back for a missing HTTP block |
| AudioPlayerConfig.RegisterAfterYoutube | config/AudioPlayerConfiguration.js:80-132 | built-ins, plugins, filter hot-swap, configurators and HTTP, in that order; only the HTTP block of the configuration may change |
| AudioPlayerConfig.SetupCalls | config/AudioPlayerConfiguration.js:11-134 | the reference definition of a whole set-up: the tuning calls then the error when YouTube is on without its block, otherwise every call in order and no error |
| AudioPlayerConfig.SetupCallsInOrder | config/AudioPlayerConfiguration.js:11-134 | the calls of a set-up that does not throw are tuning, YouTube, built-ins, plugins, filter hot-swap, configurators, HTTP, in that order |
| AudioPlayerConfig.ConfigureAudioPlayer | config/AudioPlayerConfiguration.js:11-135 | the fresh manager's calls and the failure are those of the set-up, and the configuration ends with the chosen values and the HTTP block |
| AudioPlayerConfig.SetupRegistersSources | config/AudioPlayerConfiguration.js:48-132 | the set-up throws exactly when the managers cannot be built; otherwise exactly the source managers are registered, in order |
| AudioPlayerConfig.BuiltInRanks | config/AudioPlayerConfiguration.js:80-99 | the enabled built-in managers keep the fixed order, and each has its switch on |
| AudioPlayerConfig.BuiltInSwitchedOn | config/AudioPlayerConfiguration.js:80-99 | a built-in manager whose switch is on is registered |
| AudioPlayerConfig.RegistrationOrder | config/AudioPlayerConfiguration.js:48-132 | the order is YouTube, SoundCloud, Bandcamp, Twitch, Vimeo, Nico, local, the plugins' managers, and HTTP last |
| AudioPlayerConfig.RegisteredIffSwitchedOn | config/AudioPlayerConfiguration.js:48-132 | each built-in kind is registered exactly when its switch is on, the plugins' kind exactly when there are plugins |
| AudioPlayerConfig.IpBlocksOf | config/AudioPlayerConfiguration.js:151-159 | every block that is IPv4 or IPv6 CIDR becomes its block, in order; otherwise the error names the first block that is neither |
| AudioPlayerConfig.StrategyKind | config/AudioPlayerConfiguration.js:161-171 | the planner kind of the lower-cased, trimmed strategy name, or none for an unknown one |
| AudioPlayerConfig.RoutePlannerFor | config/AudioPlayerConfiguration.js:137-173 | the reference definition of `routePlanner`, whose outcomes `RoutePlannerOutcomes` states |
| AudioPlayerConfig.RoutePlannerOutcomes | config/AudioPlayerConfiguration.js:137-173 | null exactly without a rate-limit block or with no IP blocks; an invalid block is reported before the strategy; an unknown strategy is an error; a planner has the strategy's kind, one block per configured block and the configured search flag |
| AudioPlayerConfig.PlannerFilter | config/AudioPlayerConfiguration.js:149-150 | the filter admits an address exactly when it is not excluded, and the nano-switch planner admits every address |
| AudioPlayerConfig.DefaultStrategyRotates | config/RateLimitConfig.js:5 | the default strategy `RotateOnBan` selects the rotating planner |

## Left out

- Logging is not modelled anywhere: console, log4js and the loggers.
- The express and ws routing is not part of this model: route registration and `res`/`req` plumbing. Neither are the context files: `Launcher.js`, the web, websocket, Sentry, metrics and request-logging configuration, `info/*`.
- Server.SocketServer.GenerateUniqueSessionId: `Math.random` is a finite sequence of draws. When every candidate they allow is taken, the model answers `None`. The source would draw forever. Server.SocketServer.OnConnectionEstablished then registers nothing.
- Session.SocketContext.constructor: the server passes its arguments in an order that does not match the parameter list (io/SocketServer.js:86-96 against io/SocketContext.js:20). The model takes the evidently intended meaning.
- Session.SocketContext.constructor: `players`, `resumable`, `resumeTimeout`, `session` and `resumeEventQueue` are never initialised in the source. The model starts them empty, false, 0, the connecting socket and empty.
- Session: the source's `SocketContext` emits on Node's own `EventEmitter`, and `io/EventEmitter.js` is a separate class. The session's emits are recorded as `Emitted` effects and are not dispatched through `Events.EventEmitter`.
- Server.SocketServer.OnConnectionEstablished: Node's `EventEmitter` (io/SocketContext.js:28) has no `onWebSocketOpen` method, so as written io/SocketServer.js:78 throws a `TypeError` after every other effect of a resume. On the new-session path, io/SocketServer.js:98 throws first: `this.ReadyEvent` and `this.TextMessage` are not defined on the server, so the ready message is never sent and :99 is never reached (and the `const` reassignment at :83 comes earlier still, see Findings). The model sends the evidently intended `ready` message. The model records the evidently intended call as the `Emitted(WebSocketOpen(resumed))` effect.
- Session: `SocketServer.sendPlayerUpdate` is not defined in the source. It is modelled as sending one `PlayerUpdate(guildId)` message.
- Session: `shutdown`, `closeWebSocket`, `runCatching` and `stopResumeTimeout` are not defined in the source. The first two are recorded calls. `stopResumeTimeout` cancels the timer and answers whether one was pending.
- Session: `player.destroy()`, the koe client and its connections are foreign. They are recorded effects and a map of connections.
- Session: the koe `connection` listener registration (io/SocketContext.js:30) is left out.
- Session.SocketContext.Resume: `this.log` is never assigned (io/SocketContext.js:20-31), so `resume` would throw a `TypeError` at io/SocketContext.js:75 even with the `sendMessage` bug at io/SocketContext.js:88 fixed; as written, the ready message's own `sendMessage` already throws there (see Findings). Either way the queued messages and the player updates are never sent. The model assumes the :88 bug fixed, leaves line 75 out and sends them, as evidently intended.
- Session.SocketContext.GetPlayer: `LavalinkPlayer` is not bound in io/SocketContext.js, which requires only `events`, so as written `getPlayer` for a new guild throws a `ReferenceError` at :37 before anything is stored or emitted. The model takes the player constructor as a foreign call that yields a fresh player.
- Session.SocketContext.GetMediaConnection: the bare `WsEventHandler` at io/SocketContext.js:48 is not bound (only the static `SocketContext.WsEventHandler` of :99 exists), so as written a new connection is created and then the call throws a `ReferenceError` before the listener is registered. The model registers the intended `SocketContext.WsEventHandler` listener.
- Session: `gatewayError` only logs, so it is left out.
- Session.SocketContext.Pause: `this.socketServer` is never assigned (io/SocketContext.js:20-31), so as written the resume timer's callback at io/SocketContext.js:66 throws a `TypeError` and the paused session never expires. The model takes the evidently intended call: the timer is the recorded `PendingTimeout`, and its firing is the caller invoking `Server.SocketServer.OnSessionResumeTimeout`.
- Session: no shown code appends to `resumeEventQueue`. The queue is only drained.
- Session: `pause` does not detach the socket, and the model keeps it attached, as the source does.
- Server: the model does not claim that `sessions` and `resumableSessions` are disjoint.
  - A resume adds to `sessions` without removing from `resumableSessions`.
  - A resumable close adds to `resumableSessions` without removing from `sessions`.
- Server: a resumed socket's `sessionId` is never set (io/SocketServer.js:71-80), so closing it changes nothing. The model does the same.
- Session.SocketContext.Resume: the ready message is `{type: 'ready', ready: true, sessionId}`, as the code sends it, and not a `ready(resumed=true)` event.
- Stats: `processRecentCpuUsage`, `oshi.cpuUsage`, `os.cpus`, the clock and the process uptime are operating-system calls. They enter as a `HostSample` that includes both loads. The `cpuTime` field is not modelled.
- Stats: the frame averages are exact `real` divisions, not IEEE doubles.
- Stats.StatsCollector.RunTask: `Message` is not bound in io/StatsCollector.js, which imports only `os-utils`, `os` and `process` (:1-3). As written io/StatsCollector.js:29 throws a `ReferenceError`, which :30-31 catch, so no stats are ever sent. The model sends the evidently intended `StatsEvent(stats)`.
- Stats.StatsCollector.CountPlayers: `socketContext.playingPlayers` (io/StatsCollector.js:41) is not defined on a session (io/SocketContext.js:20-31), so as written `.size` of it throws a `TypeError` at the first session. (With `contexts` as written, see Findings, the loop body never runs.) The model takes it as the session's players whose observed state is playing, `Stats.PlayingPlayers`.
- Stats.StatsCollector.CollectFrameStats: `context.playingPlayers` (io/StatsCollector.js:73) is undefined in the same way, so as written the loop throws a `TypeError` whenever a session is given, and `AudioLossCounter` (io/StatsCollector.js:84) is not bound either. The model iterates the playing players and takes the expected rate as 3000 frames per minute, 50 per second, the value of Lavalink's `AudioLossCounter.EXPECTED_PACKET_COUNT_PER_MIN`.
- Stats.StatsCollector.RetrieveStats: it takes both resolutions above. As written, with the session `createTask` always passes, it throws at io/StatsCollector.js:73 and returns nothing.
- Stats.StatsCollector.RunTask: the `ensures` names only the player total and the frame statistics of the stats sent; the other fields are stated by `RetrieveStats`. A failure is modelled only for reading the host; a throwing `sendMessage` is not modelled.
- SessionRest.Patch: the body's `timeout` is taken as a whole number of seconds, stored as given. The source stores `timeout.inWholeSeconds` (io/SessionRestHandler.js:17), a property read that a JSON number does not have, so as written a numeric timeout becomes `undefined` and a later `pause` schedules `NaN` milliseconds (see Findings and `SessionRest.TimeoutAsWritten`). `resuming` is taken as a boolean, where the source stores whatever JSON value is sent. JSON numbers are whole in the as-written model.
- SessionRest.Patch: `socketServer.socketContext(id)` is not defined in the source. The model looks the id up among the live sessions. For an unknown id it answers `SessionNotFound`, where the source would throw a `TypeError`.
- RequestAuth.PreHandle: config/RequestAuthorizationFilter.js:1 destructures `HttpStatus` from `http-status-codes`, which exports its constants under other names, and :2 requires a placeholder logger module. As written the filter may therefore fail on loading or when it reads `HttpStatus.UNAUTHORIZED` (:28) or `HttpStatus.FORBIDDEN` (:33). The model takes the evidently intended statuses 401 and 403.
- Handshake.BeforeHandshake: with no Session-Id header the source calls `toString` on `undefined` (io/HandshakeInterceptorImpl.js:29). The model answers Session-Resumed `false` there.
- Handshake.NumberIsZero: decimal literals whose value underflows to zero, such as `1e-400`, are not counted as zero.
- JsText.ToLowerAscii: only ASCII letters are lower-cased. `trim` strips the ECMAScript WhiteSpace and LineTerminator characters: tab, line feed, vertical tab, form feed, carriage return, space, U+00A0, U+1680, U+2000 to U+200A, U+2028, U+2029, U+202F, U+205F, U+3000 and U+FEFF.
- PluginManager: left out, because they are file-system, network and zip I/O:
  - `init`;
  - the directory work and the final download of `manageDownloads`;
  - `downloadJar`;
  - `loadJars`;
  - `readClasspathManifests`, which also passes a path where content is expected (bootsrap/PluginManager.js:75);
  - `createDirectory`;
  - `getPluginJars`.
- PluginManager: a jar is given with its manifest name and version, not with the placeholder version `unknown` that `getPluginJars` assigns.
- PluginManager: `canonicalJarName` and `url` are undefined on declarations, so the download target is not modelled.
- PluginManager.ParseDeclaration: with neither repository set, `replace` is called on `undefined`. The model reports that as an error.
- AudioPlayerConfig: the audio player manager is a log of calls made on it.
  - The non-allocating frame buffer factory is the call `SetNonAllocatingFrameBuffer`.
  - Each configurator plugin is a `ConfiguredBy(i)` call on the same manager, which is also the `am` returned.
  - The manager's defaults and `OPUS_QUALITY_MAX` are the `ManagerDefaults` parameter.
- AudioPlayerConfig: source managers are the values they are built from. The media container registry is its list of probes. The route planner given to the constructor is only the flag `routePlanner != null`.
- AudioPlayerConfig.ConfigureAudioPlayer: config/AudioPlayerConfiguration.js binds none of `AudioConfiguration` (:28), `TimeUnit` (:37), `MediaContainerRegistry` (:46), nor `NonAllocatingAudioFrameBuffer`, which :20 names inside the factory. As written every construction throws a `ReferenceError` at :28, right after the GC-monitoring and frame-buffer calls and the frame-buffer-duration write-back. The model takes `OPUS_QUALITY_MAX`, the nanosecond conversion and the registry from the `ManagerDefaults` parameter and the probe list.
- AudioPlayerConfig.RoutePlannerFor: `InetAddress`, `Ipv4Block`, `Ipv6Block` and the four planner classes are not bound in config/AudioPlayerConfiguration.js. As written `routePlanner` throws a `ReferenceError` at :149 whenever `excludedIps` is non-empty, and at :152 for every non-empty block list, so it never returns a planner. The model takes the evidently intended library calls: the CIDR recognisers are parameters and a planner is the value it is built from.
- AudioPlayerConfig: `InetAddress.getByName` is taken as the identity on the excluded addresses. The IPv4 and IPv6 CIDR recognisers are parameters.
- RoutePlannerRest: the module builds its handler with a `null` planner (io/RoutePlannerRestHandler.js:114), so as deployed every endpoint is disabled. The model takes the planner as a parameter.
- RoutePlannerRest: `new Date(value).toString()` is the `formatDate` parameter. The block type name is a string.
- RoutePlannerRest.GetDetailBlock: io/RoutePlannerRestHandler.js binds only `express` (:1), not the planner classes `RotatingIpRoutePlanner` (:63), `NanoIpRoutePlanner` (:74), `RotatingNanoIpRoutePlanner` (:83) or `BalancingIpRoutePlanner` (:93). The first `case` is evaluated first, so as written `getDetailBlock` throws a `ReferenceError` for every planner, and `getStatus` (:17) never answers 200. The model takes the evidently intended classes of the route-planner library, so `RoutePlannerRest.GetStatus` and `RoutePlannerRest.DetailsMatchClass` state the intended detail blocks.
- RoutePlannerRest.FreeSingleAddress: `ResponseStatusException` (io/RoutePlannerRestHandler.js:31) is not bound either, so as written a failing `freeAddress` makes the catch throw a `ReferenceError`, which Express answers with 500. The model takes the evidently intended 400 with "Invalid address: " and the message.
- KoeConfig.KoeConfiguration.GetKoeOptions: `KoeOptions` is not bound in config/KoeConfiguration.js, so as written `getKoeOptions` throws a `ReferenceError` at :30 before anything else. The model takes the evidently intended builder: fresh options with gateway version V8.
- KoeConfig: host detection, `DEFAULT_BUFFER_DURATION` and the CPU count are parameters. Whether building the factory throws is a parameter.

## Findings

| source | as written | input that shows it | evidently intended | confidence | as-written member | corrected member |
|---|---|---|---|---|---|---|
| io/SocketServer.js:61 | `Array.from(this.sessions.values)` passes the uncalled method, which gives `[]` | any server with a live session | the live sessions in insertion order | not executed | Server.SocketServer.ContextsAsWritten (see ContextsAsWrittenLosesSessions) | Server.SocketServer.Contexts |
| io/SocketServer.js:83 | assigns the drawn id to the `const sessionId` of line 66, which throws a `TypeError` | a handshake without a resumable Session-Id | a new session registered under a freshly drawn id | not executed | Server.SocketServer.EstablishAsWritten (see NewConnectionThrowsAsWritten) | Server.SocketServer.OnConnectionEstablished |
| io/SocketContext.js:88 | `const json = json.serialize(message)` reads `json` in its own initialiser, a `ReferenceError` after the event is emitted | any message sent while a socket is attached | the serialised message written to the socket | not executed | Session.SocketContext.SendMessageAsWritten (see SendMessageAsWrittenDropsMessage) | Session.SocketContext.SendMessage |
| io/DefaultAudioPluginInfoModifier.js:8 | destructures the `null` that the default case returns | a track that is neither local nor HTTP | `null` plugin info | not executed | PluginInfo.ModifyAudioTrackPluginInfoAsWritten (see OtherTrackThrows) | PluginInfo.ModifyAudioTrackPluginInfo |
| io/SessionRestHandler.js:17 | stores `timeout.inWholeSeconds`, a property that a JSON number does not have, so the timeout becomes `undefined` | `PATCH /sessions/{id}` with body `{"timeout": 60}` | the session's resume timeout set to 60 seconds and reported back | not executed | SessionRest.TimeoutAsWritten (see NumericTimeoutLost) | SessionRest.Patch |
| bootsrap/PluginManager.js:45 | deduplicates to `group:name` strings, whose `name` and `version` are `undefined`, so no jar matches | a jar on disk named like a declared plugin | one record per (group, name), keeping the first; stale jars deleted, download only when the version is missing | not executed | PluginManager.ReconcileAsWritten (see ReconcileAsWrittenDiffers) | PluginManager.Reconcile |
