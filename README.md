# Disco relay server: a Dafny model

The relay sits between a Parrot Disco fixed-wing drone and the browser clients
that watch and steer it. Each client opens a signalling socket and a WebRTC
data channel. The relay keeps one session per client in a registry, holding
the client's capability set (super user, pitch, roll, throttle, camera,
autonomy) and an "authorized" flag. It also keeps a process-wide cache of the
vehicle's last known state, seeded at start-up. Vehicle events update that
cache and are broadcast to every session as `{ action, data }` packets.
Packets from clients are routed, capability by capability, to vehicle
commands, to changes of the piloting record, and to replies. A small HTTP API
checks tokens, lists sessions, reads and overrides capabilities, and serves
flight plans parsed from `.mavlink` text files.

The model has one module per source file:

- `Packets`: JSON values, including JavaScript truthiness, and the packet envelopes.
- `Validation`: axis clamping and circle-direction normalisation.
- `FlightCache`: the cache, as a class over a `map`.
- `Users`: the session registry, as a class. It keeps the key insertion order the source's dictionary iterates in.
- `FlightEvents`: the vehicle-event handlers, as a pure reaction function plus a class that applies it to the shared cache.
- `APIServer`: the HTTP endpoints and the flight-plan parser.
- `App` (`src/app.ts`): the cache seed, the fan-out, the packet router and piloting update, the snapshot a new peer receives, the link supervisor, and the `Relay` class that ties them together.

The vehicle SDK appears only as the sequence of `Command`s issued to it, and
peers only as the sequence of `Delivery`s handed to them. A send that throws
is modelled by a `down` set of sessions whose peers fail at that moment.

## Model

| member | source | states |
|---|---|---|
| Validation.Axis | src/modules/Validation.module.ts:2-7 | the result lies in [-75, 75]; values already inside are unchanged; values above become 75 and below -75 |
| Validation.AxisIdempotent | src/modules/Validation.module.ts:2-7 | clamping a clamped value changes nothing |
| Validation.AxisMonotone | src/modules/Validation.module.ts:2-7 | clamping preserves order |
| Validation.AxisZeroIff | src/modules/Validation.module.ts:2-7 | the clamped value is 0 exactly when the input is 0 |
| Validation.ToLower | src/modules/Validation.module.ts:10 | ASCII lower-casing: the length is kept, each upper-case letter maps to its lower-case one and every other character stays |
| Validation.ToUpper | src/modules/Validation.module.ts:11 | ASCII upper-casing: the length is kept, each lower-case letter maps to its upper-case one and every other character stays |
| Validation.CircleDirection | src/modules/Validation.module.ts:9-15 | the result is "CW" or "CCW"; it is "CCW" exactly for "ccw" in any case; any unrecognised input gives "CW" |
| Validation.CircleDirectionCaseInsensitive | src/modules/Validation.module.ts:9-15 | the direction does not depend on letter case |
| Validation.CircleDirectionFixesNormalForm | src/modules/Validation.module.ts:9-15 | "CW" and "CCW" are fixed points |
| FlightCache.Lookup | src/modules/FlightCache.module.ts:8-10 | a missing key reads as undefined, a present one as its value |
| FlightCache.FlightCache.constructor | src/modules/FlightCache.module.ts:4-6 | the cache starts as the given seed |
| FlightCache.FlightCache.Get | src/modules/FlightCache.module.ts:8-10 | reads the stored value or undefined |
| FlightCache.FlightCache.Set | src/modules/FlightCache.module.ts:12-14 | the new cache is the old one with that one key overwritten |
| FlightCache.FlightCache.Clear | src/modules/FlightCache.module.ts:16-18 | the cache becomes empty |
| FlightCache.GetAfterSet | src/modules/FlightCache.module.ts:8-14 | after a set, a get of that key returns the value just set |
| FlightCache.SetLeavesOtherKeys | src/modules/FlightCache.module.ts:8-14 | a set leaves every other key's reading unchanged |
| FlightCache.LastWriterWins | src/modules/FlightCache.module.ts:12-14 | two sets of one key leave only the second |
| FlightCache.ClearedReadsUndefined | src/modules/FlightCache.module.ts:8-18 | after a clear every key reads as undefined |
| Users.Without | src/modules/Users.module.ts:28-30 | removing an id keeps exactly the other ids, and keeps them distinct |
| Users.AuthorizedIds | src/modules/Users.module.ts:88-98 | the listed ids are exactly the registered and authorized ones, without repetition |
| Users.AuthorizedIdsSnoc | src/modules/Users.module.ts:91-95 | visiting one more session appends it exactly when it is authorized |
| Users.Users.constructor | src/modules/Users.module.ts:6 | the registry starts empty and consistent |
| Users.Users.Create | src/modules/Users.module.ts:8-26 | the id maps to a record with the given ip, capabilities and stream, unauthorized by default; a new id goes last in the order, a re-created one keeps its place |
| Users.Users.Delete | src/modules/Users.module.ts:28-30 | exactly that session disappears from the map and from the order |
| Users.Users.Exists | src/modules/Users.module.ts:104-106 | true exactly for a registered id |
| Users.Users.GetIp | src/modules/Users.module.ts:36-38 | an unknown id gives undefined, a known one its ip |
| Users.Users.SetIp | src/modules/Users.module.ts:32-34 | only that session's ip changes |
| Users.Users.GetStream | src/modules/Users.module.ts:60-62 | returns that session's stream |
| Users.Users.SetStream | src/modules/Users.module.ts:56-58 | only that session's stream changes |
| Users.Users.GetPermissions | src/modules/Users.module.ts:64-66 | null exactly for an unknown id, else that session's capability set |
| Users.Users.GetPermission | src/modules/Users.module.ts:68-70 | undefined exactly when the set lacks the key, else its value |
| Users.Users.SetPermission | src/modules/Users.module.ts:72-74 | only that key of that session's set changes |
| Users.Users.SetPermissions | src/modules/Users.module.ts:80-82 | only that session's set is replaced |
| Users.Users.SetAuthorized | src/modules/Users.module.ts:76-78 | only that session's flag changes |
| Users.Users.Values | src/modules/Users.module.ts:84-86 | every registered session exactly once, in registry order |
| Users.Users.GetAuthorizedUsers | src/modules/Users.module.ts:88-98 | the new dictionary holds exactly the authorized sessions, with their records unchanged; its key order is the registry order restricted to them |
| FlightEvents.RecordingAlert | src/modules/FlightEvents.module.ts:16-54 | one info alert for "started" or "stopped", none otherwise |
| FlightEvents.FlightPlanAlerts | src/modules/FlightEvents.module.ts:102-135 | the raw alert always comes first; a second, levelled alert follows exactly for playing, paused or stopped |
| FlightEvents.CalibrationCheck | src/modules/FlightEvents.module.ts:153-172 | caches "calibration ok" exactly when none is required and sends that check first; the danger alert is sent exactly when calibration is required |
| FlightEvents.HomeTypeCheck | src/modules/FlightEvents.module.ts:174-208 | caches true exactly for the TAKEOFF home type, sends the check and then the raw alert |
| FlightEvents.AlertPackets | src/modules/FlightEvents.module.ts:15-150 | the alert handlers send only alert messages |
| FlightEvents.CheckReaction | src/modules/FlightEvents.module.ts:152-209 | each check handler writes exactly one of the four check keys, and its check packet carries the value written |
| FlightEvents.TelemetryReaction | src/modules/FlightEvents.module.ts:211-264 | each telemetry handler sends exactly one packet, never a check; only the GPS fix handler writes, and it writes the fix |
| FlightEvents.React | src/modules/FlightEvents.module.ts:15-264 | every event writes at most one key, and only one of the four check/fix keys; any check packet carries the one value written |
| FlightEvents.ForwardOnlyWritesNothing | src/modules/FlightEvents.module.ts:212-263 | airspeed, altitude, satellites, battery and plan-error events send exactly one packet and write nothing |
| FlightEvents.GpsFixMirrored | src/modules/FlightEvents.module.ts:226-237 | the cached fix and the broadcast fix are the same value |
| FlightEvents.ChecksMirrorCache | src/modules/FlightEvents.module.ts:152-209 | every check packet carries the value its event has just written under that key |
| FlightEvents.WrittenKeepsOtherKeys | src/modules/FlightCache.module.ts:12-14 | writes to other keys leave a key's reading unchanged |
| FlightEvents.ReplayKeepsUnwrittenKeys | src/modules/FlightEvents.module.ts:15-264 | no sequence of vehicle events changes a key outside the four written ones |
| FlightEvents.FlightEvents.constructor | src/modules/FlightEvents.module.ts:9-13 | the handlers are bound to the given cache |
| FlightEvents.FlightEvents.SendToEveryone | src/modules/FlightEvents.module.ts:6-13 | the injected `sendPacketToEveryone` callback, as a log: the packet is appended to what has been handed to it, in call order |
| FlightEvents.FlightEvents.SetAndCheck | src/modules/FlightEvents.module.ts:154-161 | writes the flag, then broadcasts the check holding the value read back |
| FlightEvents.FlightEvents.Handle | src/modules/FlightEvents.module.ts:15-264 | the cache and the broadcast packets are exactly the event's reaction applied to the old state |
| FlightEvents.FlightEvents.HandleCheck | src/modules/FlightEvents.module.ts:152-209 | the cache and the broadcast packets are exactly the check reaction applied to the old state |
| FlightEvents.FlightEvents.HandleTelemetry | src/modules/FlightEvents.module.ts:211-264 | the cache and the broadcast packets are exactly the telemetry reaction applied to the old state |
| FlightEvents.FlightEvents.HandleAlert | src/modules/FlightEvents.module.ts:15-150 | the alert handlers broadcast exactly the event's alert packets and nothing else |
| FlightEvents.FlightEvents.AnnounceRecording | src/modules/FlightEvents.module.ts:16-54 | the recording handlers broadcast their one info alert, or nothing for another state |
| FlightEvents.FlightEvents.AnnounceFlightPlan | src/modules/FlightEvents.module.ts:102-135 | the plan-playing handler broadcasts the raw alert, then the levelled one when there is one |
| APIServer.CheckToken | src/modules/APIServer.module.ts:16-26 | valid exactly for the string "test"; status 200 when valid, else 400 |
| APIServer.Capability | src/modules/APIServer.module.ts:35-40 | a capability the set lacks is reported as undefined |
| APIServer.Summarize | src/modules/APIServer.module.ts:32-41 | an entry carries its session's id and ip |
| APIServer.SummaryReportsCapabilities | src/modules/APIServer.module.ts:35-40 | each of the six reported capabilities is what the session's set holds under that name, undefined when the set lacks it |
| APIServer.Summaries | src/modules/APIServer.module.ts:32-41 | one summary per session, same order |
| APIServer.ListedIds | src/modules/APIServer.module.ts:32-41 | an id is listed exactly when one of the summarised sessions has it |
| APIServer.UsersListing | src/modules/APIServer.module.ts:28-43 | exactly one entry per registered session, in registry order, each naming its session |
| APIServer.GetPermissionsEndpoint | src/modules/APIServer.module.ts:45-53 | 404 exactly for an unknown session, else that session's capability set |
| APIServer.SetPermissionEndpoint | src/modules/APIServer.module.ts:55-78 | unknown session: 404 and nothing changes; otherwise only that key changes, to true exactly for "1", the peer is told the one key, and the reply is the updated set |
| APIServer.FlightPlanFileName | src/modules/APIServer.module.ts:83 | the file name is the plan name followed by ".mavlink" |
| APIServer.Split | src/modules/APIServer.module.ts:94-98 | at least one piece, none containing the separator |
| APIServer.SplitJoin | src/modules/APIServer.module.ts:94-98 | splitting undoes joining, for pieces free of the separator |
| APIServer.SplitPiece | src/modules/APIServer.module.ts:98 | text without the separator splits into itself |
| APIServer.SplitPrefix | src/modules/APIServer.module.ts:94-98 | a separator-free prefix joins the first piece of what follows |
| APIServer.JoinSplit | src/modules/APIServer.module.ts:94-98 | joining undoes splitting |
| APIServer.DropTrailingCR | src/modules/APIServer.module.ts:95 | at most one trailing "\r" is dropped |
| APIServer.Lines | src/modules/APIServer.module.ts:95 | one line per line feed plus one, none containing a line feed |
| APIServer.NonEmpty | src/modules/APIServer.module.ts:97 | the result holds no empty line, its members are exactly the non-empty lines, and nothing changes when none is empty |
| APIServer.NonEmptyAppend | src/modules/APIServer.module.ts:97 | filtering distributes over concatenation, so the kept lines keep their order and multiplicity |
| APIServer.NonEmptyDropsEmpty | src/modules/APIServer.module.ts:95-97 | a trailing empty line, as a final line break leaves, is dropped |
| APIServer.ToWaypoint | src/modules/APIServer.module.ts:98-106 | a row's waypoint always has an index, and a later column only when the earlier ones are present |
| APIServer.Column | src/modules/APIServer.module.ts:100-106 | a column the row lacks is undefined |
| APIServer.RowColumns | src/modules/APIServer.module.ts:98-106 | a row written as tab-separated columns yields columns 0, 3, 8, 9 and 10 |
| APIServer.ParseFlightPlan | src/modules/APIServer.module.ts:94-106 | one waypoint per non-empty line after the first, in file order |
| APIServer.LinesOfCrlfText | src/modules/APIServer.module.ts:95 | lines written with CRLF endings come back exactly |
| APIServer.JoinCrlf | src/modules/APIServer.module.ts:95 | a CRLF join is an LF join of lines ending in "\r" |
| APIServer.JoinHasNo | src/modules/APIServer.module.ts:94-98 | joining keeps out a character absent from pieces and separator |
| APIServer.PlanFileRoundTrip | src/modules/APIServer.module.ts:80-112 | a header and rows written as a CRLF file, with or without a final line break, parse back to one waypoint per row, in order, each from that row's columns |
| APIServer.JoinFinalEmpty | src/modules/APIServer.module.ts:94-98 | joining with an empty last piece ends the text with the separator |
| APIServer.FlightPlanEndpoint | src/modules/APIServer.module.ts:80-112 | 404 exactly when the name's .mavlink file is missing, else the name and the parsed waypoints |
| App.Defaults | src/app.ts:37-51 | the seed cannot take off, has takeOffAt -1, a passed hardware check, and the four event-written flags false |
| App.LastValue | src/app.ts:247 | a read field is undefined or one of the object's entries for that key |
| App.LastValueAt | src/app.ts:247 | a key no later entry repeats reads as its own value |
| App.Clamped | src/app.ts:272 | a numeric axis is clamped; any other value passes unchanged |
| App.NewAxisInRange | src/app.ts:270-298 | updating one axis keeps a numeric axis within [-75, 75]; a non-number passes through unchanged |
| App.SteerStaysSafe | src/app.ts:265-307 | after a move every numeric axis stays within [-75, 75] and the flag is 0 or 1; a non-number passes through unchanged |
| App.Steer | src/app.ts:265-307 | the move update: the flag is 0 or 1, 1 exactly when some provided axis pushes, and a flag of 0 leaves every axis at 0 |
| App.SteerFlag | src/app.ts:265-307 | the flag is 1 exactly when some provided axis is non-zero; then provided axes take their clamped value (0 for 0) and absent ones are kept |
| App.SteerStops | src/app.ts:300-304 | a move with no pushing axis zeroes every axis |
| App.PilotingData.ApplyMove | src/app.ts:265-307 | the record after the handler's step-by-step update is the move's specified result, and safety is preserved |
| App.PilotingData.MoveAxis | src/app.ts:270-298 | one axis: absent keeps the value, 0 resets it, anything else is clamped; it counts as motion exactly when provided and non-zero |
| App.CircleRouteAsWritten | src/app.ts:255-264 | the handler as written throws and issues no command |
| App.CircleRoute | src/app.ts:255-264 | corrected: exactly a recognised string direction issues one circle, normalised, counter-clockwise exactly for "ccw" |
| App.CircleFinding | src/app.ts:256 | for "cw" the handler as written flies nothing while the corrected one circles "CW" |
| App.PilotRoute | src/app.ts:254-308 | only circle commands; the piloting record changes exactly for a move with data |
| App.CameraRoute | src/app.ts:310-335 | only camera commands; the only send is the speed echo to authorized sessions |
| App.AutonomyRoute | src/app.ts:337-373 | only return-home start or stop, answered to the sender alone |
| App.SuperUserRoute | src/app.ts:375-443 | only super-user commands; a take-off only when the cache can take off; replies go to the sender alone |
| App.FlightPlanRoute | src/app.ts:386-427 | only a fixed-point move or a plan start, each only when the vehicle can take off or the start is forced; replies go to the sender alone |
| App.VehicleRoute | src/app.ts:253-444 | the vehicle blocks never grant capabilities |
| App.TokenGrant | src/app.ts:466-475 | a grant exactly for a string token in the catalogue, with the catalogue's set |
| App.FlyingTime | src/app.ts:455-461 | 0 while takeOffAt is negative, else the time since take-off (now minus takeOffAt); null (a NaN) exactly for a non-numeric takeOffAt |
| App.Latency | src/app.ts:448-453 | the time since the packet's own timestamp (now minus time); null (a NaN) exactly for a non-numeric time |
| App.PongRoute | src/app.ts:446-465 | no command and no grant; two replies for a packet with data, none without |
| App.InitRoute | src/app.ts:466-494 | throws exactly for a packet without data; grants exactly the catalogue's set for a known token, and sends replies exactly when it grants |
| App.SessionRoute | src/app.ts:446-494 | no command and no piloting change; replies only; a grant only for init |
| App.Route | src/app.ts:246-253 | the data handler's dispatch: a null packet faults; without the vehicle there is no command and no steering; a grant only for init; outside the vehicle blocks only replies are sent |
| App.RouteIsGated | src/app.ts:253-444 | every command a packet causes is allowed by the sender's capabilities, the piloting record moves only for a pilot, and only the camera echo is fanned out, to authorized sessions only |
| App.VehicleRouteIsGated | src/app.ts:253-444 | the same, for the vehicle blocks |
| App.PilotRouteIsGated | src/app.ts:254-308 | the piloting block, reached with a piloting capability, issues only what that allows |
| App.CameraRouteIsGated | src/app.ts:310-335 | the camera block, reached with the camera capability, issues only camera commands and echoes only to authorized sessions |
| App.AutonomyRouteIsGated | src/app.ts:337-373 | the autonomy block, reached with the autonomy capability, issues only return-home commands |
| App.SuperUserRouteIsGated | src/app.ts:375-443 | the super-user block, reached as a super user, issues only super-user commands |
| App.NoDiscoIssuesNothing | src/app.ts:253 | without the vehicle no command, no piloting change, and only pong or init answer |
| App.TakeOffNeedsCanTakeOff | src/app.ts:376-385 | a take-off needs the vehicle, a super user and a truthy canTakeOff |
| App.FlightPlanStartRule | src/app.ts:386-427 | a plan starts only with canTakeOff or force; "test" flies to a fixed point silently, others start the named file and report; a refusal only reports failure |
| App.InitGrantsIffKnownToken | src/app.ts:466-494 | init grants exactly for a catalogued token, then replaces the set and tells the sender twice; otherwise nothing happens |
| App.PongReportsFlyingTime | src/app.ts:446-465 | pong answers with the latency and then the flying time, 0 while takeOffAt is negative |
| App.InitialPackets | src/app.ts:513-576 | nine messages, the first being init |
| App.InitialPacketOrder | src/app.ts:515-570 | the snapshot's actions come in the client's expected order |
| App.SnapshotMirrorsCache | src/app.ts:513-570 | the snapshot reports the cache as it stands and the link as it is |
| App.SeedFlagsSurvive | src/app.ts:37-51 | after any vehicle events canTakeOff is still false, takeOffAt still -1, and the hardware check still passed |
| App.SnapshotOfSeededCache | src/app.ts:513-570 | a cache with the seeded take-off state yields a grounded snapshot |
| App.SnapshotAfterEvents | src/app.ts:513-570 | whatever the vehicle reported since start-up, a new peer is told it cannot take off and has flown 0 ms |
| App.TakeOffNeverIssued | src/app.ts:376-385 | whatever the vehicle reported and whatever packet arrives, no take-off command is ever issued |
| App.Addressed | src/app.ts:574-576 | each packet, in order, to one session |
| App.DeliveredIff | src/app.ts:115-119 | a target gets the packet exactly when it is listed and its send does not throw; nothing else is delivered |
| App.FanOutReaches | src/app.ts:110-120 | a broadcast reaches exactly the registered, reachable sessions, and only authorized ones when restricted |
| App.BroadcastsSnoc | src/app.ts:110-120 | one more broadcast appends its deliveries |
| App.BroadcastsAppend | src/app.ts:110-120 | broadcasting two lists in turn is broadcasting their concatenation |
| App.DeliveriesStep | src/app.ts:115-119 | walking one more target appends its delivery exactly when its send does not throw |
| App.BroadcastsStep | src/app.ts:110-120 | fanning out the next packet extends the deliveries of the packets before it |
| App.TwoReplies | src/app.ts:446-494 | two replies reach a peer whose send works, in order, and are both lost otherwise |
| App.RepliesToDownPeer | src/app.ts:344-354 | replies to a session whose sends throw are all lost |
| App.RediscoveryReport | src/app.ts:161-206 | the link back up and a success alert after a successful rediscovery, one danger alert after a failed one |
| App.RediscoveryPackets | src/app.ts:149-206 | three broadcasts after a successful rediscovery, two after a failed one |
| App.RediscoveryBroadcasts | src/app.ts:149-206 | the warning's deliveries followed by the report's are the deliveries of all the rediscovery packets |
| App.DisconnectBroadcasts | src/app.ts:130-213 | the link-down deliveries followed by the rediscovery ones are the deliveries of every packet of the disconnect handler |
| App.ReconnectPackets | src/app.ts:130-213 | link down first, then the warning; the link comes back up, and the last packet is the success alert, exactly when rediscovery succeeds |
| App.WithStream | src/app.ts:193-196 | every session and only those, each given the new stream |
| App.NoPermissions | src/app.ts:229-236 | six capabilities, all denied |
| App.NewSessionCannotCommand | src/app.ts:226-240 | a freshly connected session can neither issue commands nor steer |
| App.Relay.constructor | src/app.ts:35-51 | the cache is seeded, the registry empty, the link down, nothing issued or sent |
| App.Relay.Start | src/app.ts:71-93 | without the vehicle nothing happens; otherwise a failed connect exits and a successful one enables and starts the video |
| App.Relay.SendTo | src/app.ts:344-354 | the packet is delivered exactly when the peer's send does not throw |
| App.Relay.SendPacketToEveryone | src/app.ts:110-120 | the deliveries are exactly the fan-out over all or the authorized sessions |
| App.Relay.DeliverEach | src/app.ts:115-119 | each target in turn gets the packet unless its send throws |
| App.Relay.OnVehicleEvent | src/app.ts:122-126 | the cache follows the event's reaction and each of its packets is fanned out to all sessions |
| App.Relay.BroadcastAll | src/app.ts:110-120 | each packet in turn is fanned out to all sessions |
| App.Relay.OnConnection | src/app.ts:215-240 | a new session with every capability denied, unauthorized, with its stream |
| App.Relay.OnPeerConnect | src/app.ts:497-577 | the session receives the snapshot in order; a throwing send stops the handler before anything is delivered, since a peer's sends are modelled as either all failing (the peer is down) or all succeeding |
| App.Relay.OnSocketDisconnect | src/app.ts:581-589 | exactly that session is forgotten |
| App.Relay.LinkDown | src/app.ts:130-138 | the link is marked down and every session is told |
| App.Relay.OnDisconnected | src/app.ts:130-213 | link down is broadcast; when not already reconnecting: warn, rediscover, then restore the link and the stream for every session or report failure |
| App.Relay.Reconnect | src/app.ts:140-210 | the rediscovery broadcasts in order, with the link, the video and the streams restored exactly on success |
| App.Relay.Restore | src/app.ts:161-196 | the link is up, the video enabled and running, every session has the new stream |
| App.Relay.GiveStream | src/app.ts:193-196 | every registered session, and nothing else, gets the new stream |
| App.Relay.HandlePacket | src/app.ts:246-495 | commands, piloting record, capability changes and deliveries are exactly the router's outcome for the sender's capabilities at that moment |
| App.Relay.VehicleBlocks | src/app.ts:253-444 | commands, piloting record and deliveries follow the vehicle route, and capabilities are untouched |
| App.Relay.PilotBlock | src/app.ts:254-308 | commands and piloting record follow the piloting route |
| App.Relay.CameraBlock | src/app.ts:310-335 | commands and deliveries follow the camera route |
| App.Relay.AutonomyBlock | src/app.ts:337-373 | commands and deliveries follow the autonomy route |
| App.Relay.SuperUserBlock | src/app.ts:375-443 | commands and deliveries follow the super-user route |
| App.Relay.FlightPlanStart | src/app.ts:386-427 | commands and deliveries follow the flight-plan route |
| App.Relay.HomeTest | src/app.ts:434-442 | the four home-position test commands are issued in order |
| App.Relay.SessionBlock | src/app.ts:446-494 | capability changes and deliveries follow the session route |
| App.Relay.Pong | src/app.ts:446-465 | deliveries follow the pong route; one throwing send ends both quietly |
| App.Relay.Init | src/app.ts:466-494 | a catalogued token replaces the set and authorizes, then the sender is told; a throwing send ends the handler |
| App.Relay.Authorize | src/app.ts:474-475 | only that session changes: its capability set is replaced and it is marked authorized |
| App.Relay.SendBoth | src/app.ts:477-492 | both packets reach a working peer in order; a throwing first send delivers nothing |

## Left out

- The vehicle SDK, wrtc, simple-peer, socket.io and express are transport. Commands and deliveries are recorded instead of performed.
- Logging, and the ping timer started on peer connect, which only sends pings.
- Asynchronous interleaving: every handler runs to completion. The disconnect handler's awaits are not interleaved with other events, so `reconnecting` is only seen true by a second disconnect that arrives while the first is still running.
- `JSON.parse` failures on malformed packets: the model starts from the parsed value.
- `clients.isAuthorized` and `clients.getPermissionsForToken` are not defined in src/modules/Users.module.ts. Their token catalogue is modelled as a constant map from token to capability set, given to the relay at construction.
- ParrotDiscoMap, FlightStream, FTP, the routes directory and the logger are not part of this model. FlightStream is reduced to a running flag and a fresh stream handle.
- `peer.addStream` and `peer.removeStream`: only the session record's stream is modelled.
- Session records are values, so two sessions sharing one permission object are not modelled. The source can alias the catalogue's object between sessions.
- Number() conversion of waypoint columns: waypoints keep the column text, and a missing column is undefined.
- The path join of the plan directory: the directory is a map from file name to contents.
- JSON key order of permission objects (`Flags`) is not modelled.
- Coordinates in `Command`s are exact reals rather than IEEE doubles.
- App.Clamped: a numeric string would be coerced by JavaScript's comparisons and clamped; the model passes every non-number through unchanged.
- App.FlyingTime: JavaScript coerces null, booleans and numeric strings in the subtraction; the model gives null (NaN) for every non-number.
- App.Latency: the same coercion caveat as FlyingTime.
- APIServer.SetPermissionEndpoint: the notice is returned rather than sent, and a throwing send, which would fail the request, is not modelled.
- App.PilotRoute, App.Relay.PilotBlock, App.Relay.HandlePacket: the circle action follows the corrected App.CircleRoute of the Findings table, not the handler as written, which throws.
- Validation.ToLower / Validation.ToUpper: ASCII only; Unicode case mapping (`toLocaleLowerCase`, `toUpperCase`), which can change the length, is not modelled.
- Users.Users.Exists, Users.Users.GetPermissions, Users.Users.GetPermission, Users.Users.SetPermission, APIServer.SetPermissionEndpoint: the registry and the capability sets are maps, so names a plain JavaScript object inherits ("constructor", "toString", "__proto__") are not modelled as present.
- JSON arrays are not modelled: `Json` has no array case, so a packet holding an array (a truthy `data: []` for `rth`, an array `data.name`) has no counterpart.
- APIServer.UsersListing: the ip is the one stored at connection, which is the socket's handshake address unless `setIp` later changes it.

## Findings

| source | as written | input that shows it | evidently intended | confidence | as-written member | corrected member |
|---|---|---|---|---|---|---|
| src/app.ts:256 | the circle handler calls `Validation.isValidCircleDirection(packet.action)`, which src/modules/Validation.module.ts does not define; the call throws, and it would validate the action rather than the direction | `{ action: "circle", data: "cw" }` from a pilot | validate `packet.data` and circle in the normalised direction "CW" | not executed | App.CircleRouteAsWritten, App.CircleFinding | App.CircleRoute, App.PilotRoute, App.Relay.PilotBlock, App.Relay.HandlePacket |
