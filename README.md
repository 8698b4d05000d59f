# Netherlink health dashboard — a Dafny model

Netherlink is a Minecraft-styled dashboard for a lab's network. It shows terminal servers (Cisco devices reached by SSH or Telnet) and Proxmox hosts, each with whether it is up, how long a ping takes, and how many sessions are open on it. Three Node programs are involved:

- the main server `src/index.js`;
- an older timeout-alarm server `src/server.js`;
- a plain static server `server.js`.

The browser component is `src/public/js/app.js`.

This project models the decision rules of those programs. Every probe is replaced by its outcome, given as an input: a `ping` run, a TCP connect, an SNMP walk, a call to the companion HTTP API, a file read or a `stat`. The parts modelled are:

- **Poll cycle** (`poller.dfy`). `pollDevices` walks the terminal servers and then the Proxmox hosts. For each one it derives `{ ip, online, latency, connCount }` and upserts it by IP into `deviceStates` / `proxmoxStates`. It appends one `device_update` or `proxmox_update` event per host, and an exception ends the cycle where it happens.
  - `loadConfigs` replaces the lists and never the state maps.
  - The class `Poller.PollState` holds the module-level variables. Its methods loop over the lists and are proved equal to the functional `PollCycle`. The properties are proved about `PollCycle`.
  - JavaScript objects are modelled as insertion-ordered key/value sequences (`jsobject.dfy`), with the property write, `Object.values` and `Object.assign` they support.
- **Probes** (`probes.dfy`, `snmp.dfy`):
  - the `ping` argument lists;
  - Windows latency extraction by the `time[=<](\d+)ms` pattern, matched case-insensitively and leftmost;
  - the shaping of `pingHost`'s result;
  - the Proxmox API host default `10.30.6.119` and its fallback answer;
  - the SNMP count of established SSH/Telnet sessions in the MIB-II tcpConnTable (RFC 1213, section 6). `CountSessions` is the `forEach` with `count++`, proved against the recursive `SessionCount`.
- **Server-sent events** (`eventstream.dfy`, `events.dfy`, `fanout.dfy`, `streams.dfy`):
  - the frames each server writes (`data: …\n\n` and `: heartbeat\n\n`);
  - a parser for the event-stream format of the WHATWG HTML Standard, section 9.2, used to prove what a subscriber's `EventSource` dispatches;
  - the subscriber set as a class with attach, detach, heartbeat and `broadcast`. `broadcast` deletes a subscriber from the set while walking it when that subscriber's write throws.
- **The timeout alarm** (`alarm.dfy`). `shouldPlayTimeout` is a once-per-matching-minute state machine over `lastTimeoutMinute`, with the sentinel -1, plus the timeout server's one-second fan-out.
- **Soundtrack titles** (`soundtrack.dfy`): `prettifyTrackName`'s four rewrites, the `.mp3`/`.wav`/`.ogg` filter and the track list.
- **Static files and routing** (`posixpath.dfy`, `statics.dfy`, `routing.dfy`, `http.dfy`):
  - a POSIX model of `path.normalize` / `path.join` / `path.extname`;
  - `serveStatic`'s path guard and MIME lookup;
  - the `createServer` routers of both plain servers;
  - the answers of the main server's routes.
- **The browser component** (`dashboard.dfy`). `Dashboard.App` holds the Alpine component's fields, modelling:
  - `getPingImage`;
  - the defaulting in `loadData`;
  - the merge by IP of `updateDevices` / `updateProxmox`;
  - the `onmessage` dispatch and the `timeoutPlayed` debounce;
  - `startScanDots`, `navigate`, `openTips` and `closeTips`.

## Model

| member | source | states |
|---|---|---|
| Text.Trim | src/index.js:242 | the result is trimmed, is a contiguous slice of the input with only white space cut off either side, and is empty exactly when the input is all white space |
| Text.AsciiLower | src/server.js:260 | same length, each character lower-cased |
| Text.ReplacePrefix | src/server.js:374 | replacing the first `/config/` of a path that starts with it removes exactly that prefix |
| Text.SplitJoin | src/index.js:172-174 | splitting a join on a separator absent from the parts gives the parts back |
| Text.DecimalRoundTrip | src/index.js:172-177 | a number's decimal text is all digits and reads back as the number |
| Text.ParseIntOfDecimal | src/index.js:177 | `parseInt` of a number's decimal text is that number |
| Json.Stringify | src/index.js:310 | serialised JSON never contains a control character, so it fits on one `data:` line |
| JsObject.Get | src/index.js:366 | a property is present exactly when its key is, and with unique keys it reads that entry's value |
| JsObject.PutGet | src/index.js:366 | after `o[k] = v`, `k` reads `v` and every other key reads as before |
| JsObject.PutKeys | src/index.js:366 | a property write keeps the key order, appends a new key at the end, and keeps keys unique |
| JsObject.PutKeyOrder | src/index.js:485-486 | the keys after a write are the old keys, plus the new key at the end if it was absent |
| JsObject.PutNew | src/index.js:366 | writing an absent key appends exactly one entry |
| JsObject.AssignGet | src/public/js/app.js:344 | after `Object.assign(t, s)`, each key of `s` reads its value in `s` and every other key reads its value in `t` |
| JsObject.AssignKeys | src/public/js/app.js:344 | `Object.assign` keeps the target's keys in order at the front, adds only the source's keys, and keeps keys unique |
| Events.EventFrameWellFormed | src/index.js:309-310 | every event's frame is a well-formed single data line, and a subscriber receives it as exactly one message with the serialised payload |
| Events.EventFrame | src/index.js:481-488 | every frame an event is written in, the fixed `connected` greeting included, is a single `data:` line with no line break in its payload |
| EventStream.WireParses | src/index.js:310 | the wire text of any sequence of well-formed frames parses to the data frames' payloads in order; comment frames dispatch nothing |
| EventStream.DataFrameRoundTrip | src/index.js:310 | `data: p\n\n` with no line break in `p` dispatches exactly one message whose data is `p` |
| EventStream.TwoDataMessages | src/index.js:481-488 | two data frames sent back to back are two messages, in order |
| Snmp.SessionCountIsIndexCount | src/index.js:170-185 | the count is the number of varbinds with at least 15 sub-identifiers, local port 22 or 23 at position 14, and value 5; it never exceeds the number of varbinds |
| Snmp.OidPartsRoundTrip | src/index.js:172-177 | joining an OID with dots and splitting it again gives the parts back, each read by `parseInt` as its sub-identifier |
| Snmp.CountSessions | src/server.js:180-205 | the `forEach` with `count++` computes exactly the session count, which is at most the number of varbinds |
| Snmp.ConnectionCount | src/index.js:128-196 | 0 for an empty ip, an error, a timeout or missing varbinds; otherwise the session count of the walk, at most its length |
| Probes.PingArgs | src/index.js:41-47 | one echo, the address last, and `-n` exactly on Windows |
| Probes.GreedyCapture | src/index.js:77-78 | a match of `time[=<](\d+)ms` at a position is exactly the pattern there with the whole digit run captured |
| Probes.FirstMatch | src/index.js:77 | finds the leftmost position where the pattern matches, or reports that there is none |
| Probes.WindowsLatencyIsLeftmostMatch | src/index.js:76-78 | the latency is absent exactly when the pattern matches nowhere; otherwise it is the digits of the leftmost match |
| Probes.PingHost | src/index.js:35-97 | up exactly for a non-empty ip and exit code 0; a down result is `{ up: false, latency: null }`; the latency comes from the Windows pattern on Windows and from the rounded time elsewhere |
| Probes.WindowsTimeEquals | src/index.js:77-78 | `time=7ms` reads as 7 ms |
| Probes.WindowsTimeBelow | src/index.js:77-78 | `TIME<12MS` reads as 12 ms, since the match ignores case |
| Probes.ApiHost | src/index.js:200 | a string with non-blank content is used trimmed; anything else gives `10.30.6.119`; the host is never empty |
| Probes.FetchConnectionCount | src/index.js:209-231 | a parsed answer is passed on as it is; a parse failure, a timeout or an error gives `{ established_connections: 0, port: 8006 }` |
| Probes.EstablishedConnections | src/index.js:384 | `established_connections \|\| 0`: fails exactly on a `null` body; a truthy property is passed on as it is, and anything else, a missing property or a non-object body included, gives 0 |
| Probes.FailureCountsZero | src/index.js:218-231 | when the API cannot be used the session count is 0 |
| Poller.TargetPort | src/index.js:344-345 | port 23 exactly for `protocol === 'telnet'` and 22 otherwise, a missing protocol included |
| Poller.PortUp | src/index.js:99-126 | a port check succeeds exactly for a non-empty ip, a non-zero port and a port that accepts a connection |
| Poller.DeviceRecord | src/index.js:343-364 | `ip` is the device's; `online` is exactly the result of checking the protocol's port; `latency` is the ping's; `connCount` is the SNMP count when the port or the ping is up, and 0 otherwise |
| Poller.HostRecord | src/index.js:372-392 | `online` is exactly the check of port 8006; `latency` is the ping's; `connCount` is 0 when offline and otherwise `established_connections \|\| 0` of the API's answer; a `null` API body for an online host throws |
| Poller.OnlineIgnoresPing | src/index.js:361 | a device's `online` does not depend on the ping outcome |
| Poller.DeviceRecords | src/index.js:342-368 | the records a device pass produces, one per entry in list order, up to the first `null` entry |
| Poller.HostRecords | src/index.js:371-396 | the same for the Proxmox pass, up to the first `null` entry or `null` API body |
| Poller.DeviceEvents | src/index.js:367 | exactly one `device_update` per record, in order |
| Poller.ProxmoxEvents | src/index.js:395 | exactly one `proxmox_update` per record, in order |
| Poller.DevicePass | src/index.js:342-368 | the device loop never touches the Proxmox states, only appends to the log, at most one event per entry, and ends aborted exactly when the cycle already was or the list holds a `null` entry |
| Poller.HostPass | src/index.js:371-396 | the host loop never touches the device states, only appends to the log, at most one event per entry, and a `null` entry leaves the cycle aborted |
| Poller.PollCycle | src/index.js:339-403 | a whole cycle only appends to the log, at most one event per configured entry, and a `null` entry in either list leaves it aborted |
| Poller.Upsert | src/index.js:366 | `state[ip] = record` for each record in turn never removes a key and keeps the old keys in order at the front |
| Poller.DevicePassAborted | src/index.js:397-399 | once the cycle has thrown, the rest of the device list changes nothing |
| Poller.HostPassAborted | src/index.js:397-399 | once the cycle has thrown, the rest of the host list changes nothing |
| Poller.DevicePassResult | src/index.js:342-368 | a device pass upserts its records, appends their events in order, leaves the Proxmox states alone, and aborts exactly when a `null` entry is met |
| Poller.HostPassResult | src/index.js:371-396 | a Proxmox pass upserts its records, appends their events, leaves the device states alone, and aborts exactly when a host could not be processed |
| Poller.PollCycleResult | src/index.js:339-403 | one cycle: device records upserted and announced first, then the host records unless the device pass aborted; aborted exactly when some entry could not be processed |
| Poller.UpdatesOrdered | src/index.js:342-396 | one event per processed host, and every `device_update` precedes every `proxmox_update` |
| Poller.LastFor | src/index.js:366 | the last record for an ip in a sequence, or none when no record has that ip |
| Poller.UpsertGet | src/index.js:394 | after upserting, an ip reads its last record in the cycle, or its old state if the cycle had none; a later duplicate overwrites an earlier one |
| Poller.UpsertKeys | src/index.js:342-396 | unique keys stay unique through the upserts |
| Poller.UpsertKeySet | src/index.js:366 | the keys afterwards are the old keys plus the ips of the records |
| Poller.PollState.constructor | src/index.js:268-271 | both lists and both state maps start empty, as does the event log |
| Poller.PollState.LoadConfigs | src/index.js:274-289 | each list is replaced by its file's contents when the file exists; an unreadable device file ends the load before the Proxmox file; the state maps and the log are untouched |
| Poller.PollState.PollDevices | src/index.js:339-403 | the loops leave the states, the log and the abort flag exactly as `PollCycle` computes them, and the lists unchanged |
| Alarm.CheckAt | src/index.js:320-336 | fires exactly at the configured hour and minute when the marker differs from the minute; a matching check sets the marker to the minute; a mismatch resets it to -1 |
| Alarm.FiresOncePerRun | src/index.js:326-331 | over consecutive matching ticks it fires exactly once, on the first, unless the marker already held the minute |
| Alarm.MismatchRearms | src/index.js:332-334 | a mismatching tick followed by a matching one fires on the second |
| Alarm.FiresOnlyWhenMatching | src/index.js:326-330 | no tick fires unless it is at the configured hour and minute |
| Alarm.TimeoutMonitor.constructor | src/server.js:21 | the marker starts at -1 |
| Alarm.TimeoutMonitor.ShouldPlayTimeout | src/server.js:23-42 | the method's result and new marker are exactly `CheckAt` of the old marker |
| Alarm.AlertOf | src/server.js:49 | the timeout server's alarm frame is the text `data: {"shouldPlay":true}` and a blank line, dispatched as one message with that data; the main server's is the `timeout` event; both are well formed |
| Alarm.AlarmServer.constructor | src/server.js:45-55 | the timer checks one monitor, writes to one subscriber set, and its alarm frame is the one its server writes: the `shouldPlay` literal for the timeout server, the `timeout` event for the main server |
| Alarm.AlarmServer.Tick | src/server.js:45-55 | on a firing tick every subscriber whose write goes through is sent the server's alarm frame once (for the timeout server, `data: {"shouldPlay":true}`), and those whose write throws are removed; otherwise nothing changes |
| Alarm.TimeoutAlertText | src/server.js:49 | the timeout alarm's frame is exactly `data: {"shouldPlay":true}` followed by a blank line |
| Alarm.AlarmFrames | src/server.js:49 | the alert is one well-formed message whose data is `{"shouldPlay":true}`, and the greeting and the main server's `timeout` frame are well formed |
| Fanout.Without | src/index.js:311-316 | the clients left after removing failures: exactly the old ones not failing, order and distinctness kept |
| Fanout.RemoveAbsent | src/server.js:363-366 | deleting a client that is not in the set leaves the set unchanged |
| Fanout.RemoveAt | src/server.js:356-367 | deleting a client removes exactly that client and keeps the order of the others |
| Fanout.DeliverToExactlyOnce | src/index.js:311-317 | every client written to gets exactly one more frame, the given one, and every other client nothing |
| Fanout.Subscribers.constructor | src/index.js:265 | the set starts empty |
| Fanout.Subscribers.Attach | src/server.js:338-353 | in one synchronous step the stream joins at the end of the set, its heartbeat starts, and it is sent its greeting |
| Fanout.Subscribers.Join | src/index.js:478 | the stream joins at the end of the set with nothing yet written to it and no heartbeat |
| Fanout.Subscribers.Write | src/index.js:481 | one write appends the frame to that stream alone |
| Fanout.Subscribers.StartBeat | src/index.js:490-497 | the stream's heartbeat interval is running; nothing is written |
| Fanout.Subscribers.Detach | src/index.js:499-503 | an abort stops the heartbeat and removes exactly that stream; nothing already sent changes |
| Fanout.Subscribers.Beat | src/index.js:490-497 | a heartbeat tick writes `: heartbeat`, or on a failed write stops the interval and removes the stream; a stopped interval does nothing |
| Fanout.Subscribers.Broadcast | src/index.js:309-318 | the set becomes the old set minus the failing subscribers, each remaining one is sent the frame once, and the heartbeats are kept |
| Fanout.BroadcastDelivers | src/index.js:309-318 | after a broadcast, a subscriber whose write went through has exactly one more frame and every other has none |
| Fanout.StreamDispatches | src/index.js:490-492 | what a subscriber dispatches is exactly the data frames it was sent, in order; heartbeats dispatch nothing |
| Streams.MainGreetingMessages | src/index.js:481-488 | a new main-server subscriber receives two messages, in order: `connected`, then `full_state` with every record of both state maps in key order |
| Streams.OpenEventsConnect | src/index.js:476-481 | the first part of `GET /events`: the stream joins the set and is written `connected`; its heartbeat has not started |
| Streams.OpenEventsSnapshot | src/index.js:483-497 | the rest: `full_state` of the poll state as it is at that moment is written, then the heartbeat starts |
| Streams.OpenEvents | src/index.js:476-497 | when nothing runs between the awaited writes, `GET /events` adds the stream, starts its heartbeat and sends the two greeting frames |
| Streams.OpenEventsAcrossBroadcast | src/index.js:478-488 | a broadcast while the first write is awaited reaches the new stream between `connected` and `full_state` |
| Streams.OpenTimeoutEvents | src/server.js:324-353 | `GET /timeout-events` adds the stream, starts its heartbeat and sends `{"connected":true}` |
| Streams.OpenThenClose | src/server.js:338-367 | opening a stream and closing it leaves the set as it was; closing it again changes nothing |
| Http.QueryGet | src/index.js:438 | a query parameter is the first entry with that name, or absent when no entry has it |
| Http.ParamOr | src/index.js:419 | `get(name) \|\| fallback`: an absent or empty parameter gives the fallback |
| PosixPath.JoinPathAgrees | src/server.js:245 | joining two paths is joining their non-empty parts |
| PosixPath.Normalize | src/server.js:244 | the normal form is never empty, absolute exactly when the path is, and keeps a trailing `/` |
| PosixPath.ExtName | src/server.js:260 | the extension is empty or starts with `.` and contains no `/` |
| PosixPath.NormalizeAbsolute | src/server.js:244 | normalising an absolute path leaves no `..` segment |
| PosixPath.NormalizeRoot | src/server.js:234 | a plain absolute directory is already normal |
| PosixPath.JoinInside | src/server.js:245-247 | the public directory joined with a path that has no `..` segment starts with the directory |
| PosixPath.ResolveNoParent | src/server.js:244 | segments without `..` are resolved by dropping the empty and `.` ones |
| PosixPath.ExtNameOfFile | src/server.js:260 | the extension of `dir/name.ext` is `.ext` |
| PosixPath.BaseNameOfFile | src/server.js:260 | the last component of `dir/tail` is `tail` |
| StaticFiles.MimeKeysUnique | src/server.js:218-232 | the MIME table has thirteen distinct extensions |
| StaticFiles.MimeTable | src/server.js:260-261 | each table extension maps to its entry; an extension maps to `application/octet-stream` exactly when it is not in the table |
| StaticFiles.LeadingRun | src/server.js:244 | the length of the leading run of `.`, `/` and `\` |
| StaticFiles.FilePath | src/server.js:240-242 | `/` and the empty path map to `/index.html`; every other path is kept |
| StaticFiles.Relative | src/server.js:244 | the normalised path with its leading run stripped, so it never starts with `.`, `/` or `\` |
| StaticFiles.ServeStatic | src/server.js:236-276 | 403 exactly when the joined path leaves the public directory; 404 exactly when nothing, or something that is not a file, is there; otherwise 200 with the extension's content type, no body for HEAD and the file's content for GET |
| StaticFiles.ForbiddenWithoutLookup | src/server.js:247-251 | a refused path is refused without a file lookup |
| StaticFiles.RelativeHasNoParent | src/server.js:244 | the stripped path of an absolute request path has no `..` segment |
| StaticFiles.NeverForbidden | src/server.js:244-247 | with a plain absolute public directory, the 403 branch is never taken |
| StaticFiles.IndexPage | src/server.js:240-245 | `/` is served from `index.html` in the public directory |
| StaticFiles.IndexPageType | src/server.js:260-262 | `index.html` is served as `text/html; charset=utf-8` |
| StaticFiles.UpperCaseExtension | src/server.js:260-261 | `.PNG` is looked up lower-cased, as `image/png` |
| StaticFiles.NoExtension | src/server.js:260-261 | a file without an extension is `application/octet-stream` |
| StaticFiles.NoEntryForEmpty | src/server.js:261 | the empty extension has no table entry |
| StaticFiles.DotFileLosesItsDot | src/server.js:244 | the strip removes a leading dot too: `/.env` looks up `env` |
| Routing.QueryDefaults | src/index.js:450-452 | the ip defaults to the empty string and the community to `netlink` when absent or empty |
| Routing.Pinged | src/server.js:57-103 | the plain servers' ping is up exactly for a non-empty ip and exit code 0 |
| Routing.PortOpen | src/server.js:105-131 | a port check is up exactly for a non-empty ip, a non-zero port and a port that accepts a connection |
| Routing.ConfigAnswer | src/server.js:377-386 | a readable file is answered 200 with its text as is; otherwise a JSON 404 `Config file not found` |
| Routing.TimeoutServerRoute | src/server.js:286-397 | 204 exactly for OPTIONS; every answer is 200, 204, 403 or 404; a 403 is only a GET or HEAD whose path leaves the public directory |
| Routing.TimeoutPreflightFirst | src/server.js:286-290 | OPTIONS is answered 204 with no body, whatever the path |
| Routing.ConfigReadsNamedFile | src/server.js:373-375 | `GET /config/<f>` reads the file `<f>` named by the path with the prefix removed |
| Routing.TimeoutOtherMethods | src/server.js:395-397 | methods other than GET, HEAD and OPTIONS get the JSON 404 |
| Routing.TimeoutStaticFallback | src/server.js:389-393 | a GET of any other path, and every HEAD, is served from the public directory |
| Routing.StaticServerRoute | server.js:155-189 | 204 exactly for OPTIONS; every answer is 200, 204, 403 or 404; a 403 is only a GET or HEAD whose path leaves the directory |
| Routing.StaticPreflightFirst | server.js:155-159 | OPTIONS is answered 204 with no body, whatever the path |
| Routing.StaticHealthFirst | server.js:161-179 | `/health` is answered from the ping without looking at files, and `/proxmox-health` checks port 8006 |
| Routing.StaticHeadIsFile | server.js:181-185 | every HEAD is served from the directory |
| Routing.StaticOtherMethods | server.js:187-189 | methods other than GET, HEAD and OPTIONS get the JSON 404 |
| Routing.MainHealth | src/index.js:418-422 | 200 with `{ ip, up, latency }`: `up` exactly when the ping of the query's non-empty ip exited with 0, `latency` null when down, else the Windows `time=` figure or the rounded time |
| Routing.MainProxmoxHealth | src/index.js:424-435 | 200 with `{ ip, up, latency, pingUp }`: `up` exactly when port 8006 of a non-empty ip accepts, `pingUp` exactly when the ping exited with 0, `latency` as for `/health` |
| Routing.MainProxmoxConnectionCount | src/index.js:437-448 | 400 exactly when `ip` is absent or empty; otherwise 200 with `ip` followed by the API's answer |
| Routing.SpreadFields | src/index.js:444 | `{ ip, ...data }` leads with `ip`; the API's properties override it, its own `ip` included |
| Routing.ProxmoxCountFallback | src/index.js:442-446 | an unreachable API gives `{ ip, established_connections: 0, port: 8006 }` |
| Routing.MainSoundtracks | src/index.js:457-460 | `{ tracks }` with one `{ file, title, url }` object per listed track, in order |
| Routing.MainConfig | src/index.js:513-526 | 404 exactly for a missing file, 500 exactly for a read or parse failure, and otherwise 200 with the parsed JSON |
| Soundtrack.StripExtensionSpec | src/index.js:239 | only a final `.ext` without dots is removed; a name without one is kept |
| Soundtrack.StripLastExtension | src/index.js:239 | `base.ext` loses exactly `.ext` |
| Soundtrack.StripDiscIndexAt | src/index.js:240 | a leading `digits-digits.` and the white space after it are removed |
| Soundtrack.StripDiscIndexSpec | src/index.js:240 | the disc index is removed exactly when the name starts with one |
| Soundtrack.StripTrackIndexSpec | src/index.js:241 | a leading `digits.` and the white space after it are removed, exactly when present |
| Soundtrack.Spaced | src/index.js:242 | every underscore becomes a space and nothing else changes |
| Soundtrack.Cleaned | src/index.js:239-242 | after the four rewrites the title has no underscore and no white space at either end |
| Soundtrack.PrettifyTrackName | src/index.js:237-244 | never empty, no underscore, trimmed; `Unknown Track` for a non-string or empty name or when nothing is left |
| Soundtrack.PlainTitle | src/index.js:239-243 | `My_Song.mp3` style names lose only their extension and underscores |
| Soundtrack.TrackNumberTitle | src/index.js:239-243 | a `07. ` track number is removed with the extension |
| Soundtrack.DiscNumberTitle | src/index.js:239-243 | a `1-07. ` disc and track number is removed with the extension |
| Soundtrack.AudioFiles | src/index.js:251 | exactly the names ending in `.mp3`, `.wav` or `.ogg` in any case, in order |
| Soundtrack.AudioFilesConcat | src/index.js:251 | the filter works name by name |
| Soundtrack.AudioFilesIdempotent | src/index.js:251 | filtering twice is filtering once |
| Soundtrack.SoundtrackList | src/index.js:246-261 | nothing for a missing or unreadable directory; otherwise one track per audio file, in order, with its pretty title and its encoded URL under `/music/soundtrack/` |
| Soundtrack.TracksAreAudio | src/index.js:250-256 | every track is an audio file of the directory with a readable title |
| Dashboard.PingImage | src/public/js/app.js:258-266 | `ping-5.png` for no answer or 200 ms and more, `ping-4.png` in [150, 200), `ping-3.png` in [100, 150), `ping-2.png` in [50, 100), `ping-1.png` below 50 |
| Dashboard.PingImagePath | src/public/js/app.js:265 | `img/ping/ping-<n>.png`, with the digit `n` |
| Dashboard.PingIndexRange | src/public/js/app.js:258-266 | the icon index is always between 1 and 5 |
| Dashboard.PingBuckets | src/public/js/app.js:259-264 | index 5 exactly from 200 ms, 4 in [150, 200), 3 in [100, 150), 2 in [50, 100), 1 below 50 |
| Dashboard.PingIndexMonotone | src/public/js/app.js:259-264 | the index never decreases with latency, and an unknown latency is the worst |
| Dashboard.PingImageDistinct | src/public/js/app.js:258-265 | two latencies show the same icon exactly when they fall in the same bucket |
| Dashboard.DefaultAll | src/public/js/app.js:139-140 | the list keeps its length and order, each entry defaulted |
| Dashboard.DefaultedFields | src/public/js/app.js:139 | every entry reads `online: false`, `latency: null` and `connCount: 0`, overriding configured values, and keeps its other fields |
| Dashboard.FreshEntryShowsWorstPing | src/public/js/app.js:139-140 | a freshly loaded entry shows the worst ping icon |
| Dashboard.FindIp | src/public/js/app.js:342 | `find(d => d.ip === ip)`: the first entry with that ip, or none when no entry has it |
| Dashboard.RecordFieldsUnique | src/index.js:359-364 | a record's properties are `ip`, `online`, `latency`, `connCount`, once each |
| Dashboard.MergeRecordFields | src/public/js/app.js:341-346 | only the first entry with the record's ip changes; it reads the record's fields and keeps its others; nothing changes when no entry matches; the length is kept |
| Dashboard.MergeRecordKeepsIps | src/public/js/app.js:341-346 | merging never changes any entry's ip |
| Dashboard.MergeAllKeepsIps | src/public/js/app.js:337-347 | no sequence of merges changes the ips or adds entries |
| Dashboard.MergeAllUntouched | src/public/js/app.js:337-347 | an entry that no record matches is unchanged |
| Dashboard.LatestRecordWins | src/public/js/app.js:337-347 | the matched entry reads the fields of the last record for its ip |
| Dashboard.ScanAlternates | src/public/js/app.js:268-275 | the dots alternate strictly between `O o O` and `o O o` |
| Dashboard.Merged | src/public/js/app.js:341-346 | the `forEach` loop computes exactly `MergeAll` |
| Dashboard.App.constructor | src/public/js/app.js:3-41 | the initial state: main page, empty lists, loading with `Building Terrain`, everything closed, alarm not yet played |
| Dashboard.App.LoadData | src/public/js/app.js:127-150 | a failed fetch or a non-list device file leaves both lists and shows `Error loading data!`; otherwise the devices are defaulted, then the Proxmox list likewise or the error banner |
| Dashboard.App.UpdateDevices | src/public/js/app.js:337-347 | the device list becomes the merge of the records into it |
| Dashboard.App.UpdateProxmox | src/public/js/app.js:349-356 | the Proxmox list becomes the merge of the records into it |
| Dashboard.App.OnMessage | src/public/js/app.js:288-326 | `full_state` merges both lists and shows `System Online`; `device_update` touches only devices; `proxmox_update` touches only Proxmox hosts; `timeout` plays exactly when `shouldPlay` and not yet played, and then sets `timeoutPlayed` |
| Dashboard.App.TimeoutReset | src/public/js/app.js:320 | the delayed reset clears `timeoutPlayed` |
| Dashboard.App.AlarmTwice | src/public/js/app.js:311-321 | a second alarm before the reset does not play |
| Dashboard.App.StartScanDots | src/public/js/app.js:268-270 | the interval's index starts at the first frame |
| Dashboard.App.ScanTick | src/public/js/app.js:271-274 | one tick moves to the other frame |
| Dashboard.App.Navigate | src/public/js/app.js:163-168 | the page is the target, and the options and quit overlays are closed |
| Dashboard.App.OpenTips | src/public/js/app.js:223-229 | the tips open for the ip with its SSH and Telnet commands |
| Dashboard.App.CloseTips | src/public/js/app.js:231-237 | nothing changes unless the tips are open; then they close and the active ip is cleared |

## Left out

- Spawning `ping`, socket connects, SNMP sessions, the companion HTTP API, file reads, `stat` and streaming are I/O. Each is an input (`Routing.World`, `Poller.DeviceProbe`, `Poller.HostProbe`).
- Timers and deadlines are left out: the 800/1500/5000 ms timeouts, the 5 s poll delay, the 15 s heartbeat and the 120 s `timeoutPlayed` reset. One poll cycle, tick, heartbeat or reset is one method call.
- `Promise.all` concurrency is left out. Both probe outcomes of a host are given together.
- The Bangkok time-zone conversion is a locale library call. The hour and minute are inputs.
- Away from Windows, the latency `Math.round(parseFloat(...))` is floating point. It is the input `roundedTime`.
- The CORS middleware and headers, and every response header other than `Content-Type`, are not modelled.
- `server.listen`, `fs.watch`, the keep-open loop of `/events`, logging and the `/snow-textures` route are not part of this model.
- The main server's Hono `serveStatic({ root })` middleware is library code and is not part of this model. The path guard modelled is the plain servers' `serveStatic`.
- A read-stream error after the 200 header (the 500 reply) is not modelled.
- Configuration entries are `DeviceConfig` / `HostConfig` values whose `ip` is a string, and a parsed file is a list. An entry whose `ip` is missing or not a string cannot be written, nor can a parsed file that is not an array; `for…of` over such a file throws in every cycle and is caught by the cycle's `catch`.
- JSON numbers are integers. A fractional number in the companion API's body, which `/proxmox-connection-count` and a host's `connCount` pass on as received, cannot be written.
- Poller.PollState.PollDevices: reads both lists once, when the cycle starts. In the source the cycle awaits between hosts, so a `loadConfigs` run by the file watcher during the device pass changes which Proxmox list the host pass walks.
- Fanout.Subscribers.Write: cannot fail. A `stream.write` of the `/events` greeting that throws is not modelled; only broadcasts and heartbeats model failed writes.
- `JSON.parse` is not modelled. Parsed values arrive as `Json` values, and the client's events arrive as `Event` values. A message that does not parse is therefore not modelled either.
- Integer-like property names, which JavaScript enumerates before the other keys, are not modelled. Keys keep plain insertion order; a numeric IP used as a key would break that.
- Hono's decoding of the `:file` parameter is not modelled, and neither is the WHATWG URL parser's treatment of `%2e` segments.
- Text.AsciiLower: lower-cases only `A`–`Z`, where `toLowerCase` handles all of Unicode. Table extensions are ASCII, so only non-ASCII extensions differ.
- Soundtrack.SoundtrackList: takes `encodeURIComponent` as the parameter `encode`, because the encoding itself is a library call.
- Routing.Spread and Dashboard.Spread: spreading a value that is not an object contributes nothing. The index keys of a string or array spread are not modelled.
- Dashboard.LatencyOf: treats a latency that is neither a number nor `null` as unknown. In `getPingImage` such a value would be compared as JavaScript does.
- Dashboard.App: keeps the audio, DOM, video, clipboard, status messages, volume, splash text, `openSSH`/`openProxmox`, the options and quit overlays' open/close buttons and `EventSource` reconnection out of the model. They are browser APIs and UI.
- Dashboard.App.UpdateDevices: Alpine's in-place `Object.assign` on a shared array element is modelled as replacing that element's value. Aliasing of elements is not modelled.
- Other observations about the source:
  - the plain servers' 403 branch cannot be reached for a plain absolute public directory (StaticFiles.NeverForbidden);
  - a leading dot of a file name is stripped (StaticFiles.DotFileLosesItsDot);
  - a HEAD of `/health` is served from the directory;
  - the `catch` blocks of `/proxmox-health` and `/proxmox-connection-count` are never taken;
  - a `broadcast` that removes a subscriber leaves its heartbeat interval running;
  - a `null` API body from an online Proxmox host throws and ends the cycle.
