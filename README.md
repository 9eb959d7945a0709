# send-links: the relay clients, the file transfer and the background page, in Dafny

send-links is a browser extension. It lets browsers that share a relay
channel find each other and send links, text selections and files to one
another. This project models its core.

- **The relay client of `peer.js`.** A token-authenticated WebSocket client.
  - It holds a status (`DISCONNECTED`, `CONNECTING`, `CONNECTED`), an error,
    an `offline` switch and an event bus.
  - After each disconnection, a listener schedules the next reconnection from
    a backoff array.
  - `connect`, `disconnect`, `send`, `shutdown` and `restart` drive the client.
- **The relay client of `peer/peer.js`.** The same client with an API key.
  It adds:
  - `configure`;
  - framing of relay messages that depends on a password (encrypt on send;
    decrypt inbound frames that carry the sealed prefix);
  - the session cache `peer.binary.cache`, which the offer/answer/candidate
    listener consults.
- **The file transfer of `peer/peer.js`.**
  - The sender works stop-and-wait: a JSON preamble, then one chunk per
    inbound event. A sliding timeout runs, and the promise settles once.
  - The receiver appends, counts, acknowledges with the running size, and
    completes when the size equals the announced size.
- **The background page, `background.js`.**
  - The badge, and the enablement and titles of the context menus.
  - The parsing of menu ids, and the registry of peers present on the network.
  - The `whoami`/`peer`/`shutdown` announcements and remote actions.
  - The decisions of the storage listener.

Both clients are modelled the same way:
- A **machine module** (`TokenMachine`, `KeyMachine`) holds the client's
  fields as a value (`Conn`) and one pure function per operation or callback.
  `Input`/`Apply`/`Run` replay any sequence of calls and callbacks. The
  inputs include the page's writes of `peer.prefs.token`,
  `peer.prefs.server` and `peer.offline` in peer.js, and a socket's `onopen`/`onclose` only
  arrive once a socket exists. The
  lemmas about the client are proved on these functions: invariants kept by
  every run, the connect gate, backoff, offline, sessions and framing.
- A **class module** (`TokenPeer`, `KeyPeer`) holds a `Peer` class whose
  fields are the client's fields. Every method changes them in place and is
  proved to move the object exactly as the matching function moves
  `State()`.

`Relay` holds what the two clients share:
- the message record: one optional field per JSON key; the key `method` is
  called `kind`;
- the events, the backoff arithmetic, the `validate` gate;
- first-occurrence `replace` on the server template.

`Transfer` holds the sender and the receiver as classes, proved against
functions on byte sequences. `Background` holds the page's pure decision
functions with their lemmas, and an `Extension` class whose methods are the
page's listeners. `Extension` drives a `TokenPeer.Peer`.

Host capabilities and host facts are inputs to the model:
- JSON parse and stringify, and the cipher, are function values in
  `TokenPeer.Json` and `KeyMachine.Codec`;
- `navigator.onLine`, whether the host's `WebSocket` constructor accepts the
  server URL, the answer `createAnswer` yields and the random file id are
  arguments of the operations that read them.

Timers are a pending `Timer` field. The host fires a timer with `FireTimer`.

## Notes on the code

The model follows the code in each case. Where there is a lemma, it names
the case.

- **Status events.** A status event's `oldValue` is always the new value,
  because `_status` is assigned before the payload is built
  (peer.js:8-17, peer/peer.js:9-18). See `TokenMachine.StatusEmitsOnChange`
  and `KeyMachine.StatusEmitsOnChange`.
- **Plain frames under a password.** With a password set, a frame without
  the sealed prefix is still parsed as plain JSON and handled like any
  other (peer/peer.js:60-63). See `KeyMachine.PlainFramesAcceptedUnderPassword`.
- **Session cleanup.** A cache entry is removed only when a channel closes
  or the connection fails (peer/peer.js:210-215, 281-292). The sender's
  timeout keeps it (peer/peer.js:181-184). A completed transfer removes it
  only through the close event that completion triggers: the receiver
  closes its channel (peer/peer.js:272), and the close handlers delete the
  entry. See `KeyMachine.OnlyCloseOrFailureDropsSessions`.
- **`disconnect` in peer.js.** It has no `try`, so it throws while no socket
  exists (peer.js:82-85). A `shutdown` at that point leaves the client
  offline, and the storage listener stops there. A token changed in the same
  storage event then never reaches the client. See
  `TokenMachine.DisconnectThrowsWithoutSocket` and
  `Background.DisableWithoutSocketStops`.
- **A server URL the host rejects.** `socket()` sets CONNECTING and cancels
  the timer before `new WebSocket(url)` runs (peer.js:40-48,
  peer/peer.js:41-49). When the constructor throws on a malformed server
  template, the client stays CONNECTING with no new socket and no timer,
  and `connect` can no longer pass its gate, which wants DISCONNECTED. See
  `TokenMachine.RejectedUrlStalls` and `KeyMachine.RejectedUrlStalls`.
- **A shrunk backoff schedule.** `configure` can replace the schedule by
  one no longer than the current backoff index. The next DISCONNECTED then
  reads an `undefined` timeout, so the reconnect runs at once, and the
  index falls back to the schedule's last entry (peer/peer.js:141-156).
  See `KeyMachine.ShrunkScheduleReconnectsAtOnce`.
- **The `power` menu.** It is enabled when the status differs from
  `'connecting'` in lower case. No status has that value, so it is always
  enabled (background.js:156-158). See `Background.MenuEnablement`.
- **Menu ids.** A menu id is cut at its second `-` (background.js:122), so a
  peer id containing `-` is truncated. See `Background.ParseMenuIdRoundTrip`.
- **The password in the storage listener.** A password change does not
  restart the client: the storage listener of background.js only looks at
  `enabled`, `token`, `server` and `name`.
- **Missing ids.** A message without an `id` registers, or removes, the key
  `"undefined"`, as the code's object keys do (`Relay.Key`).

## Model

| member | source | states |
|---|---|---|
| Relay.Register | peer.js:36-39 | `on` appends the callback to the end of the list for its event name and leaves every other name's list unchanged |
| Relay.NextAttempt | peer.js:124 | `min(len-1, k+1)` stays in `[0, len)` for an index in range and is `k+1` below the last entry |
| Relay.AttemptAfterSaturates | peer/peer.js:147-155 | after n disconnections in a row the backoff index is `min(n, len-1)`; `TokenMachine.BackoffFollowsAttempts` ties this count to the listener |
| Relay.BackoffDelay | peer/peer.js:147-155 | the (n+1)-th disconnection in a row waits `reconnect[min(n, len-1)]` |
| Relay.TrailQuiet | peer.js:33-35 | an emission that is not a status event leaves the announced trail of statuses, and where it ends, unchanged |
| Relay.TrailStep | peer.js:8-17 | announcing a status different from the current one extends the trail by that status, so the trail never repeats a value |
| Relay.IndexOf | peer.js:48 | the first index where the pattern occurs, or none when it occurs nowhere |
| Relay.ReplaceFirst | peer/peer.js:49 | replacing the credential placeholder changes only its first occurrence; the text before and after is kept |
| Relay.LaterOccurrencesSurvive | peer.js:48 | later occurrences of the placeholder survive the replacement, shifted |
| TokenMachine.InitialInv | peer.js:3-31 | the initial client satisfies the invariant |
| TokenMachine.EmitInv | peer.js:33-35 | an emission other than a status event keeps the invariant |
| TokenMachine.SetStatusInv | peer.js:8-17 | the status setter keeps the invariant: it emits exactly on change, the trail of statuses never repeats a value, and the backoff index stays in range |
| TokenMachine.ConnectInv | peer.js:40-81 | `connect` keeps the invariant |
| TokenMachine.ShutdownInv | peer.js:94-99 | `shutdown` keeps the invariant, whether `disconnect` throws or not |
| TokenMachine.ReceiveInv | peer.js:56-68 | handling an inbound frame keeps the invariant |
| TokenMachine.ApplyInv | peer.js:3-132 | every call or callback keeps the invariant |
| TokenMachine.RunInv | peer.js:3-140 | every run of calls and callbacks from a state satisfying the invariant ends in one |
| TokenMachine.ReachableInv | peer.js:3-140 | every state reached from the initial client by calls, writes of the token, the server template or `offline`, timers and callbacks of an existing socket keeps the backoff index within the array, a socket exactly once one was created, and a status trail without stutter ending at the current status |
| TokenMachine.SocketReachable | peer.js:40-81 | once a non-empty token is written, a `connect` while online opens a socket from the initial client and leaves it CONNECTING |
| TokenMachine.ConnectGate | peer.js:40-81 | a socket is opened exactly when token, not offline, online and DISCONNECTED all hold and the host accepts the URL; then the status is CONNECTING, no timer is pending and the URL is the template with the token; when the gate fails nothing changes |
| TokenMachine.RejectedUrlStalls | peer.js:40-48 | when `new WebSocket` throws, `connect` throws with the client CONNECTING, no timer and no new socket, and from there no `connect` or timer changes anything |
| TokenMachine.DisconnectThrowsWithoutSocket | peer.js:82-85 | `disconnect` returns normally exactly when a socket exists, then leaves DISCONNECTED; when it throws nothing changes |
| TokenMachine.BackoffStep | peer.js:110-126 | with a non-empty schedule and the index inside it, a change to DISCONNECTED schedules the reconnect after `reconnect[k]` and advances the index by at most one, staying in range; a change to CONNECTED resets it to 0; anything else keeps the index and the timer |
| TokenMachine.BackoffFollowsAttempts | peer.js:110-126 | when the index is where `n` disconnections in a row leave it, the next disconnection waits `reconnect[min(n, len-1)]` and leaves the index where `n + 1` leave it; CONNECTED puts it where none leave it; CONNECTING keeps it |
| TokenMachine.RunRetries | peer.js:40-55 | replaying `n` pairs of reconnect timer and socket close is `n` single attempts in a row |
| TokenMachine.FailedAttempts | peer.js:40-126 | after `n` failed reconnections in a row, starting `m` disconnections into the backoff, each has opened one socket, the client is DISCONNECTED with the reconnect pending, the index is where `m + n` disconnections leave it, and the pending reconnect waits `reconnect[min(m+n-1, len-1)]` |
| TokenMachine.StatusEmitsOnChange | peer.js:8-17 | assigning the status emits one event exactly when the value changes, with `oldValue` equal to the new value |
| TokenMachine.ErrorEmitsOnChange | peer.js:22-27 | the error setter changes nothing for an unchanged value; otherwise it emits exactly one `error` event to the listeners registered then, takes the value, and changes nothing else |
| TokenMachine.ShutdownSwitchesOff | peer.js:94-99 | `shutdown` sets `offline`, emits `shutdown` first, and leaves DISCONNECTED when it returns normally |
| TokenMachine.RestartResumes | peer.js:100-108 | after `restart` the one pending timer is the 1000 ms restart timer; when it fires online with a token set, the client is back on and opens a socket |
| TokenMachine.OfflineStaysOff | peer.js:70-72 | once offline with no restart timer pending, no run without `restart` and without the page writing `offline = false` opens a socket or clears `offline`, reconnect timers included |
| TokenMachine.ReceiveOutcomes | peer.js:56-68 | an unparsable frame changes nothing; one with `error` sets the error and switches the client off; any other is only emitted; with a socket the message is always emitted last |
| TokenPeer.Peer.constructor | peer.js:3-31 | the object starts as the initial client |
| TokenPeer.Peer.Emit | peer.js:33-35 | `emit` reaches the callbacks registered under the event's name |
| TokenPeer.Peer.On | peer.js:36-39 | `on` registers the callback |
| TokenPeer.Peer.SetStatus | peer.js:8-17 | the status setter together with the reset and reconnect listeners moves the object as `TokenMachine.SetStatus` |
| TokenPeer.Peer.SetError | peer.js:22-27 | the error setter moves the object as `TokenMachine.SetError`, which emits exactly on change (`TokenMachine.ErrorEmitsOnChange`) |
| TokenPeer.Peer.Socket | peer.js:40-55 | `socket()` sets CONNECTING and clears the timer, then opens the socket, or returns not-ok with no new socket when the host rejects the URL, as `TokenMachine.OpenSocket` |
| TokenPeer.Peer.Connect | peer.js:73-81 | `connect` moves the object as `TokenMachine.Connect` and returns not-ok exactly when `socket()` threw |
| TokenPeer.Peer.Disconnect | peer.js:82-85 | `disconnect` and whether it threw match `TokenMachine.Disconnect` |
| TokenPeer.Peer.Send | peer.js:86-93 | `send` appends the JSON text to the socket's frames only when a socket exists |
| TokenPeer.Peer.Shutdown | peer.js:94-99 | `shutdown` matches `TokenMachine.Shutdown`, including a throw from `disconnect` |
| TokenPeer.Peer.Restart | peer.js:100-108 | `restart` matches `TokenMachine.Restart`, and no timer is set when `shutdown` threw |
| TokenPeer.Peer.FireTimer | peer.js:104-107 | the pending timer's callback reconnects, or resumes and reconnects |
| TokenPeer.Peer.OnOpen | peer.js:50-52 | `onopen` sets CONNECTED |
| TokenPeer.Peer.OnClose | peer.js:53-55 | `onclose` sets DISCONNECTED |
| TokenPeer.Peer.OnMessage | peer.js:56-68 | `onmessage` moves the object as `TokenMachine.Receive` on the parsed frame |
| KeyMachine.MergeKeepsOtherKeys | peer/peer.js:121-133 | a key given to `configure` takes its value; every other key keeps the previous one |
| KeyMachine.ConfigureTwice | peer/peer.js:121-133 | two `configure` calls equal one with the overlaid keys |
| KeyMachine.ConfigureFirst | peer/peer.js:122-133 | the first `configure` merges over the defaults |
| KeyMachine.FrameRoundTrip | peer/peer.js:57-63 | under lawful JSON and cipher, every frame `send` writes decodes to the same message, with or without a password |
| KeyMachine.PlainFramesAcceptedUnderPassword | peer/peer.js:60-63 | a frame without the sealed prefix is parsed as plain JSON even when a password is set |
| KeyMachine.InitialInv | peer/peer.js:4-32 | the initial client satisfies the invariant |
| KeyMachine.EmitInv | peer/peer.js:34-36 | an emission other than a status event keeps the invariant |
| KeyMachine.SetStatusInv | peer/peer.js:9-18 | the status setter with the backoff listeners keeps the invariant |
| KeyMachine.ConnectInv | peer/peer.js:41-86 | `connect` keeps the invariant |
| KeyMachine.ShutdownInv | peer/peer.js:106-111 | `shutdown` keeps the invariant |
| KeyMachine.SendInv | peer/peer.js:94-105 | `send` keeps the invariant |
| KeyMachine.SignalInv | peer/peer.js:243-316 | the signalling listener keeps every cached session pointing at an existing RTC object |
| KeyMachine.ReceiveInv | peer/peer.js:57-73 | handling an inbound frame keeps the invariant |
| KeyMachine.StartTransferInv | peer/peer.js:171-176 | starting a transfer keeps the invariant |
| KeyMachine.LocalCandidateInv | peer/peer.js:217-223 | relaying a local candidate keeps the invariant |
| KeyMachine.FireTimerInv | peer/peer.js:151-153 | a timer firing keeps the invariant |
| KeyMachine.ApplyInv | peer/peer.js:4-162 | every call or callback keeps the invariant |
| KeyMachine.RunInv | peer/peer.js:4-316 | every run from a state satisfying the invariant ends in one |
| KeyMachine.ReachableInv | peer/peer.js:4-316 | every reachable state has prefs whenever it has a socket, a socket exactly when one was opened, sessions pointing at existing RTC objects, and a status trail without stutter |
| KeyMachine.ConnectGate | peer/peer.js:41-86 | a socket is opened exactly when prefs exist with an API key, the client is not offline, the host is online, the status is DISCONNECTED and the host accepts the URL; when the gate fails nothing changes |
| KeyMachine.RejectedUrlStalls | peer/peer.js:41-50 | when `new WebSocket` throws, the client is left CONNECTING with no timer and no new socket, and from there no `connect` or timer changes anything |
| KeyMachine.BackoffIndexInRange | peer/peer.js:141-156 | with a non-empty schedule that `configure` leaves alone, the backoff index stays in range; a change to DISCONNECTED schedules the reconnect after `reconnect[k]` and sets the index to `min(len-1, k+1)`; a change to CONNECTED resets it to 0; anything else keeps the index and the timer |
| KeyMachine.ShrunkScheduleReconnectsAtOnce | peer/peer.js:141-156 | after `configure` shortens the schedule to at most the backoff index, the next DISCONNECTED schedules the reconnect at 0 ms (an `undefined` timeout) and pulls the index back to the last entry |
| KeyMachine.ErrorEmitsOnChange | peer/peer.js:23-28 | the error setter changes nothing for an unchanged value; otherwise it emits exactly one `error` event to the listeners registered then, takes the value, and changes nothing else |
| KeyMachine.RestartLeavesOneTimer | peer/peer.js:112-120 | `restart` leaves exactly the 1000 ms restart timer pending, the client off and DISCONNECTED |
| KeyMachine.RestartResumes | peer/peer.js:112-120 | when the restart timer fires the client is back on with no timer pending; with prefs, an API key and the host online it is CONNECTING and opens one socket on the configured URL exactly when the host accepts it; otherwise it stays DISCONNECTED with no new socket |
| KeyMachine.StatusEmitsOnChange | peer/peer.js:9-18 | assigning the status emits one event, to the `status` listeners registered then, exactly when the value changes, with `oldValue` equal to the new value |
| KeyMachine.SignalFrame | peer/peer.js:243-316 | the signalling listener changes neither `offline`, the timer nor the sockets |
| KeyMachine.ReceiveKeepsOff | peer/peer.js:57-73 | an inbound frame keeps an offline client offline and opens no socket |
| KeyMachine.ApplyKeepsOff | peer/peer.js:75-76 | every input but `restart` keeps an offline client offline and opens no socket |
| KeyMachine.OfflineStaysOff | peer/peer.js:75-76 | once offline with no restart timer pending, no run without `restart` opens a socket or clears `offline` |
| KeyMachine.SignalIgnoresUnknown | peer/peer.js:304-315 | an answer or candidate for an unknown `fileID`, or not addressed here, changes nothing |
| KeyMachine.SignalAppliesKnown | peer/peer.js:304-315 | an answer addressed here for a cached session adds exactly `setRemoteDescription(answer)` on that session's RTC object, a candidate exactly `addIceCandidate(candidate)`, and nothing else changes |
| KeyMachine.OfferCreatesSession | peer/peer.js:244-248 | an offer addressed here caches a fresh RTC object under its `fileID` |
| KeyMachine.OnlyCloseOrFailureDropsSessions | peer/peer.js:206-215 | no input other than a channel close or a failed connection removes a cache entry; the timeout keeps it, and a completed transfer loses it only through the close event completion triggers |
| KeyMachine.ReceiveOutcomes | peer/peer.js:57-73 | an undecodable frame changes nothing; one with `error` sets the error, switches the client off and DISCONNECTED, and is still emitted last |
| KeyPeer.Peer.constructor | peer/peer.js:4-32 | the object starts as the initial client |
| KeyPeer.Peer.Emit | peer/peer.js:34-36 | `emit` reaches the callbacks registered under the event's name |
| KeyPeer.Peer.On | peer/peer.js:37-40 | `on` registers the callback |
| KeyPeer.Peer.Configure | peer/peer.js:121-133 | `configure` moves the object as `KeyMachine.Configure` |
| KeyPeer.Peer.SetStatus | peer/peer.js:9-18 | the status setter with the listeners of lines 141-156 moves the object as `KeyMachine.SetStatus` |
| KeyPeer.Peer.SetError | peer/peer.js:23-28 | the error setter moves the object as `KeyMachine.SetError`, which emits exactly on change (`KeyMachine.ErrorEmitsOnChange`) |
| KeyPeer.Peer.Socket | peer/peer.js:41-56 | `socket()` sets CONNECTING and clears the timer, then opens the socket, or returns not-ok with no new socket when the host rejects the URL, as `KeyMachine.OpenSocket` |
| KeyPeer.Peer.Connect | peer/peer.js:75-86 | `validate` and `connect` move the object as `KeyMachine.Connect`; they return normally exactly when prefs exist and either the gate fails or the host accepts the URL, so `validate` throws before the first `configure` |
| KeyPeer.Peer.Disconnect | peer/peer.js:87-93 | `disconnect` always sets DISCONNECTED |
| KeyPeer.Peer.Send | peer/peer.js:94-105 | `send` writes the JSON text, encrypted under a password, only when prefs and a socket exist |
| KeyPeer.Peer.Shutdown | peer/peer.js:106-111 | `shutdown` moves the object as `KeyMachine.Shutdown` |
| KeyPeer.Peer.Restart | peer/peer.js:112-120 | `restart` moves the object as `KeyMachine.Restart` |
| KeyPeer.Peer.FireTimer | peer/peer.js:116-119 | the pending timer's callback reconnects, or resumes and reconnects |
| KeyPeer.Peer.OnOpen | peer/peer.js:51-53 | `onopen` sets CONNECTED |
| KeyPeer.Peer.OnClose | peer/peer.js:54-56 | `onclose` sets DISCONNECTED |
| KeyPeer.Peer.Signal | peer/peer.js:243-316 | the offer/answer/candidate listener moves the object as `KeyMachine.Signal` |
| KeyPeer.Peer.OnMessage | peer/peer.js:57-73 | `onmessage` decrypts, parses, handles `error`, runs the signalling listener and emits, as `KeyMachine.Receive` |
| KeyPeer.Peer.Binary | peer/peer.js:164-236 | `peer.binary` caches a new RTC object, sends the `rtc-offer` with the size, and returns a sender armed at offset 0; without prefs it rejects at once and changes nothing |
| KeyPeer.Peer.LocalCandidate | peer/peer.js:217-223 | a discovered candidate is relayed; the final empty one is not |
| KeyPeer.Peer.DropSession | peer/peer.js:210-215 | a closed channel or failed connection closes the RTC object and removes its cache entry |
| KeyPeer.Peer.TimeOut | peer/peer.js:181-184 | the sender's timeout closes the RTC object and keeps the cache entry |
| Transfer.Slice | peer/peer.js:200 | a chunk is `data[offset .. min(offset+chunkSize, n))` |
| Transfer.NextOffset | peer/peer.js:198-204 | the offset advances by the chunk length, never past `n`, strictly while data remains and the chunk size is positive |
| Transfer.FlattenAppend | peer/peer.js:268 | concatenating chunk lists concatenates their bytes |
| Transfer.ChunksConcatenate | peer/peer.js:193-209 | the chunks the sender writes concatenate to the data |
| Transfer.ChunksShape | peer/peer.js:198-204 | there are `ceil(n/chunkSize)` chunks, each non-empty, all but the last exactly `chunkSize` long, the last holding the remainder |
| Transfer.TranscriptFrom | peer/peer.js:194-209 | from offset 0 the sender writes the preamble then one frame per chunk; from a later offset only chunks |
| Transfer.SenderTranscript | peer/peer.js:193-209 | a whole transfer writes the preamble once, then `ceil(n/chunkSize)` chunks concatenating to the data |
| Transfer.ThirtyFiveHundredBytes | peer/peer.js:131 | 3500 bytes at the default 1024 go as chunks of 1024, 1024, 1024 and 428 bytes |
| Transfer.ReceiverCompletesOnLastChunk | peer/peer.js:268-277 | fed the sender's chunks, the receiver's running size equals the data's length after the last chunk and after no earlier one |
| Transfer.Sender.constructor | peer/peer.js:177-193 | the sender starts at offset 0, nothing written, timeout armed, pending |
| Transfer.Sender.Failed | peer/peer.js:237-240 | a setup that threw leaves the promise rejected and no timer armed |
| Transfer.Sender.OnEvent | peer/peer.js:194-209 | every inbound event writes the frames of one step, advances the offset within `n`, re-arms the timeout while data remains, and otherwise cancels it and resolves; `Transfer.StepFollowsTranscript` turns these values into the transcript |
| Transfer.StepFollowsTranscript | peer/peer.js:194-209 | for a non-empty file and a fixed chunk size, the step `OnEvent` takes keeps `sent` followed by the transcript from the offset equal to the whole transcript, so from a fresh sender every sequence of events writes a prefix of `Transcript` |
| Transfer.Sender.OnTimeout | peer/peer.js:181-184 | an armed timeout closes the RTC object and rejects with a timeout, unless already settled |
| Transfer.Sender.OnClose | peer/peer.js:210-215 | a closed channel closes the RTC object and rejects, unless already settled |
| Transfer.Sender.OnError | peer/peer.js:216 | a channel error rejects, unless already settled |
| Transfer.Receiver.constructor | peer/peer.js:256-261 | the receiver starts with no info, no chunks and size 0 |
| Transfer.Receiver.OnMessage | peer/peer.js:262-280 | text merges into `info`; data is appended, `size` stays the sum of chunk lengths and is acknowledged; completion happens exactly when `size` equals the announced size, never after an overshoot |
| Background.BadgeIdentifiesStatus | background.js:32-42 | the badge text tells the three statuses apart, and `D` means DISCONNECTED |
| Background.MenuEnablement | background.js:140-164 | `restart` is enabled iff CONNECTED; the send-to menus iff CONNECTED with a peer known; `power` always; its title follows CONNECTED and DISCONNECTED and is kept while CONNECTING |
| Background.UpdateIdempotent | background.js:140-164 | running `update` again with the same status and count changes nothing |
| Background.Split | background.js:122 | splitting on `-` yields at least one part and no part contains `-` |
| Background.JoinSplit | background.js:122 | joining the parts of a split with `-` gives the id back |
| Background.SplitJoin | background.js:122 | splitting parts joined with `-` gives the parts back when none holds `-` |
| Background.ParseMenuIdRoundTrip | background.js:112-138 | a `context-peer` menu id parses to that context and peer; anything after a second `-` is dropped |
| Background.PlainIdsIgnored | background.js:121-137 | an id without `-` other than `power` and `restart` sends nothing |
| Background.RemoteActionAddressed | background.js:208 | only a `remote-action` addressed to the local id acts |
| Background.ClickActsAtTarget | background.js:124-135 | a click on `context-peer` makes that peer open the page, open the link or copy the selection, and nothing for another context |
| Background.ClickIgnoredElsewhere | background.js:208 | a remote action reaches no browser other than its target |
| Background.PresenceMembership | background.js:179-207 | after `whoami`/`peer` the sender's id is registered, after `shutdown` it is removed, and every other id keeps its membership |
| Background.PresenceIdempotent | background.js:179-207 | repeating a request leaves the registry as the first one did |
| Background.Handshake | background.js:171-177 | a whoami registers its sender and is answered by a `peer` reply that registers the answerer; replies are not answered; a goodbye removes the sender |
| Background.StorageEnables | background.js:273-279 | the client is resumed and connected iff `enabled` changes to true, and shut down iff it changes to false |
| Background.StorageReconnects | background.js:280-297 | a token, server or name change restarts the client iff a token is set and disconnects it otherwise; only a token change writes the token |
| Background.StorageRestartsTwice | background.js:280-297 | a token and a server change together restart the client twice |
| Background.ExecAllAppend | background.js:271-297 | running two lists of calls is running the first, then the second unless a call threw |
| Background.DisableWithoutSocketStops | background.js:277-288 | turning the extension off with no socket makes `shutdown` throw, so the listener stops with the client offline and the token unchanged |
| Background.NewTokenRestarts | background.js:280-284 | a new token with a socket open reaches the client and leaves it off, DISCONNECTED, with the 1000 ms restart timer |
| Background.Extension.constructor | background.js:11-19 | the page starts with the default prefs, no peers, the `D` badge and the initial menus |
| Background.Extension.OnStatus | background.js:32-42 | the status listeners set the badge, run `update`, and send `whoami` on CONNECTED |
| Background.Extension.OnShutdown | background.js:231-234 | the `shutdown` listener sends the goodbye with the local id |
| Background.Extension.OnMessage | background.js:169-230 | the `message` listener updates the registry as `Presence`, answers only `whoami`, emits `fake-status` and refreshes the menus, and performs a remote action addressed here |
| Background.Extension.OnMenuClick | background.js:112-138 | `power` stores the toggled `enabled`, `restart` restarts the client, `context-peer` sends the remote action, anything else does nothing |
| Background.Extension.OnStorageChanged | background.js:271-297 | the storage listener stores the new values, then runs `StorageCommands` on the client until a call throws |

## Left out

- **Browser objects.** WebSocket, RTCPeerConnection, data channels and ICE
  are not modelled; only the handles and events they produce are. An RTC
  object is a creation number. Three calls made on it are logged as
  `RtcCall` values: `setRemoteDescription`, `addIceCandidate` and `close`.
  `createDataChannel`, `createOffer`, `createAnswer` and
  `setLocalDescription` are not logged. The SDP content of offers, answers and candidates is an
  uninterpreted string.
- **Encryption and password setup.** `safe.encrypt`, `safe.decrypt` and
  `safe.password` are host functions. Only the decision whether to decrypt,
  and the round trip under assumed cipher laws (`KeyMachine.Lawful`), are
  modelled.
- **Asynchronous ordering.** Encryption in `send`, `createOffer` and
  `createAnswer` take effect at once in the model. No other event can
  interleave at those points.
- KeyPeer.Peer.OnMessage: handles each frame at once, in arrival order. The code awaits `safe.decrypt` for a sealed frame (peer/peer.js:61), so a plain frame that arrives later can be handled first; this needs asynchronous interleaving.
- TokenPeer.Peer.OnClose: models only the current socket. `socket()` closes an older socket, and that socket's `onclose` can still set DISCONNECTED later; this needs asynchronous interleaving.
- KeyPeer.Peer.OnClose: models only the current socket, for the same reason.
- **Real time.** Timers and `navigator.onLine` are a pending `Timer` field
  and a boolean argument. Logging (`peer.log`, `console`) is not modelled.
- **Transfer progress.** `progress` is a floating-point percentage and is
  not modelled.
- Transfer.Receiver.OnMessage: receives text already parsed. An empty text is not ignored, and a text that fails to parse does not throw.
- **`chunkSize`.** It is a `nat`. With 0 the sender makes no progress, as
  the code does. Negative values of JavaScript `slice` are not modelled.
- Transfer.StepFollowsTranscript: leaves out the empty file. Its sender writes the preamble again on every event, because the offset stays 0 (peer/peer.js:195-197), so what it sends is no prefix of one fixed transcript.
- KeyMachine.BackoffIndexInRange: states one transition only. No range is claimed over whole runs, because `configure` can shorten the schedule below the index; `KeyMachine.ShrunkScheduleReconnectsAtOnce` states what happens then.
- Relay.ReplaceFirst: does not interpret `$` patterns in the replacement string.
- KeyPeer.Peer.Binary: does not model a rejected `createOffer` (peer/peer.js:235), nor the `abort` signal other than through `Transfer.Sender.OnClose`.
- **`fileID`.** It comes from `Math.random` and is a parameter.
- **`KeyMachine.Schedule`.** It reads an empty schedule before the first
  `configure`. No socket exists then, so no reconnect listener can fire.
- **Chrome APIs.** The notifications, the tabs, storage writes and the
  clipboard fallback are logged as `Background.Action` values, or not
  modelled:
  - the notification after copying;
  - `browserAction.onClicked`;
  - the `error` notification;
  - the initial storage load with id and name generation
    (background.js:243-270).
- Background.Extension.OnStorageChanged: does not model the menu visibility updates for `contexts` (background.js:298-311). It treats only keys whose new value is present.
- **Listener dispatch.** `Background.Extension.OnStatus` and the other
  listener methods are called by the host with the event. The model does not
  dispatch `emit` to them: an emission records which callbacks it reached.
- **The data pages.** `data/file/index.js` and `data/options/index.js` are
  not part of this model. They are form and file-picker code.
