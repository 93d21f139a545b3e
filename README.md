# WhatsApp panel session lifecycle, modelled in Dafny

The panel runs several WhatsApp sessions side by side. Each session has a
handle (`whatsapp.Client`) filed in a registry (`whatsapp.Manager`) under a
generated id. The handle wraps a whatsmeow protocol client and keeps one
`Connected` flag. A handle is created for a pairing request and goes away
on four paths:

- the pairing handler removes it when a step fails;
- the event relay removes it on logout;
- a deferred cleanup removes it when it has not connected after two minutes;
- a caller removes it explicitly.

Beside the registry there are:

- a secondary session registry (`whatsapp.SessionManager`);
- the persisted session record (`models.Session`);
- the statistics event handler (`whatsapp.EventHandler`), which turns protocol events into storage calls;
- the two HTTP handlers that drive pairing (`GenerateQRCode`) and report connection status (`CheckConnection`).

The model is sequential Dafny. The registry, the handles, the session
records and the statistics handler are classes whose methods update their
fields. The two HTTP handlers are module-level methods over the registry,
the disk and the storage log. Each contract states what an operation
changes and says what it leaves alone on the objects it may touch.
Goroutines become methods that the caller invokes when the task would run:

- `Client.Relay` is the event callback. When its result says so, the caller runs `Manager.RemoveClient`.
- `Manager.CleanupCheck` is the body of the cleanup timer.
- `ForwardQR` is the QR forwarder. `GenerateQRCode` runs it over the raw stream and then performs its single read through `ConsumerRead`.

Deadlines are explicit inputs:

- how many sends the forwarder completes before its context is done;
- whether the pairing handler's deadline beats its read of the QR channel.

The protocol library is an object whose answers are fixed in advance:

- whether connect fails;
- the successive `IsConnected` answers;
- the raw QR stream;
- the stored device identity.

It counts the connect, probe and disconnect calls made on it. Storage is a
log of the calls made on the storage interface. The session files on disk
are a set of paths.

Modules, one per source file or collaborator:

| module | file | models |
|---|---|---|
| `Common` | common.dfy | Option and Result types, Go's `int64` with explicit wrap-around |
| `Protocol` | protocol.dfy | whatsmeow as seen by the core: events, addresses, raw QR items, a scripted client |
| `Storage` | storage.dfy | `storage.DatabaseInterface` as a call log |
| `SessionFiles` | session_files.dfy | the `storage/sessions/<id>.db` files |
| `Models` | models_session.dfy | `internal/models/session.go` |
| `WhatsappClient` | whatsapp_client.dfy | `internal/services/whatsapp/client.go` |
| `WhatsappSession` | whatsapp_session.dfy | `internal/services/whatsapp/session.go` |
| `StatsHandler` | whatsapp_handler.dfy | `internal/services/whatsapp/handler.go` |
| `SessionHandlers` | handlers_session.dfy | `internal/handlers/session.go` (GenerateQRCode, CheckConnection) |

In these places the code does something other than what its surrounding
comments and structure evidently intend. The model follows the code:

- **Leaked session file.** The cleanup comment (`client.go:134-136`) says an abandoned session's file is deleted. `NewClient` creates `storage/sessions/<id>.db` (`client.go:60-66`). The pairing handler's QR-channel and encoding failure paths (`handlers/session.go:37`, `handlers/session.go:62`) remove the handle through `RemoveClient` (`client.go:123-132`), which never deletes that file. The deferred check fires later, finds the id gone (`client.go:147`) and does nothing, so the file stays. `SessionHandlers.FailedQRChannelKeepsFile` proves this for the QR-channel path.
- **Deadline path is a race.** On the deadline path (`handlers/session.go:77`) the cleanup timer, started inside `NewClient` (`client.go:116`), is due before the handler's deadline (`handlers/session.go:30`). If the cleanup sees the unconnected handle first, it deletes the file (`SessionHandlers.CleanupBeforeHandlerRemovesFile`). If the handler removes the handle first, the file leaks as above.
- **Library client left connected.** On the encoding failure path (`handlers/session.go:62`), the background connect (`handlers/session.go:45-53`) has already called the library connect. The removal then skips the library disconnect, because the handle's flag was never set (`client.go:216-221`), and the cleanup later finds the id gone. `SessionHandlers.GenerateQRCode` states that the library client was connected once and not disconnected. On the deadline path the outcome depends on the same race as above: a cleanup that wins forces the library disconnect (`client.go:159-161`).

Notes on how the model treats the code as written:

- **Failed connect.** The pairing handler's background connect only logs its error (`handlers/session.go:49-52`), so a failed connect does not tear the handle down at once. The teardown still comes. If no code was sent, the handle ends on the deadline path. If the page was answered, the cleanup timer removes the unconnected handle and deletes its file (`client.go:147-167`); `SessionHandlers.UnpairedHandleIsCleanedUp` proves this. What differs is only when the teardown happens and what the caller sees. `SessionHandlers.ConnectInBackground` leaves the registry alone, and `Client.Connect` itself never removes anything.
- **Ids.** The code files the handle by plain map assignment under `uuid.New()`. The model does not assume the uuid is fresh. `Manager.NewClient` states the overwrite, and grows the registry by one only when the id was not already filed.
- **Forwarder close.** The forwarder closes the outward channel on every exit (`client.go:269`): when the raw stream ends and when the deadline cuts a send short. `ForwardQR` promises `closed` in both cases.
- **Relay attached before filing.** The event callback is attached (`client.go:90`) before the handle is filed (`client.go:111-113`). The model's `Manager.NewClient` files the handle before any event can reach `Client.Relay`; see the line under "## Left out".

## Model

| member | source | states |
|---|---|---|
| Common.ToInt64 | whatsapp-panel/internal/models/session.go:26 | the result is the unique int64 congruent to the value modulo 2^64, and equals it when it fits |
| Common.Inc64 | whatsapp-panel/internal/services/whatsapp/handler.go:49 | Go's increment of an int64 is the wrapped successor |
| Common.Inc64OfWrapped | whatsapp-panel/internal/services/whatsapp/handler.go:49 | incrementing a counter that holds n wrapped gives n+1 wrapped, so an int64 counter counts modulo 2^64 |
| Protocol.WAClient.Connect | whatsapp-panel/internal/services/whatsapp/client.go:186 | the library connect reports its scripted error, counts one call and changes nothing else |
| Protocol.WAClient.IsConnected | whatsapp-panel/internal/services/whatsapp/client.go:195 | a probe answers the next scripted answer (false once the script is used up) and consumes it |
| Protocol.WAClient.Disconnect | whatsapp-panel/internal/services/whatsapp/client.go:221 | the library disconnect counts one call and changes nothing else |
| Protocol.WAClient.GetQRChannel | whatsapp-panel/internal/services/whatsapp/client.go:259-263 | the raw QR channel is the scripted error or the scripted stream |
| Storage.Database.SaveSession | whatsapp-panel/internal/storage/database.go:6 | one SaveSession call with exactly these arguments is appended to the log; the error is the oracle's |
| Storage.Database.UpdateSessionStats | whatsapp-panel/internal/storage/database.go:7 | one UpdateSessionStats call with exactly these arguments is appended to the log |
| Storage.Database.DeleteSession | whatsapp-panel/internal/storage/database.go:9 | one DeleteSession call for this id is appended to the log |
| SessionFiles.SessionPath | whatsapp-panel/internal/services/whatsapp/client.go:55-60 | the session file is `storage/sessions/<id>.db`, and the id can be read back from its middle |
| SessionFiles.SessionPathInjective | whatsapp-panel/internal/services/whatsapp/client.go:60 | distinct ids never share a session file |
| SessionFiles.Disk.Create | whatsapp-panel/internal/services/whatsapp/client.go:56-66 | creating the store adds exactly the session file |
| SessionFiles.Disk.Remove | whatsapp-panel/internal/services/whatsapp/client.go:163-167 | removal fails exactly on a fault or a missing file and then changes nothing; otherwise exactly that file goes |
| Models.ActiveStatus | whatsapp-panel/internal/models/session.go:82-84 | only a named status can be active; "pending", "disconnected" and "logged_out" are not |
| Models.FormatPhone | whatsapp-panel/internal/models/session.go:87-92 | never empty: the phone itself, or "Não disponível" when there is none |
| Models.DisplayName | whatsapp-panel/internal/models/session.go:95-100 | never empty: the name when there is one, otherwise "WhatsApp (" + formatted phone + ")" |
| Models.LabelPhone | whatsapp-panel/internal/models/session.go:99 | a phone read back from a label is exactly what sits between "WhatsApp (" and ")": the label is prefix + phone + suffix |
| Models.LabelCarriesPhone | whatsapp-panel/internal/models/session.go:95-100 | the label of an unnamed session parses back to exactly its formatted phone |
| Models.Session.NewSession | whatsapp-panel/internal/models/session.go:41-59 | the new record has the given identity, status "pending", all-zero statistics and three equal timestamps, and is not active |
| Models.Session.IsActive | whatsapp-panel/internal/models/session.go:82-84 | an active record is in one of the named statuses, and a pending record is not active |
| Models.Session.FormatPhoneNumber | whatsapp-panel/internal/models/session.go:87-92 | the record's phone, or the placeholder when it is empty; never empty |
| Models.Session.GetDisplayName | whatsapp-panel/internal/models/session.go:95-100 | the name when set; otherwise a label from which the formatted phone parses back |
| Models.Session.UpdateStats | whatsapp-panel/internal/models/session.go:62-67 | sets contacts, groups and conversations exactly, keeps the message count and every other field, and stamps `lastActive` |
| Models.Session.IncrementMessageCount | whatsapp-panel/internal/models/session.go:70-73 | the message count goes up by one (wrapping at the int64 maximum), other counts and fields stay, `lastActive` is stamped |
| Models.Session.UpdateStatus | whatsapp-panel/internal/models/session.go:76-84 | any string becomes the status unvalidated; the record is active afterwards iff it is "connected" or "paired"; stats, name and the rest stay |
| WhatsappClient.FirstUp | whatsapp-panel/internal/services/whatsapp/client.go:193-200 | the index of the first successful probe among the first `tries`, with every earlier probe failed; none means every probe in range failed |
| WhatsappClient.Forced | whatsapp-panel/internal/services/whatsapp/client.go:91-108 | exactly Connected, Disconnected and LoggedOut force the flag, and only Connected forces it on |
| WhatsappClient.RelayFlag | whatsapp-panel/internal/services/whatsapp/client.go:91-108 | Connected forces the flag on, Disconnected and LoggedOut force it off, every other event leaves it |
| WhatsappClient.RelayAll | whatsapp-panel/internal/services/whatsapp/client.go:90-109 | a stream with no connectivity event leaves the flag; a set flag stays set through a stream with no Disconnected or LoggedOut |
| WhatsappClient.RelayAllSnoc | whatsapp-panel/internal/services/whatsapp/client.go:90-109 | relaying a stream and then one more event is relaying that event after the stream |
| WhatsappClient.RelayAllIsLastForced | whatsapp-panel/internal/services/whatsapp/client.go:90-109 | after any stream of events the flag is the verdict of the last Connected/Disconnected/LoggedOut event, or its starting value if there was none |
| WhatsappClient.Codes | whatsapp-panel/internal/services/whatsapp/client.go:270-283 | the forwarded codes are never more than the raw items |
| WhatsappClient.CodesAppend | whatsapp-panel/internal/services/whatsapp/client.go:270-283 | forwarding distributes over concatenation of raw streams |
| WhatsappClient.PositionsFrom | whatsapp-panel/internal/services/whatsapp/client.go:270-272 | every recorded position at or after `i` is in the stream and holds a "code" item |
| WhatsappClient.PositionsIncreasing | whatsapp-panel/internal/services/whatsapp/client.go:270 | the recorded positions are strictly increasing, so stream order is kept |
| WhatsappClient.PositionsCover | whatsapp-panel/internal/services/whatsapp/client.go:272 | every "code" item at or after `i` is recorded, so no code is dropped |
| WhatsappClient.PositionsCarryCodes | whatsapp-panel/internal/services/whatsapp/client.go:272-276 | the k-th forwarded code is the code of the k-th recorded item |
| WhatsappClient.CodesAreOrderedSubsequence | whatsapp-panel/internal/services/whatsapp/client.go:268-285 | the forwarded codes are exactly the "code" items' codes, one each, in stream order; other kinds are dropped |
| WhatsappClient.Take | whatsapp-panel/internal/services/whatsapp/client.go:275-280 | a prefix of the codes of length min(n, all) |
| WhatsappClient.ForwardQR | whatsapp-panel/internal/services/whatsapp/client.go:268-285 | the outward channel is closed on every exit; it carries the "code" payloads in order up to the sends the deadline allows; the task ends by cancellation iff a code was still pending |
| WhatsappClient.ConsumerRead | whatsapp-panel/internal/handlers/session.go:56-81 | a deadline that fires first wins; a read from a closed channel never waits for the deadline; a received code is the first one sent, and a closed channel means nothing was sent |
| WhatsappClient.PositionsFromStartAtFirstCode | whatsapp-panel/internal/services/whatsapp/client.go:270-272 | no "code" item precedes the first recorded position |
| WhatsappClient.FirstCodeItem | whatsapp-panel/internal/services/whatsapp/client.go:270-276 | a stream with a code has a first "code" item, whose code is the first forwarded one |
| WhatsappClient.ConsumerReadsFirstCode | whatsapp-panel/internal/handlers/session.go:56-57 | a read that beats the deadline gets the stream's first code iff the forwarder sent one; it finds the channel closed iff the stream had no code or no send completed |
| WhatsappClient.Client.constructor | whatsapp-panel/internal/services/whatsapp/client.go:81-87 | a new handle carries its id and library client and is not connected |
| WhatsappClient.Client.SetConnected | whatsapp-panel/internal/services/whatsapp/client.go:229-243 | the flag becomes `status`; a change is reported iff the old value differed |
| WhatsappClient.Client.Connect | whatsapp-panel/internal/services/whatsapp/client.go:173-211 | already connected: success with no library call. Connect error: ConnectFailed, flag unchanged, no probe. Otherwise at most 10 probes: the flag is set iff one succeeds, probing stops at the first success; if none succeeds, ConnectTimeout with the flag untouched |
| WhatsappClient.Client.Disconnect | whatsapp-panel/internal/services/whatsapp/client.go:214-226 | the library disconnect is called iff the flag was set; the flag is clear afterwards in every case |
| WhatsappClient.Client.Relay | whatsapp-panel/internal/services/whatsapp/client.go:90-109 | the flag after an event is RelayFlag's; a background removal is spawned iff the event is LoggedOut |
| WhatsappClient.Client.GetQRChannel | whatsapp-panel/internal/services/whatsapp/client.go:246-263 | no library client: "não inicializado" error; library error: passed through; otherwise the raw stream the forwarder consumes |
| WhatsappClient.Client.SendTextMessage | whatsapp-panel/internal/services/whatsapp/client.go:291-311 | refused when not connected; otherwise an invalid address or a send failure is reported, and success delivers the text to `<phone>@s.whatsapp.net` |
| WhatsappClient.Manager.constructor | whatsapp-panel/internal/services/whatsapp/client.go:46-51 | the registry starts empty |
| WhatsappClient.Manager.NewClient | whatsapp-panel/internal/services/whatsapp/client.go:53-120 | a directory or store failure returns that error with registry and disk unchanged; success files exactly one fresh, unconnected handle under the id, leaves other entries alone, creates its session file and a library client with the given behaviour |
| WhatsappClient.Manager.RemoveClient | whatsapp-panel/internal/services/whatsapp/client.go:123-132 | afterwards the id is absent and every other entry is unchanged; a filed handle is disconnected first; an absent id changes nothing; the removed handle's library client keeps its script and its other counters |
| WhatsappClient.Manager.CleanupCheck | whatsapp-panel/internal/services/whatsapp/client.go:137-168 | removes iff the id is filed and not connected; a removal forces one library disconnect and deletes the session file (a failed deletion changes nothing else), leaving the library client's script and other counters alone; otherwise nothing changes |
| WhatsappClient.SetConnectedTwice | whatsapp-panel/internal/services/whatsapp/client.go:229-243 | repeating `setConnected` with the same value reports no second change |
| WhatsappClient.ConnectTwice | whatsapp-panel/internal/services/whatsapp/client.go:175-181 | after a successful connect, connecting again succeeds without calling the library |
| WhatsappClient.RemoveClientTwice | whatsapp-panel/internal/services/whatsapp/client.go:123-132 | removing twice has exactly the effect of removing once |
| WhatsappClient.LogoutThenRemove | whatsapp-panel/internal/services/whatsapp/client.go:98-101 | a logout followed by the removal it spawns leaves the id absent, without a library disconnect, since the flag is already clear |
| WhatsappClient.ConnectedSurvivesCleanup | whatsapp-panel/internal/services/whatsapp/client.go:92-94 | a handle that has seen Connected is not removed by the cleanup, which then changes nothing |
| WhatsappSession.Session.constructor | whatsapp-panel/internal/services/whatsapp/session.go:37-41 | the session's id is its client's id, with zero statistics and the given activity time |
| WhatsappSession.Session.UpdateActivity | whatsapp-panel/internal/services/whatsapp/session.go:68-72 | only the activity time changes |
| WhatsappSession.Session.UpdateStats | whatsapp-panel/internal/services/whatsapp/session.go:75-79 | the statistics are replaced wholesale; the activity time stays |
| WhatsappSession.Session.GetStats | whatsapp-panel/internal/services/whatsapp/session.go:82-86 | returns the stored statistics |
| WhatsappSession.SessionManager.constructor | whatsapp-panel/internal/services/whatsapp/session.go:26-30 | the session map starts empty |
| WhatsappSession.SessionManager.CreateSession | whatsapp-panel/internal/services/whatsapp/session.go:33-45 | maps the client's id to a fresh session of that client, overwriting any previous one and leaving other keys alone |
| WhatsappSession.SessionManager.GetSession | whatsapp-panel/internal/services/whatsapp/session.go:48-54 | found iff the id is filed, and then the filed session; the map is not touched |
| WhatsappSession.SessionManager.RemoveSession | whatsapp-panel/internal/services/whatsapp/session.go:57-65 | afterwards the id is absent and other keys stay; a filed session's client is disconnected and its library client otherwise untouched; an absent id changes nothing |
| WhatsappSession.CreateThenRemove | whatsapp-panel/internal/services/whatsapp/session.go:43-63 | after create then remove on the same id, lookup reports not found |
| WhatsappSession.RemoveTwice | whatsapp-panel/internal/services/whatsapp/session.go:57-65 | removing twice has exactly the effect of removing once |
| WhatsappSession.StatsRoundTrip | whatsapp-panel/internal/services/whatsapp/session.go:75-86 | statistics read back are the statistics last written |
| StatsHandler.Step | whatsapp-panel/internal/services/whatsapp/handler.go:29-62 | one event never changes contacts or groups; only a Message changes the counters, by one int64 increment; at most one storage call, and none exactly for the events the switch does not handle |
| StatsHandler.Run | whatsapp-panel/internal/services/whatsapp/handler.go:29-62 | over a stream, contacts and groups are unchanged and there is at most one storage call per event |
| StatsHandler.CountsAfter | whatsapp-panel/internal/services/whatsapp/handler.go:47-52 | the counts n messages report after m earlier ones: m+1, ..., m+n, each wrapped to int64 |
| StatsHandler.StatsUpdatesAppend | whatsapp-panel/internal/services/whatsapp/handler.go:64-71 | the statistics updates of a concatenated log are those of each part in order |
| StatsHandler.CountsAfterCons | whatsapp-panel/internal/services/whatsapp/handler.go:49 | the counts after m messages start with m+1 and go on as the counts after m+1 |
| StatsHandler.RunCounters | whatsapp-panel/internal/services/whatsapp/handler.go:29-62 | over any stream of events, contacts and groups never change and the message count is the number of Message events, in int64 |
| StatsHandler.RunStatsUpdates | whatsapp-panel/internal/services/whatsapp/handler.go:47-52 | over any stream, the k-th statistics update carries the count just after the k-th message, so one update per message and in order |
| StatsHandler.RunStaysAboutSession | whatsapp-panel/internal/services/whatsapp/handler.go:29-71 | every storage call a stream issues is a save, update or delete of this session under the "WhatsApp" name, with zero contacts and groups |
| StatsHandler.EventHandler.constructor | whatsapp-panel/internal/services/whatsapp/handler.go:22-27 | a new handler has zero message count, contacts and groups |
| StatsHandler.EventHandler.Handle | whatsapp-panel/internal/services/whatsapp/handler.go:29-62 | Connected saves with empty address and phone; PairSuccess saves the address and its user part; Message adds one to the count and then issues one update carrying the new count; LoggedOut issues one delete; every other event issues nothing. Contacts and groups never change, and no storage error stops the handler |
| StatsHandler.EventHandler.UpdateStats | whatsapp-panel/internal/services/whatsapp/handler.go:64-71 | one statistics call with the current contacts, groups and the message count in the conversations slot |
| SessionHandlers.GenerateQRCode | whatsapp-panel/internal/handlers/session.go:18-82 | a creation failure answers 500 with registry and disk untouched. Once created, the handle is unconnected; its library client is fresh, connected once by the background connect when the QR channel opened, never probed and never disconnected; its session file stays on disk on every path. A QR channel failure (500), a deadline (408) or an encoding failure (500) removes the handle. Success keeps it filed and answers with its id and the stream's first code, read through the forwarder; the empty code when no code was sent |
| SessionHandlers.FailedQRChannelKeepsFile | whatsapp-panel/internal/handlers/session.go:34-42 | after a pairing whose QR channel fails, followed by the deferred cleanup, the id is gone but its session file remains |
| SessionHandlers.UnpairedHandleIsCleanedUp | whatsapp-panel/internal/services/whatsapp/client.go:134-167 | a pairing answered with a QR page whose handle never connects is removed by the deferred cleanup, and its session file is deleted |
| SessionHandlers.CleanupBeforeHandlerRemovesFile | whatsapp-panel/internal/services/whatsapp/client.go:116-168 | a cleanup that fires while a new handle is still unconnected removes it and deletes its session file |
| SessionHandlers.ConnectInBackground | whatsapp-panel/internal/handlers/session.go:45-53 | the background connect calls the library connect once; its error touches neither registry nor flag, and the probe script is left alone |
| SessionHandlers.CheckConnection | whatsapp-panel/internal/handlers/session.go:85-123 | empty id: 400; unknown id: 404; neither saves. Otherwise 200 with the handle's flag, and a save with the identity's address and user part iff connected and paired; a save error does not change the answer |

## Left out

- Logging. Every `log.Printf` and `fmt.Printf` of the core is omitted. The only thing the core derives from a log line is the change report of `setConnected`, which `Client.SetConnected` returns as `changed`.
- Goroutines, mutexes and `context`. Their effects are sequentialised as described above. The `go m.RemoveClient`, the cleanup timer and the QR forwarder have no interleavings of their own.
- Unlocked reads of `Connected`, at `client.go:147`, `client.go:292` and `handlers/session.go:105`. They race with the relay, and a sequential model gives each read the current value.
- The forwarder's one-slot buffer and the nondeterminism of its `select`. Both are summed up by `sendsBeforeDone`, the number of sends that win against the deadline.
- `time.Sleep` and the clock. `Connect`'s one-second pause between probes, the cleanup's two-minute sleep and the pairing request's two-minute deadline are not modelled. The probes run in `Connect`'s loop. `CleanupCheck` runs wherever a caller puts it, so a scenario chooses the order of the cleanup and the handler's removal: `FailedQRChannelKeepsFile` runs it after the handler, `CleanupBeforeHandlerRemovesFile` before. The clock readings of the session record are the caller's `now`.
- uuid generation. It is the `id` of `ClientEnv`.
- Filesystem errors of `os.MkdirAll` and the store. They are the `dirError` and `storeError` of `ClientEnv`.
- The whatsmeow client. Its behaviour is scripted in `Protocol.Behaviour`. `JID.String()` is the `text` field of `Protocol.JID`, and `types.ParseJID` and `SendMessage` are the `parseFails` and `sendFails` inputs of `SendTextMessage`.
- `qrcode.Encode` and base64. The encoder's verdict is an input of `GenerateQRCode`. The page carries the code the image would be rendered from.
- The SQLite storage implementation, `GetAllSessions` and `Close`. Storage is only the log of calls on its interface. `GetAllSessions` and `Close` appear in the call type, but no core operation issues them.
- HTTP, the Gin context, templates, the web client and the command-line tools. Responses are a datatype.
- Client.Connect, Client.Disconnect: they require a library client. The code reaches it unguarded once the flag check lets it through (`client.go:186`, `client.go:221`). Every handle comes from `NewClient`, which always files a handle holding the library client it has just made (`client.go:74`, `client.go:81-87`).
- WhatsappSession.SessionManager.RemoveSession: requires that a filed session's client has a library client, since it may disconnect it. Its clients come from `NewClient` as above.
- WhatsappClient.Manager.NewClient: the event callback is attached before the handle is filed (`client.go:90`, `client.go:111`). In the model, no event can reach `Client.Relay` before `NewClient` returns. The library delivers no event before it connects, and the connect needs the handle `NewClient` returns.
- SessionHandlers.GenerateQRCode: the background connect runs to completion inside the handler, before the QR read. In the original it is a goroutine started one second in, which may finish after the handler returns on a fast success path.
- SessionHandlers.GenerateQRCode: whether the QR encoder accepts the empty code that a closed channel yields is the encoder's business. It is the `encodeError` input, so a 200 page with an empty code may be unreachable in practice.
- Error detail of the library's connect and send failures (`client.go:189`, `client.go:299`, `client.go:308`) and the message texts of those errors. `ConnectError` and `SendError` name the failure only.
- WhatsappClient.Manager.RemoveClient: is framed to the removed handle and its library client. It relies on the registry invariant that no two entries share a library client.
- StatsHandler.EventHandler.UpdateStats: the message count is passed in the `conversations` slot, as `handler.go:65-70` does. `int(...)` of the int64 count is the identity on the 64-bit platforms the panel targets.
- Models.Session.UpdateStats: the counts are Go `int`, modelled as 64-bit like `int64`. No caller in the core passes values outside that range.
