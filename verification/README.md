# A verified model of the anytls session layer

AnyTLS multiplexes proxy streams over one TLS connection. A client session opens streams, buffers its first
frames, and reshapes its writes with a padding scheme that splits payload and injects waste frames; the server
decodes, drops the waste, and hands each stream's bytes to a synchronous pipe. Sessions are pooled and reused.
This project models that layer, with the padding engine, the pipe and its deadlines, the session pool, and two
smaller machines of the server, the traffic counter and the failed-login limiter; and proves what they keep.

`dafny verify dfyconfig.toml` checks everything.

## How it is built

Whatever can interleave is a machine of small steps with labelled actions, total in every state, and the
theorems quantify over every sequence of actions. Objects whose methods update fields are classes whose methods
are proved against the functions the theorems are about.

| module | what it models |
|---|---|
| `Bytes`, `Text` | byte strings, splitting, decimal numbers, the `key=value` settings text |
| `Frames` | header layout, encoder, and the decoder with the reading discipline of the receive loop |
| `Scheme`, `Padder` | padding schemes and their draws; `writeConn` as the class `SessionWriter` and as the shape of its writes |
| `Channel` | one direction of the connection: writer, bytes under way, decoder |
| `SessionSpec` | one endpoint as a value: every operation of `Session` and `Stream`, and the machine of their steps |
| `Lifecycle`, `Logs`, `SynOrder` | what every run of one endpoint keeps: close discipline, wire logs, SYN order |
| `Duties`, `Watchers` | what every run of one endpoint must do: obey, answer, send its FIN, close, arm the SYNACK watcher |
| `SessionObject`, `Reader` | `Session` and `Stream` as classes, the receive loop over a connection read in pieces |
| `World` | client and server joined by two channels; what arrives at the server |
| `Handshake`, `Delivery` | what both sides come to: the version in force, the FIN heard, the answer to each open; everything can arrive |
| `Downlink`, `EarlyLoss` | what arrives at the client, exactly, and a run in which data is lost |
| `IdleList`, `PoolRuns`, `PoolDiscipline` | the idle list and the class `Client`; the pool as a concurrent machine over whole sessions, and when it leaks none |
| `Pipe`, `PipeProgress`, `Deadline` | `io_pipe.go` and `deadline.go` as small-step concurrent machines |
| `RateLimit` | the failed-login limiter |
| `Traffic`, `TrafficRuns`, `TrafficOrder` | the counter and its file, the counter's small-step runs, and which of them conserve |
| `Convergence` | scheme negotiation between a client process and its server |

The path from bytes to streams is one chain. `Padder` shows that a padded call is payload then whole waste
frames; `Channel` lifts this to every run; `World` puts an endpoint on each side of two channels and concludes
that streams arrive intact; `Downlink` says what arrives on the way back. `SessionObject` ties the classes to the
same endpoint functions, and its `ReceivedIsARun` makes the receive loop a run of the same machine. `Duties` says what
such a run must do, as a function of the frames acted on; `Handshake` carries that over to two parties, each of whose
parts in a common run is such a run (`Handshake.EndpointsRun`).

## What the code does not promise after all

Each of these is a property one would expect; each fails for a stated input or run, and the condition under which it
holds is proved.

- A `Stream.Write` of more than 65535 bytes does not arrive whole (`Frames.DataFrameDeliversIff`).
- A scheme size above 65535 can make the receiver lose the frame boundary (`Padder.WasteBoundaryIff`,
  `Padder.CallBoundaryIff`), and does so on
  the first write of a session under a scheme like `1=70000-70000` (`Padder.OversizedWasteExample`).
- A SYN that the receive loop has read when the session closes registers a stream that nobody will close
  (`Lifecycle.StrandedStreamIff`, with a run from a new session in `Lifecycle.StrandedRun`).
- Data that a server sends after a SYN and before the client has registered the stream is dropped
  (`EarlyLoss.EarlyDataIsLost`), and nothing else is (`Downlink.DrainedDownlinkIff`). A server that writes to a stream
  only after bytes of it have come, as the one of this repository does by reading the address first
  (`internal/server/handler.go:129`), excludes it (`Downlink.DisciplineLosesNothing`).
- A stream that dies before `CreateStream` has installed its hook leaves its session out of the pool for good
  (`PoolRuns.ReusedSessionLeaks`); nothing else does (`PoolRuns.PoolLease`). A peer that ends or answers a stream only
  after hearing from it excludes it (`PoolDiscipline.NoSessionLeaks`).
- `Client.Close` reaches exactly the sessions made before it (`PoolRuns.TakenIff`): a `CreateStream` that is dialling
  makes one that it misses (`PoolRuns.LateSessionStaysOpen`), left to the end of its own stream.
- SYN ids stay in order on the wire exactly if each SYN finds all lower ones written (`SynOrder.SynInOrderIff`).
  Overlapping opens break that (`SynOrder.OverlappingOpensSwap`); the pool never lets two opens of one session overlap
  (`PoolRuns.SynsInOrder`).
- An `Add` is lost exactly if a snapshot drops its cell between lookup and addition
  (`TrafficOrder.AddReachesCounterIff`, `TrafficRuns.AddIsLost`).
- A restart loses or repeats traffic exactly if what was acknowledged since the last save differs from what was added
  since or under way then (`TrafficOrder.RestartAfterSaveIff`; runs in `TrafficOrder.RestartLoses` and
  `TrafficOrder.RestartRepeats`). `Shutdown` saves before connections have ended,
  `internal/server/server.go:188-199`. Runs in which snapshots wait for the `Add`s under way and restarts follow a
  save at rest conserve everything (`TrafficOrder.OrderlyRunsConserve`).
- A cleanup of the limiter matters exactly if a failure hits an expired ban that nobody has looked at
  (`RateLimit.CleanupBeforeFailureVisibleIff`, `RateLimit.CleanupCanBeSeen`). The server looks first,
  `internal/server/handler.go:36`, but sets no time limit between that look and the failure. If the failure comes
  within 5 min of the look, no answer depends on a cleanup (`RateLimit.CleanupIsInvisible`); 5 min and an instant are
  already too much (`RateLimit.LateFailureSeesCleanup`).
- An update sent before the server's scheme changed can arrive after it and undo it (`Convergence.UpdateIsUndone`);
  an update brings convergence exactly if the scheme last loaded when the server answered is still the last one loaded
  (`Convergence.UpdateConvergesIff`).

Where code and documentation differ the model follows the code: `docs/protocol.md:127` keeps the scheme in the
Client object, the code in one variable of the process (`proxy/session/client.go:145`); `docs/protocol.md:136`
numbers the shaped packets from 0, the code numbers the session's from 1.

## Model

| member | source | states |
|---|---|---|
| World.StreamIntegrity | proxy/session/session.go:173-227 | End-to-end integrity: in every state two endpoints can reach, for any interleaving of opens, writes, closes, network arrival, schemes and draws, what the server handed to stream `sid`'s pipe is a prefix of what was written to the client's stream `sid`; no byte crosses to another stream |
| World.DrainedStreamsAreComplete | proxy/session/session.go:173-227 | Completeness: once the write buffer and the connection are empty and the server has acted on what it read, the server has a stream for every stream that the client has opened; and unless that stream or its session is closed, it has received exactly what was written to the client's |
| Downlink.DownlinkIntegrity | proxy/session/session.go:192-207 | From server to client, on every run: what a client stream's pipe got, behind the payload that came before the stream was registered, begins what was written to the server's stream of its id; before it is registered, or without such a stream, it got nothing |
| Downlink.DrainedDownlinkIff | proxy/session/session.go:192-207 | When nothing is lost, exactly: with the way back drained, an open client stream that is alive has received all that was written to it if and only if no payload for its id was handled before it was registered; and what it lacks is exactly that payload |
| Downlink.DisciplineLosesNothing | internal/server/handler.go:125-145 | On every run in which the server writes to a stream only after bytes were handed to it, as this server does by reading the address first, no payload comes before its stream is registered, so nothing is lost |
| EarlyLoss.EarlyDataIsLost | proxy/session/session.go:157-170 | Without that discipline it fails: a two-party run, for any data, in which the server's data reaches the client between the SYN and the registration; the stream ends up alive, everything is drained, and the data is gone |
| World.NegotiationOnEveryRun | proxy/session/session.go:208-234 | Two-party handshake invariant over every run, in-flight frames included: the server sees the settings first, never a second SYN for an id, never sends the missing-settings Alert; client version >= 2 implies server version >= 2; SYNACK goes out only to a version 2 peer; at most one SYNACK and one FIN per stream |
| Handshake.ClientVersionIff | proxy/session/session.go:341-355 | On every two-party run the client uses version 2 if and only if it has acted on a server settings frame, and version 0 before |
| Handshake.VersionsAgree | proxy/session/session.go:290-356 | Negotiation ends: with both ways drained and the server open, both sides use version 2 |
| Handshake.LocalCloseReachesServer | proxy/session/session.go:250-257 | A local close reaches the peer: with the way up drained, every stream that an open client has closed itself has a stream of its id at the server, and it is dead |
| Handshake.SynackIff | proxy/session/stream.go:135-163 | On every two-party run an open server has sent exactly one SYNACK for a stream if its handshake has been reported, and none if not |
| Delivery.EverythingCanArrive | proxy/session/session.go:173-207 | Nothing gets stuck: every reachable state in which the client's write buffer is empty has a continuation, without any step of the client, that ends with the server closed or with all that was written to each open stream handed to the server's stream, unless that is dead |
| World.FirstFrameOnEveryRun | proxy/session/session.go:81-98 | The first frame a client session ever hands to its connection is its settings frame |
| World.InvOnEveryRun | proxy/session/session.go:377-415 | The invariant behind the two-party results: on each side endpoint and channels agree, every SYN the server has acted on has its stream, and each side acts on a beginning of what the other has submitted |
| World.PaddingNeverBlocks | proxy/session/session.go:434-478 | Record sizes below 2^16 never make a step of the two-party machine impossible, so assuming submittable frames loses no run of schemes that fit |
| Channel.PaddingTransparentOnEveryRun | proxy/session/session.go:417-492 | Padding transparency over whole runs: after any sequence of writes, bufferings, schemes, draws, arrivals and reads, the frames received, then those on the connection, waste dropped, then those in the buffer are exactly the frames submitted; connection and buffer end at frame boundaries |
| Channel.DrainedMeansReceived | proxy/session/session.go:421-427 | With connection and buffer empty, everything submitted has been received, in order |
| Channel.DecoderNeverStarves | proxy/session/session.go:189-207 | When all bytes have arrived the decoder finds a frame exactly if bytes are left: it never waits for bytes that will not come |
| Channel.CallContent | proxy/session/session.go:417-492 | One `writeConn` call leaves on the wire and in the buffer, decoded and without waste, exactly what was there before plus the payload, and stays at a frame boundary |
| Frames.RoundTrip | proxy/session/frame.go:37-49 | Decoding any concatenation of well-formed encoded frames gives those frames and no remainder |
| Frames.PrefixSafety | proxy/session/session.go:189-207 | Any byte prefix decodes to a prefix of the frames, and the decoder stops at the last complete frame boundary |
| Frames.DecodeAppend | proxy/session/session.go:189-207 | Decoding what has arrived, then the remainder together with what arrives later, equals decoding all at once: reads may be split anywhere |
| Frames.DecodeOneCut | proxy/session/session.go:189-199 | A frame cut anywhere short of its end is not delivered |
| Frames.DataFrameDeliversIff | proxy/session/session.go:377-392 | The length field is `uint16(dataLen)`: a data frame reaches its stream whole if and only if the data fits 16 bits |
| Frames.HeaderReadsBack | proxy/session/frame.go:43-49 | The header of any frame of any size, spelled big end first, reads back as its command, stream id and length modulo 2^16 |
| Padder.ShapeObeysLaw | proxy/session/session.go:434-490 | Record-shape law: a write governed by size l is l bytes while payload exceeds l, l bytes when payload and a header fit below l, between l-7 and l otherwise, l+7 when all padding; at most one unshaped residual write follows; a check mark stops exactly when no payload is left |
| Padder.ShapeIsPayloadThenWaste | proxy/session/session.go:446-478 | What a padded call puts on the wire is the payload untouched followed by whole waste frames, so waste starts only where the payload ends |
| Padder.ShapeTransparent | proxy/session/session.go:434-490 | The receiver, dropping waste, sees the payload's frames and is left at a frame boundary |
| Padder.WasteBoundaryIff | proxy/session/session.go:455-478 | An injected waste frame leaves the receiver at a frame boundary if and only if its length fits the field or its 2^16-multiple of lost body happens to be whole headers |
| Padder.OversizedWasteExample | proxy/session/session.go:429-477 | The failure is real, on the first write of any session: with the scheme text of one rule `1=l-l`, as `1=70000-70000`, and any frame behind any buffered frames, the write leaves two stray bytes in front of the next frame when l exceeds payload and header by 2^16 to 2^17-1 |
| Padder.WasteRunIff | proxy/session/session.go:446-478 | After a run of waste frames the receiver is at a boundary after each exactly when each is synchronous, and then drops them all |
| Padder.CallBoundaryIff | proxy/session/session.go:434-490 | For a whole padded call: the receiver stands at a frame boundary behind the payload and again after each injected waste frame if and only if each of them is synchronous |
| Padder.FittingSizesAreSynchronous | proxy/session/session.go:455-478 | Sizes below 2^16 produce only synchronous waste |
| Padder.OnlyCallsBelowStopAreShaped | proxy/session/session.go:421-485 | Of a client that has stopped buffering with any frames in its buffer, and whatever schemes follow each other: call number i is shaped exactly when no call up to i has reached the stop of its scheme; the first takes the buffer along; every other call is one verbatim write |
| Padder.PaddingStaysOff | proxy/session/session.go:429-491 | Over any run of calls and schemes: once `sendPadding` is false it stays false, the packet counter stands still, and every later call is one verbatim write |
| Padder.BufferedCalls | proxy/session/session.go:421-427 | While the session buffers, a run of calls writes nothing and leaves its payloads in the buffer in order; no packet is counted |
| Padder.SessionWriter.WriteConn | proxy/session/session.go:417-492 | The method with its fields `buffer`, `buffering`, `sendPadding`, `pktCounter`: new fields, connection writes and count are those of one call of the record specification, for the sizes actually drawn |
| Padder.SessionWriter.WriteRecords | proxy/session/session.go:434-490 | The padding loop: the list of connection writes is the specified shape of the payload |
| Padder.SessionWriter.WriteRecord | proxy/session/session.go:446-478 | One turn of the loop: payload split, payload with padding, or all padding |
| Padder.SessionWriter.WriteFrame | proxy/session/session.go:377-415 | Header and data of a frame go through one `writeConn` call; the count returned is the data's |
| Scheme.FactoryIff | proxy/padding/padding.go:53-63 | A text is a scheme if and only if its `stop` is a number; the factory has its low 32 bits, the map of the text, the raw text and its md5 |
| Scheme.FactoryCell.Update | proxy/padding/padding.go:40-46 | Updating stores the parsed factory, or leaves the stored one alone |
| Scheme.ItemIff | proxy/padding/padding.go:70-93 | An item is a check mark if and only if it is `c`, and a range if and only if it is two positive numbers around one minus sign; all else is skipped |
| Scheme.RangeReadsBack | proxy/padding/padding.go:71-83 | Printing two positive numbers around a minus sign and parsing the item gives their range, smaller bound first |
| Scheme.OneRuleMeans | proxy/padding/padding.go:48-96 | The printed text of a stop and one rule `pkt=l-l` is a scheme with that stop, and the sizes it draws for the packet are exactly [l] |
| Scheme.OneRangeDraws | proxy/padding/padding.go:71-89 | A printed range draws exactly one size, at least the smaller bound and below the larger, or the bound when they coincide |
| Scheme.PrintedRuleMeans | proxy/padding/padding.go:66-96 | For any printed rule of check marks and ranges: the size lists it allows are those with one size per entry, in order, each a draw of its entry, stated without the parser or its items |
| Scheme.PrintedSchemeMeans | proxy/padding/padding.go:48-96 | For any printed scheme with a rule for each of the first packets: it is accepted with the stop printed, and the sizes allowed for a packet are those of its rule, or none without one |
| Scheme.DefaultSchemeDraws | proxy/padding/padding.go:17-25 | The built-in scheme stops at 8, draws sizes exactly for packets below 8, and every size is a check mark or 9 to 999, so its waste always fits the length field |
| Scheme.GenerateRecordPayloadSizes | proxy/padding/padding.go:66-96 | The loop: the sizes are, in rule order and without the malformed items, a check mark or a draw from [lo,hi), or lo when the bounds coincide |
| Scheme.GeneratedAreValid | proxy/padding/padding.go:66-96 | Every generated size is the check mark or positive, for every scheme text, packet and draw |
| Scheme.AllDrawsFitIff | proxy/padding/padding.go:66-96 | All draws of a rule fit a 16-bit length exactly when each item's largest one does |
| Text.SettingsRoundTripIff | util/string_map.go:9-27 | `StringMapFromBytes(ToBytes(m)) == m` for every iteration order if and only if no key holds `=` or newline and no value a newline |
| Text.ToBytes | util/string_map.go:9-15 | The loop prints the lines of the map in some order, each key once |
| Text.StringMapFromBytes | util/string_map.go:17-27 | The loop over lines gives the map of the lines that contain `=`, later lines winning |
| Text.ParseItoaIff | internal/traffic/persistence.go:64-69 | Decimal printing and parsing are inverse exactly on the 64-bit integers |
| Text.ParseIntIff | proxy/padding/padding.go:53-57 | Which texts parse, and as what number: an optional sign, zeros, and the number as printed, if it has 64 bits |
| Lifecycle.InvOnEveryRun | proxy/session/session.go:25-56 | Invariant of one endpoint against any peer: the map holds live streams under their own ids, ids are drawn in order, a closed session's older streams are dead |
| Lifecycle.CloseDisciplineOnEveryRun | proxy/session/stream.go:68-99 | Over every run each stream's death body and hook run at most once, a FIN is written only by a local death, the streams of a closed session are dead, and an uncancelled SYNACK watcher is the one `synDone` points to |
| Lifecycle.OneFinPerClientStream | proxy/session/session.go:366-375 | A client sends at most one FIN per stream id, and only for a stream that died locally, not by the peer's FIN |
| Lifecycle.TallyOnEveryRun | proxy/session/session.go:366-375 | FIN and SYNACK frames on the wire are accounted for one by one by the streams that wrote them |
| Lifecycle.DeathAndCloseAreFinal | proxy/session/session.go:111-132 | Whatever happens next, a dead stream keeps its one death, one hook run and FIN count, and a closed session stays closed and sends nothing more |
| Lifecycle.StrandedStreamIff | proxy/session/session.go:208-227 | The map is empty after `Close`; after the frame the receive loop had already read it is non-empty if and only if that frame is a SYN and the settings had come, and then its stream stays alive |
| Lifecycle.StrandedRun | proxy/session/session.go:111-132 | Such a run from a new server session: settings handled, SYN read, session closed, SYN handled; a live stream is left in the map |
| Lifecycle.PshDeliveredIff | proxy/session/session.go:192-207 | One frame at one endpoint: a client stream gets the data of a frame with its id if and only if it is registered and alive |
| Duties.ObeyedOnEveryRun | proxy/session/session.go:268-356 | Over every run of an endpoint against any peer: the peer's version in force, the settings flag and the list of schemes given to `UpdatePaddingScheme` are determined by the frames acted on, the schemes being the non-empty bodies of the update frames, in order, at a client, and none at a server; an endpoint that has acted on an alert with a body, or a server on a SYN before the settings, is closed |
| Duties.ClosesIff | proxy/session/session.go:111-132 | A step closes a session if and only if it is a close, a watcher running out, or acting on a non-empty alert or, at a server, on a SYN before the settings |
| Duties.ClosingStep | proxy/session/session.go:111-132 | That step kills every stream that was returned to its user, running its hook, empties the map, and sends no FIN: at most the alert |
| Duties.AnsweredOnEveryRun | proxy/session/session.go:289-305 | While it is open, an endpoint has answered each heartbeat request exactly once, and a server each settings frame that announces version 2 or more with exactly one settings frame of its own |
| Duties.SettingsAreAnswered | proxy/session/session.go:275-303 | Over every run: settings are answered with the scheme last loaded if and only if its md5 is not the announced one, then with the server settings if and only if version 2 or more was announced, and with nothing else |
| Duties.CloseSendsFin | proxy/session/session.go:366-375 | Closing a live stream of an open session kills it, forgets its id, sends exactly one FIN with that id, and touches no other stream |
| Duties.FinsAreLocalDeaths | proxy/session/session.go:366-375 | The FINs on the wire, exactly, over every run of either side while it is open: one for each stream of the id that died otherwise than by the peer's FIN |
| Duties.ClientFinIff | proxy/session/session.go:366-375 | So an open client session has sent one FIN for a stream if the stream has died otherwise than by the peer's FIN, and none if not |
| Duties.EndingKills | proxy/session/session.go:228-257 | After acting on a FIN, or on a SYNACK with an error, an open endpoint has no live or registered stream of that id and has touched no other; after the SYNACK it has sent a FIN if there was one, after the FIN it sends none |
| Duties.UnannouncedSynIsRefused | proxy/session/session.go:208-214 | A server that acts on a SYN before the settings sends one alert, with a reason, and closes; no stream is made |
| Duties.ReportSendsIff | proxy/session/stream.go:135-163 | A report sends one SYNACK with its text if and only if it is the first for its stream, the peer has version 2 and the session is open |
| Duties.SynacksAreReports | proxy/session/stream.go:135-163 | Over every run the SYNACKs on the wire for an id are exactly those reports |
| Duties.WriteSendsIff | proxy/session/stream.go:48-60 | A write sends one data frame with what was written if and only if stream and session are alive |
| Duties.WrittenIsAccepted | proxy/session/stream.go:48-60 | Over every run, what a stream has written, the text the integrity results speak of, is what its accepted writes add up to, in order |
| Watchers.BeginArmsIff | proxy/session/session.go:145-154 | Opening arms a new SYNACK watcher, the only one and the one `synDone` names, if and only if the id drawn is at least 2 and the server has announced version 2 or more; if not, the old one stays |
| Watchers.RunningOutCloses | proxy/session/session.go:150-152 | A watcher that runs out closes the session |
| Watchers.WatchedIff | proxy/session/session.go:145-154 | Over every run: a watcher is running if and only if some open has armed one and since then no SYNACK has been acted on and no watcher has run out |
| Watchers.UnansweredIsWatched | proxy/session/session.go:145-154 | So an open, from the second on against a version 2 server, that no SYNACK has followed has its watcher running on an open session: a silent server is timed out |
| Logs.NextSound | proxy/session/session.go:228-302 | What an endpoint newly sends in one step is appended to its log and consists of well-formed frames, none of them waste |
| Logs.ClientNextOk | proxy/session/session.go:135-171 | Each step keeps a client's wire log in order: settings first and once, data only after its stream's SYN, per stream exactly what was written |
| Logs.HandleKeepsServerOk | proxy/session/session.go:192-227 | A server acting on the next frame of a client's log keeps its pipes equal to the payload handled so far for each stream |
| Logs.ServerNextOut | proxy/session/session.go:208-213 | A server facing a client's log sends no Alert and no SYN, and nothing of version 2 to a peer that has not announced it |
| SessionObject.Session.RecvLoop | proxy/session/session.go:173-364 | The receive loop over a connection read in arbitrary pieces: the final session is a function of the bytes alone, namely all complete frames handled in order up to the first that closes the session, then closed |
| SessionObject.ReceivedIsARun | proxy/session/session.go:189-364 | What the loop does is a run of the session machine over the decoded frames, so every run-level result applies to it |
| SessionObject.Session.ReadFrame | proxy/session/session.go:189-199 | Header, then the body only for commands that have one; the pending SYNACK watcher is cancelled as soon as the header is read |
| SessionObject.Session.Dispatch | proxy/session/session.go:191-359 | The switch on the command has on the objects the effect specified for the frame |
| SessionObject.Session.HandleSyn | proxy/session/session.go:208-227 | SYN: alert and close before settings; otherwise a new stream unless the id is taken |
| SessionObject.Session.HandleSynAck | proxy/session/session.go:228-249 | SYNACK with a body closes its stream with the remote error, after the watcher was cancelled |
| SessionObject.Session.HandleFin | proxy/session/session.go:250-257 | FIN forgets the id and kills the stream without answering |
| SessionObject.Session.HandlePsh | proxy/session/session.go:192-207 | Data goes to the registered stream's pipe and nowhere else |
| SessionObject.Session.HandleSettings | proxy/session/session.go:268-305 | Settings: remember them, answer a stale scheme, then a version of at least 2, kept modulo 256 |
| SessionObject.Session.HandleServerSettings | proxy/session/session.go:341-355 | The client takes over the version announced, modulo 256 |
| SessionObject.Session.OpenStream | proxy/session/session.go:135-171 | A fresh stream with the next id, its SYN written and registered, the SYNACK watcher replaced from the second stream on; nothing on a closed session |
| SessionObject.Session.RearmSynDone | proxy/session/session.go:145-154 | The previous watcher is cancelled and the new one is the only one `synDone` knows |
| SessionObject.Session.Close | proxy/session/session.go:111-132 | Once only: every registered stream dies locally, the map is emptied, no FIN is written, in whatever order the map is ranged over |
| SessionObject.Session.StreamClosed | proxy/session/session.go:366-375 | One FIN and the id forgotten; nothing on a closed session |
| SessionObject.Stream.CloseLocally | proxy/session/stream.go:68-81 | The death body and hook run once; a dead stream is left as it is |
| SessionObject.Stream.CloseWithError | proxy/session/stream.go:83-99 | The first call kills the stream and then tells the session; later calls do nothing |
| SessionObject.Stream.Write | proxy/session/stream.go:49-60 | Data of a live stream of an open session goes out in one frame and all of it is counted, unless the write deadline has passed; otherwise nothing is |
| SessionObject.Stream.Handshake | proxy/session/stream.go:136-163 | The first report alone counts, and is sent only to a version 2 peer |
| Reader.Conn.ReadFull | proxy/session/session.go:190-196 | Exactly n bytes however the connection splits them, failing if and only if fewer are left |
| SynOrder.NextKeepsOrder | proxy/session/session.go:140-157 | If opens do not overlap, the SYN ids on the wire stay 1, 2, 3, ... |
| SynOrder.SynInOrderIff | proxy/session/session.go:140-157 | Writing a SYN keeps the ids on the wire in order if and only if the SYN of every lower id is already out |
| SynOrder.OverlappingOpensSwap | proxy/session/session.go:140-157 | Without that discipline the order is lost: two overlapping opens can write SYN 2 before SYN 1 |
| IdleList.CleanupCorrect | proxy/session/client.go:191-228 | Idle cleanup in closed form: a session goes exactly when it has expired and is not among the first minIdle; unexpired ones stay as they are, kept expired ones are refreshed and newer than every removed one; the survivors' number lies between min(minIdle, size) and unexpired + minIdle; order is kept |
| IdleList.CleanupPlain | proxy/session/client.go:191-228 | The i-th newest session stays as it is if it has not expired, stays as idle from now if it has and i is below the minimum, and is taken out otherwise |
| IdleList.InsertFacts | proxy/session/client.go:112-116 | Inserting keeps strict key order and adds exactly the entry, replacing one with its key |
| IdleList.RemoveFacts | proxy/session/client.go:151-154 | Removing keeps order and drops exactly the entry of the key |
| IdleList.FirstIsNewest | proxy/session/client.go:128-137 | The first entry has the greatest sequence number |
| IdleList.Client.IdleCleanupExpTime | proxy/session/client.go:191-220 | The loop with its removals during iteration leaves exactly the specified list and closes exactly the specified sessions |
| IdleList.Client.GetIdleSession | proxy/session/client.go:128-137 | Takes the newest pooled session out, or none from an empty pool |
| IdleList.Client.CreateSession | proxy/session/client.go:139-167 | A new session has the next sequence number and is in the map, not in the pool |
| IdleList.Client.PutIdle | proxy/session/client.go:95-121 | A stream's death puts an open session back, unless the client is closed; then the session is handed out to be closed |
| IdleList.Client.CloseSession | proxy/session/client.go:146-158 | A dying session leaves the pool and the map |
| IdleList.Client.Close | proxy/session/client.go:169-185 | The client is dead, its map empty, and what was in it is handed out to be closed |
| PoolRuns.PoolLease | proxy/session/client.go:65-126 | Lease invariant over every run of concurrent CreateStream calls, stream deaths, peers, cleanups: each open session is in the map and in exactly one place, pooled, taken out to be closed, with one call, or leased to exactly one live stream; or its last stream died before its hook was set |
| PoolRuns.DeathBeforeHookLeaks | proxy/session/client.go:76-123 | From every state allowed by the invariant, a FIN or an error SYNACK that is handled between the registration of a stream and the installation of `dieHook` leaves that session open, with no call and out of the pool: leaked |
| PoolRuns.ReusedSessionLeaks | proxy/session/client.go:65-126 | The leak on a run from the empty pool: a session is used and pooled; the next call opens its second stream; the peer's SYNACK reports an error and is handled; then the call installs its hook; the session is open and in no place at all |
| PoolDiscipline.NoSessionLeaks | proxy/session/client.go:65-126 | With a peer that ends or answers a stream only after the client has written to it, no session leaks on any run of the pool: each open session of an open client is in exactly one place, and one in use is leased to a live stream |
| PoolRuns.IdleSessionsAreOpen | proxy/session/client.go:112-116 | Every pooled key belongs to a distinct open session which, while the client is open, is in `sessions` |
| PoolRuns.TakesNewest | proxy/session/client.go:128-137 | In every reachable state the session handed out is open and the newest in the pool |
| PoolRuns.ClosedPoolOnlyShrinks | proxy/session/client.go:169-185 | After Client.Close nothing enters the pool, and it is empty once the sessions it took are closed |
| PoolRuns.CleanUpTakesExpired | proxy/session/client.go:191-228 | In every reachable pool a cleanup takes out exactly the sessions expired and beyond the minimum, and the others stay |
| PoolRuns.CloseTakesAll | proxy/session/client.go:169-185 | In every reachable open pool the close takes exactly the open sessions |
| PoolRuns.TakenIff | proxy/session/client.go:169-185 | Over every run, of the sessions open now the client's close took exactly those made before it |
| PoolRuns.LateSessionStaysOpen | proxy/session/client.go:65-94 | A run in which a call that has seen the client open makes its session after the close, which does not reach it |
| PoolRuns.DeathReturnsSession | proxy/session/client.go:102-123 | In every reachable open pool the death of a stream that has its hook puts its open session back, as idle from now |
| PoolRuns.SynsInOrder | proxy/session/client.go:76-90 | Every session made by the pool has settings first, once and non-empty, and SYN ids exactly 1, 2, 3, ... on the wire |
| PoolRuns.InvOnEveryRun | proxy/session/client.go:65-185 | The invariant behind the pool results holds in every reachable state |
| Pipe.Exactness | proxy/pipe/io_pipe.go:52-106 | With any number of concurrent readers, writers and closers, the bytes delivered are the acknowledged prefixes of the writes in lock order, plus at most one copied, unacknowledged chunk of the write that holds the lock |
| Pipe.Contiguous | proxy/pipe/io_pipe.go:82-106 | Each write's bytes are contiguous in what the reads deliver |
| Pipe.Results | proxy/pipe/io_pipe.go:52-106 | A write without error has all its bytes acknowledged, none counts more than it has; a successful read takes what fits from one write; a failed read takes nothing |
| Pipe.SliceIsStillLent | proxy/pipe/io_pipe.go:60-63 | At most one reader is between the rendezvous and its count, and until then the write that lent the slice has not returned |
| Pipe.CloseErrors | proxy/pipe/io_pipe.go:117-133 | A read on a closed pipe returns the write side's first error as long as the read side is open, else ErrClosedPipe; writes likewise |
| PipeProgress.NeverStuck | proxy/pipe/io_pipe.go:52-106 | In every reachable state each call has returned, or can be moved by a step of its own or of the read whose count it awaits, or waits: a read for a write and a write for a read while the pipe is open, or a write for the unfinished write that holds the lock |
| PipeProgress.FineWritesWereRead | proxy/pipe/io_pipe.go:82-106 | A write that returns without an error has met a read that has returned, an empty write too |
| PipeProgress.FailuresAreGiven | proxy/pipe/io_pipe.go:73-133 | A call that fails does so by its deadline, with an error that a close of the other side gave (EOF from a plain write close, ErrClosedPipe from a plain read close), or with ErrClosedPipe if its own side was closed |
| Pipe.FirstErrorStays | proxy/pipe/io_pipe.go:23-30 | `onceError` keeps its first error and `done` stays closed |
| Pipe.InvOnEveryRun | proxy/pipe/io_pipe.go:38-50 | The invariant of the small-step pipe machine holds in every reachable state |
| Deadline.NoDoubleClose | proxy/pipe/deadline.go:25-58 | Over every interleaving of Set calls and timer callbacks no channel is closed twice |
| Deadline.OneCallback | proxy/pipe/deadline.go:29-32 | At most one callback is pending or running; it is the current timer's, whose time has come, and it closes the current, still open channel |
| Deadline.WaitIsExact | proxy/pipe/deadline.go:60-65 | Whenever the lock is free the channel is closed exactly if the deadline last set was past or its timer has fired, and never before that deadline |
| Deadline.SetTakesEffect | proxy/pipe/deadline.go:34-57 | When a Set returns, its own argument is the deadline in force |
| Deadline.OldChannelsAreClosed | proxy/pipe/deadline.go:36-47 | A channel is replaced only once closed, so a waiter on an older one has been woken |
| Deadline.DrainIsNeverStuck | proxy/pipe/deadline.go:29-31 | A Set waiting for a callback has its channel closed already or the closing callback pending |
| RateLimit.BanSoundness | internal/ratelimit/conn.go:34-87 | An address is banned only if exactly eleven failures of it fell into one span of at most 60 s ending at the ban, and at most 5 min have passed |
| RateLimit.BannedIffElevenFailures | internal/ratelimit/conn.go:34-64 | In the 60 s from the first failure of an address without a record, or with an outdated one, it is banned if and only if eleven failures have come, whatever else happens |
| RateLimit.BanLasts | internal/ratelimit/conn.go:67-87 | The ban that the eleventh failure within 60 s starts lasts exactly 300 s from that failure, whatever happens in between |
| RateLimit.CleanupIsInvisible | internal/ratelimit/conn.go:90-108 | When each failure follows, by at most 5 min, a check that found no ban, every answer of IsBanned is what it would be without any cleanup |
| RateLimit.LateFailureSeesCleanup | internal/server/handler.go:36-62 | Beyond 5 min the order of the server's calls is not enough: a run in which each failure follows its check, one of them by 5 min and an instant, and the next answer depends on whether a cleanup came |
| RateLimit.CleanupSimulation | internal/ratelimit/conn.go:90-108 | With and without the cleanups the limiter's states mean the same at every event |
| RateLimit.CleanupBeforeFailureVisibleIff | internal/ratelimit/conn.go:47-50 | A cleanup just before a failure matters if and only if the address has an expired ban |
| RateLimit.CleanupCanBeSeen | internal/ratelimit/conn.go:47-50 | And then an answer can differ: eleven unchecked failures ban the address after the cleanup and go uncounted without it |
| RateLimit.ConnRateLimiter.RecordFailure | internal/ratelimit/conn.go:34-64 | The method changes the map as specified |
| RateLimit.ConnRateLimiter.IsBanned | internal/ratelimit/conn.go:67-87 | The answer, and the forgetting of an expired ban |
| RateLimit.ConnRateLimiter.Cleanup | internal/ratelimit/conn.go:90-108 | The loop, in any order, keeps exactly the records that are not stale |
| TrafficOrder.OrderlyRunsConserve | internal/server/sync.go:76-88 | Conservation over every run of concurrent adds, small-step snapshots, pushes, rollbacks, saves and restarts, if snapshots do not begin while an Add is between lookup and last addition and restarts come right after a save and at rest: after each step all added is acknowledged, in a snapshot, in an Add under way, or in the counter; at rest it is acknowledged or in the counter |
| TrafficOrder.AddReachesCounterIff | internal/traffic/counter.go:28-61 | Over any run, an Add still has its user's cell if and only if no snapshot has found that cell empty and dropped it since the lookup; once dropped it is never got back |
| TrafficOrder.RestartAfterSaveIff | internal/traffic/persistence.go:18-76 | A restart keeps a user's books if and only if the panel has acknowledged, since the last save, exactly what was under way at the save or has been added since |
| TrafficOrder.RestartRepeats | internal/server/sync.go:76-117 | A run from the start that counts traffic twice: save, then a push that is acknowledged, then a restart |
| TrafficOrder.RestartLoses | internal/server/server.go:167-199 | A run from the start that loses traffic: an add, then a restart without a save |
| TrafficRuns.AddIsLost | internal/traffic/counter.go:36-61 | The first of these is real: an Add that looks up its cell before a snapshot drops it is lost |
| TrafficRuns.SaveThenRestart | internal/server/server.go:167-191 | Saving and restarting with nothing under way is harmless and brings every user's count back |
| Traffic.SaveLoadRestores | internal/traffic/persistence.go:18-76 | Saving and loading into an empty counter restores exactly the entries with a positive count, each under its own id, for any iteration order |
| Traffic.SnapshotKeepsAllIff | internal/traffic/counter.go:43-64 | A snapshot loses nothing if and only if no user's counts are both without a positive one and not both zero |
| Traffic.Counter.Snapshot | internal/traffic/counter.go:43-64 | Both loops: the snapshot is the positive entries and the counter is empty |
| Traffic.Counter.Add | internal/traffic/counter.go:28-39 | The user's cell, made if need be, grows by the amounts; no other does |
| Traffic.Counter.Merge | internal/traffic/counter.go:67-71 | The contents become the sum of both maps |
| Traffic.Counter.SaveToFile | internal/traffic/persistence.go:18-47 | The image has one entry per positive user under its decimal id; the file is removed if and only if there is none |
| Traffic.Counter.LoadFromFile | internal/traffic/persistence.go:50-76 | What the numeric keys of the image say is merged into the counter; no file is no error; a file that cannot be read or parsed is an error and changes nothing |
| Traffic.Counter.DoPush | internal/server/sync.go:76-117 | One push cycle: on success exactly the positive entries are pushed and the counter is empty, on failure they are all back; the image matches the counter |
| Convergence.Convergence | proxy/session/session.go:278-288 | Once a client has processed one scheme update its factory equals the server's in raw bytes, md5, stop and rules; it stays so while the server's scheme does, and no session opened from then on is sent an update, whatever sessions are under way |
| Convergence.AdoptOnEveryRun | proxy/session/session.go:319-333 | Over every run of a client session against any peer, its calls of `UpdatePaddingScheme`, applied in order, leave the factory that the machine of this module makes of the same frames |
| Convergence.AdoptIsTheSwitch | proxy/session/session.go:319-333 | One frame: the scheme that the client's switch hands to `UpdatePaddingScheme`, if any, makes of a factory what `Adopt` does |
| Convergence.LastParsableWins | proxy/padding/padding.go:40-46 | Of several schemes handed to `UpdatePaddingScheme`, the last that can be parsed is in force |
| Convergence.UpdateConvergesIff | proxy/session/session.go:319-333 | With the server's scheme changing under way: reading an update makes the factories equal if and only if the last scheme the server had loaded when it answered that session is the last one it has loaded by now |
| Convergence.EachLinkIsAnswered | proxy/session/session.go:268-289 | Whatever is under way to the client on a session was decided by one answer of the server: in every run each session whose settings are no longer under way has been answered at some event |
| Convergence.UpdateIsUndone | proxy/session/session.go:276-333 | A run, for any schemes of different md5, in which an update overtaken by a newer one on another session leaves the client with the scheme the server has given up, and no update under way |
| Convergence.SchemesToUndo | proxy/session/session.go:276-333 | Schemes and settings to which that run applies, with the printed stop in place of md5 |
| Convergence.AnswersAreRight | proxy/session/session.go:276-288 | The server sends an update exactly when the announced md5 differs from its own, carrying its raw scheme |
| Convergence.SettingsAnnounce | proxy/session/session.go:87-94 | Whatever order the settings map is printed in, the server reads version 2 and the client's md5 |
| Convergence.RunWritesSettings | proxy/session/session.go:81-98 | The frame `Run` writes is a start the two-party results apply to |
| Convergence.ServerAnnouncesTwo | proxy/session/session.go:291-296 | The server's settings text announces version 2 |

## Left out

Steps taken as one:

- One `writeConn` is one step, because of `connLock`. The death of a stream with its hook and its FIN is one step,
  and so are `Session.Close` with its hook, and the cancelling and taking over in `Client.Close`. In the code another
  goroutine can come between: a session may be pooled again before its FIN is written, and a hook that has seen the
  session open may pool it just after it died.
- `SaveToFile` reads all counts in one step. `Snapshot` does not: its swaps are single steps, only the final look at a
  cell and its removal are one.
- A cancelled SYNACK watcher never fires. In `util/deadline.go:13-17` one that is cancelled as its time runs out may
  still close the session; the machine can close it at any time all the same.
- A SYNACK with a body cancels the watcher and closes the stream in one step of `SessionSpec`; `SessionObject` has
  the two apart, as the code does.

Assumed:

- Data and control frames of at most 65535 bytes, schemes shorter than 65536 bytes, fewer than 2^32 streams per
  session and 2^32 - 1 writes while padding is on; user counts that stay below 2^63.
- A monotone clock. md5 is any function whose printed form has no newline. Random draws are any in range.
- No server sends a client the server-only SYN. The debug switch `CLIENT_DEBUG_PADDING_SCHEME` is off.
- A write to an open connection succeeds; an error or a partial write is not modelled beyond a closed session.

Weaker or simpler than the code:

- World.StreamIntegrity: speaks of bytes from client to server; the way back is the subject of `Downlink`.
- Downlink.DisciplineLosesNothing: that this server writes only after bytes have come is the hypothesis, read off
  `internal/server/handler.go`, which is not part of this model.
- PoolDiscipline.NoSessionLeaks: that the peer has heard from a stream is taken as the client having written bytes to
  it; `World.StreamIntegrity` is why it cannot have heard otherwise.
- SessionObject.Session.OpenStream: no other goroutine comes between its parts; the machine of `SessionSpec` has them
  as three steps.
- SessionObject.Session.RecvLoop: the loop alone acts on the session; other actions interleave in `SessionSpec`.
- IdleList.Client.IdleCleanupExpTime: `idleSince` is kept in the entry of the idle list, not in the session.
- Pipe.Results: a passed deadline may be seen in any select; when it has passed is the subject of `Deadline`.
- Channel.PaddingTransparentOnEveryRun: a call whose waste would not fit the length field is excluded; when it keeps
  the receiver in step is `Padder.CallBoundaryIff`.
- Channel.CallContent: the same calls are excluded.
- SessionObject.Stream.Write: whether the write deadline has passed is a parameter; when it has is the subject of
  `Deadline`.
- Lifecycle.PshDeliveredIff: one step only; whole runs are the subject of `Downlink` and `EarlyLoss`.
- Traffic.Counter.DoPush: reporting of online users and node status, and the JSON text of the file, are left out; adds
  that come between its steps are the subject of `TrafficRuns`.
- Logs.NextSound: does not say which kinds of frame which step may send.

Not modelled:

- TLS, sockets, dialling, authentication, fallback relaying, SOCKS and HTTP inbounds, udp-over-tcp.
- The panel's HTTP client, JSON and YAML, logging, configuration, certificates, system information, installation.
- User manager, online-user tracker, speed limiter: they would only add easy members.
- The skip list's internals; the idle list is an ordered list by key.
- Liveness beyond `PipeProgress.NeverStuck` and `Delivery.EverythingCanArrive`: head-of-line blocking, a zero-length
  read that loops, starvation.
- Heartbeat scheduling; the code answers requests and does not send any.
