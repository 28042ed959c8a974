# tail-ws core, modelled in Dafny

tail-ws follows a growing file and pushes every appended line to all connected
websocket clients. This project models the three sequential parts of it:

- `watch.dfy`, module `Watch`: the tail reader of package `watch`. The class
  `Reader` has the reader's fields: the byte `offset`, the `seekEnd` policy, the
  open handle (the file's bytes `data`, the position `pos`, and `isOpen`), and
  the readiness channel (`pending` signals not yet received, and `closed`). The
  pure functions `OpenPosition`, `EventStep`, `EventsStep`, `WatchCall` and
  `ReadStep` state what `openFile`, `handleEvent`, the watching loop, `Watch`
  and `Read` do. The methods
  `OpenFile`, `HandleEvent`, `Watch` and `Read` change the object's fields and
  are proved against those functions. `Valid()`, "the offset never runs ahead
  of the handle position", is kept by every method.
- `connections.dfy`, module `Registry`: the registry `Connections`. It holds a
  set of connection ids, the set of connections whose transport was closed, and
  the number of read locks held.
- `server.dfy`, module `Broadcast`: the `Server`. This covers option
  application, the origin check, the choice of listener, the mapping of
  `ErrServerClosed`, the registration rule of `HandleWS`, the fan-out of
  `broadcast`, the overwrite-retry loop of `Watch` (proved against the fold
  `RetryRun` of `WatchCall` over successive calls), and the timing constants.
- `wrappers.dfy`: an `Option` type.

Inputs stand in for the operating system:
- `os.Stat` results are a `Stat` value handed to each event.
- The file's bytes at open time are an `Option` (None when `os.Open` fails).
- What the fsnotify watcher delivers is a sequence of `Notification`s. The end
  of that sequence is the cancelled context.
- Where Go blocks on the readiness channel or on the registry's write lock, the
  model returns `Blocked` or `Waiting` instead of waiting.

Behaviours of the code that the model keeps as they are:
- After `FileOverwritten`, the server's loop calls the same reader's `Watch`
  again. The reader keeps the offset it consumed from the old file, so
  `openFile` seeks the new file to that offset rather than to 0.
  `ReopenSkipsConsumedPrefix` states the consequence: the new file's first
  `offset` bytes are not read. (A later Write event whose size is at most that
  offset does rewind the reader, through the truncation rule.) The lemma is
  about a reader that has read bytes; in `Broadcast.Server.Watch` no reads take
  place (see "## Left out"), so there the offset is still 0 at a reopen.
- A failed write or a failed ping only closes the connection's transport
  (`OnSendFailure`). It does not remove the connection from the registry, so
  later broadcasts still target it.
- With `SeekEnd`, `openFile` moves the handle to the end but leaves `offset` at
  0. The offset counts the bytes consumed since opening, not the handle
  position, and the truncation test compares the file size with that count.
- `broadcast` calls `Iter` as written. Its visitor always continues, so the
  read lock that `Iter` leaks on an early stop is never leaked there.
- `HandleWS` never reads from the connection. In gorilla/websocket the close
  and pong handlers run only inside a read call, so as written a peer's close
  does not reach `OnPeerClose` and a pong does not renew the read deadline.
  This follows the library's documentation and is not verified here, because
  the library is not part of this model. `OnPeerClose` models the handler's
  body, not a path the program reaches.

## Model

| member | source | states |
|---|---|---|
| `Watch.Reader.constructor` | watch/watch.go:43-68 | options apply in order: the offset is the last StartOffset (zero without one), SeekEnd sets the end policy; no handle, no signal, channel open |
| `Watch.LaterStartOffsetWins` | watch/watch.go:63-65 | a StartOffset option decides the offset unless a later StartOffset follows it |
| `Watch.OpenPosition` | watch/watch.go:172-180 | a positive offset is the seek position and takes precedence over SeekEnd; otherwise the end of the file with SeekEnd, else byte 0; never before the offset |
| `Watch.Reader.OpenFile` | watch/watch.go:166-183 | a failed open reports the error and leaves no handle; otherwise the handle holds the file at `OpenPosition` and the offset stays behind the position |
| `Watch.Chunk` | watch/watch.go:85 | one file read copies bytes that directly follow the position in the file, never more than the buffer holds; it stops short of a full buffer only at the end of the file, and copies nothing at or past the end |
| `Watch.SuccessiveReadsReturnRest` | watch/watch.go:77-102 | reads with a non-empty buffer, each starting where the previous one ended, return exactly the rest of the file, in order |
| `Watch.EventStep` | watch/watch.go:185-221 | Remove gives FileDeleted when the path is gone and FileOverwritten otherwise; Rename without Remove gives FileRenamed; both change nothing. A Write whose size is at most the offset rewinds offset and position to 0, and sends no signal when the size is 0. A larger size leaves both unchanged and sends one signal. A failed stat is returned. At most one signal per event, and a send on a closed channel is reported. A Write on a file that still exists never fails while the channel is open |
| `Watch.Reader.HandleEvent` | watch/watch.go:185-221 | the object's new offset, position and channel state, and the error, are those of `EventStep`; the offset-behind-position invariant is kept |
| `Watch.EventsStep` | watch/watch.go:142-163 | notifications are handled in order until the first error; the offset and position either stay or are both 0; each notification adds at most one signal; no send-on-closed error while the channel is open |
| `Watch.ForeignEventsIgnored` | watch/watch.go:146-148 | events on other paths and nil watcher errors change nothing and stop nothing |
| `Watch.WatchCall` | watch/watch.go:113-164 | a failed Abs returns AbsError and a failed open returns its error, and neither changes the reader; otherwise the notifications run as in `EventsStep` from the position the seek policy picks; a call never opens or closes the readiness channel, and it returns no error only after both Abs and open succeeded |
| `Watch.Reader.Watch` | watch/watch.go:113-164 | the object's new offset, position and channel state, and the error, are those of `WatchCall` from its old state; the seek policy is kept; after a successful open the handle holds the new file and is closed on return |
| `Watch.ReadStep` | watch/watch.go:77-102 | a read returning data returns n > 0 bytes: the next n bytes at the position, with offset and position advanced by exactly n. It never returns 0 bytes without an error. With no signal left it ends in EOF exactly when the channel is closed, else it blocks, and offset and position stay. A read on a handle that is not open fails |
| `Watch.Reader.Read` | watch/watch.go:77-102 | the loop that re-waits after an empty read leaves the object in the state `ReadStep` gives and keeps the offset-behind-position invariant |
| `Watch.Reader.Close` | watch/watch.go:104-107 | closes the readiness channel; a second close is the runtime's close-of-closed-channel panic |
| `Watch.Reader.GetOffset` | watch/watch.go:109-111 | the reported offset never exceeds the open handle's position |
| `Watch.TruncationRereadsFromStart` | watch/watch.go:204-218 | after a Write reporting a non-empty file no longer than the offset, the next read returns the file from byte 0 and the offset restarts from there |
| `Watch.AppendedBytesAreRead` | watch/watch.go:185-221 | a reader opened with SeekEnd on a file that then grows: the Write event succeeds and the next read returns the appended bytes (up to the buffer size), not the old ones |
| `Watch.TruncatedFileIsReadFromStart` | watch/watch.go:204-218 | a reader that has read a whole file: after the file is truncated to a shorter non-empty size, the Write event succeeds and the next read returns the truncated file from byte 0 |
| `Watch.ReopenSkipsConsumedPrefix` | watch/watch.go:172-175 | reopening with the offset kept from the previous file makes the first read start at that offset of the new file |
| `Registry.Connections.constructor` | broadcast/connections.go:10-14 | a new registry is empty, nothing is closed, no lock is held |
| `Registry.Connections.IsEmpty` | broadcast/connections.go:23-28 | true exactly when there is no member; changes nothing |
| `Registry.Connections.Add` | broadcast/connections.go:31-35 | with no read lock held, the connection joins and every member stays (adding a member again changes nothing); with a read lock held the call waits and nothing changes |
| `Registry.Connections.CloseConn` | broadcast/connections.go:44 | closing marks the transport closed; closing it again fails |
| `Registry.Connections.Delete` | broadcast/connections.go:39-45 | with no read lock held, the connection leaves the registry, every other member stays, and its transport is closed even if it was not a member |
| `Registry.Connections.Close` | broadcast/connections.go:48-53 | every current member's transport is closed and no member is removed |
| `Registry.Connections.Iter` | broadcast/connections.go:57-65 | visits distinct members; every visit but a stopping last one returned true; without a stop every member is visited, so an always-true visitor visits each member exactly once; the read lock is released on both exits |
| `Registry.Connections.IterAsWritten` | broadcast/connections.go:57-65 | as `Iter`, except that a stopped iteration returns with its read lock still held |
| `Registry.LeakedReadLockBlocksWriters` | broadcast/connections.go:59-62 | after an iteration stopped by its visitor, `Add` can no longer take the write lock |
| `Registry.ReleasedReadLockAdmitsWriters` | broadcast/connections.go:57-65 | with the read lock released on early stop, a later `Add` succeeds |
| `Broadcast.PingPrecedesDeadline` | broadcast/server.go:23-24 | the ping period is 9/10 of the pong wait, 54 s against 60 s, so strictly shorter |
| `Broadcast.ConfigureFields` | broadcast/server.go:55-62 | each field holds the value of the last option that sets it; untouched fields keep the defaults (address 127.0.0.1:8080, empty origin, no certificate or key) |
| `Broadcast.LaterOptionOverrides` | broadcast/server.go:60-62 | an option's fields survive every later option that sets other fields |
| `Broadcast.Server.constructor` | broadcast/server.go:53-72 | the server holds the configuration of its options applied in order, over a new empty registry |
| `Broadcast.CheckOrigin` | broadcast/server.go:64-69 | with no configured origin every request passes; otherwise exactly the requests whose Origin header equals it |
| `Broadcast.OriginCheckOfOptions` | broadcast/server.go:64-69 | the origin check of a configured server, stated in terms of its last Origin option |
| `Broadcast.SelectListener` | broadcast/server.go:155-161 | TLS exactly when both certificate and key files are non-empty, on the configured address; plain otherwise |
| `Broadcast.TlsOfOptions` | broadcast/server.go:155-161 | TLS exactly when the last Secure option names both files |
| `Broadcast.ServeResult` | broadcast/server.go:163-166 | ErrServerClosed becomes success; every other listener error is returned unchanged |
| `Broadcast.Server.Start` | broadcast/server.go:137-170 | every registered connection is closed, the listener is the one `SelectListener` picks, and the result is `ServeResult` of the listener's error |
| `Broadcast.RetryOutcome` | broadcast/server.go:190-195 | the loop ends with the first result that is not FileOverwritten, nil included, and keeps going while every result was FileOverwritten |
| `Broadcast.RetryStopsAtFirstOther` | broadcast/server.go:190-195 | FileOverwritten results followed by another result stop at that result |
| `Broadcast.RetryRun` | broadcast/server.go:189-196 | the successive `Watch` calls on one reader, each from the state the previous one left: at most one result per call's inputs, and the readiness channel is neither opened nor closed |
| `Broadcast.RetryRunShape` | broadcast/server.go:190-195 | every result of a run but the last is FileOverwritten; a run that stops before its inputs run out ends with a result that is not FileOverwritten |
| `Broadcast.RetryOutcomeOfResults` | broadcast/server.go:190-195 | over results that are FileOverwritten up to the last, the loop keeps going exactly when all are, and otherwise stops with the last |
| `Broadcast.RetryRunOutcome` | broadcast/server.go:190-195 | the outcome of a run is `RetryOutcome` of its results: still watching exactly when every call's inputs were used and every result was FileOverwritten, otherwise stopped with the last result |
| `Broadcast.RetryWatch` | broadcast/server.go:189-196 | the loop's results and the reader's final state are those of `RetryRun`; it keeps watching exactly when every call was overwritten, and otherwise stops with the last result; the seek policy is kept |
| `Broadcast.WatchNext` | broadcast/server.go:191-193 | one turn of the loop: a result other than FileOverwritten completes the run; FileOverwritten leaves the rest of the run to the following calls |
| `Broadcast.Server.Watch` | broadcast/server.go:174-199 | a fresh reader that starts at the end of the file is watched again after each FileOverwritten; the results and the reader's offset, position and signals are those of `RetryRun` from a new reader, with no reads in between; the reader is closed exactly when the loop stopped; the loop keeps going exactly when every call was overwritten, and otherwise stops with the last result |
| `Broadcast.Server.HandleWS` | broadcast/server.go:89-133 | a request failing the origin check or the handshake is rejected and registers nothing; an upgraded connection is added, or waits for the write lock |
| `Broadcast.Server.OnPeerClose` | broadcast/server.go:127-131 | the close handler's body: the connection leaves the registry and is closed (as written, the handler is not reached; see above) |
| `Broadcast.Server.OnSendFailure` | broadcast/server.go:203-210 | a failed write (or ping, lines 114-119) closes the transport and leaves membership unchanged |
| `Broadcast.Server.Broadcast` | broadcast/server.go:201-214 | with `Iter` as written and a visitor that always continues, every registered connection is targeted exactly once and the read lock is released |

## Findings

| source | as written | input that shows it | evidently intended | confidence | as-written member | corrected member |
|---|---|---|---|---|---|---|
| broadcast/connections.go:60-61 | `Iter` returns from inside the loop when the visitor returns false, skipping `RUnlock` | a registry with one member and a visitor that returns false; a later `Add` then waits for ever on the write lock | release the read lock on the early return as well (a deferred `RUnlock`) | high; not executed; the program's own visitors always return true, so it is latent there | `Registry.LeakedReadLockBlocksWriters` (on `Registry.Connections.IterAsWritten`) | `Registry.Connections.Iter`; `Registry.ReleasedReadLockAdmitsWriters` |

## Left out

- cmd/tail-ws/main.go is not part of this model. It parses flags, configures logging and wires the two activities together.
- The fsnotify watcher's creation and `watcher.Add` on the directory (watch/watch.go:128-138), and their errors: operating-system notification plumbing. Events reach the model as the `notes` input.
- Go concurrency: goroutines, errgroup cancellation, `context.Context`, real blocking on channels and locks. The unbuffered readiness channel becomes a count of signals, so a send never blocks. A waiting write lock does not hold back later readers, as Go's `RWMutex` would.
- `Watch.Reader.Read`: file read errors other than reading a handle that is not open are not modelled. On a regular file they come from the operating system.
- `Watch.Reader.OpenFile`: `Seek` errors (watch/watch.go:173-179, 206-208) are not modelled. Seeking a regular file to a non-negative position does not fail.
- `Watch.Reader.HandleEvent`: the event's path and the stat result are independent inputs. The model does not tie the stat size to the bytes the handle reads, because after a rotation they belong to different files.
- The offset is an unbounded integer. Go's int64 wrap-around at 2^63 bytes is not modelled.
- gorilla/websocket: `Upgrade` beyond its origin check (a boolean input), `SetReadLimit`, read deadlines, the pong and close handler registration, `WriteControl`/`WriteMessage`, and the ping ticker goroutine. A write or close is modelled only as its effect on a connection id. The constants `MaxMessageSize` and `WriteWait` are declared but not used by any proof.
- `http.Server`: listening, serving, TLS certificate loading, and the error of `server.Close()` in `Start`. Only the listener choice and the error mapping are modelled.
- `Broadcast.Server.Watch`: the reading goroutine (broadcast/server.go:178-185) is absent. In Go, each signal sent at watch/watch.go:218 must meet a receive in `Read`, and the read that follows advances the offset. Here no read runs between notifications. In this composition the offset stays 0, so every reopen seeks to the end of the new file, and the truncation reset (watch/watch.go:204-210) fires only for a Write reporting size 0. Signals accumulate in `pending` instead of being consumed. Reads are modelled on their own by `Watch.Reader.Read`, and after reads by `Watch.TruncatedFileIsReadFromStart` and `Watch.ReopenSkipsConsumedPrefix`.
- The `bufio.Scanner` that splits the reader's bytes into lines in `Server.Watch` (broadcast/server.go:178-185) is a library tokenizer. `Broadcast.Server.Broadcast` is the per-line step.
- `Registry.Connections.Iter`: the visitor is a pure function. The effects of the program's visitors (closing a connection, starting a write) are modelled by `Close` and `Broadcast`.
