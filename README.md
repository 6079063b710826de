# Live stream relay: key store, relay handler and log helpers in Dafny

This project models the sequential core of a small RTMP relay. A publisher
connects to the relay, and the relay forwards its stream to one fixed upstream
media server. Next to it runs an in-memory store of time-limited stream key
pairs.

- `common.dfy` (module `Common`): `Option`, `Result`, and Go's `byte` and `uint32`.
- `hex.dfy` (module `Hex`): lowercase base16 encoding (section 8 of RFC 4648,
  as Go's `hex.EncodeToString` writes it), with its decoder and the round trip.
- `store.dfy` (module `Store`): the stream key store. It holds the `StreamKey`
  and `StreamKeyPair` datatypes, the pure functions that specify each operation,
  and the class `StreamKeyStore`, whose `store` field is a `map` that the
  methods reassign. Times are integers. Each clock reading is a parameter:
  `GetOrCreate` reads the clock twice in the Go code, once for the expiry test
  (`checkTime`) and once to stamp the new pair (`now`). The 16 random bytes
  behind each key are a parameter too, `None` when the random source fails.
- `handler.dfy` (module `Relay`): the per-connection relay handler. The class
  `Handler` has the Go fields `ConnectionId`, `wowzaConn`, `wowzaStream` and
  `wowzaApp`, plus a ghost `trace` of every call made on the outbound RTMP
  client. The outbound client is abstract. Each call it would make is an
  `Event`, and its outcome (a handle or an error) is a parameter. The pure step
  functions (`ConnectStep`, `PublishStep`, `FrameStep`, `CloseStep`) specify
  the methods. `Run` folds them over a sequence of callbacks, which is how the
  properties that span several callbacks are stated.
- `logger.dfy` (module `Logger`): `slogLevelParser` and `getSimplePath`. Paths
  are byte sequences, because Go's `len` and `strings.LastIndex` count bytes.

Three behaviours of the code are easy to miss, and the model keeps each:
- When key generation fails, the store is not left as it was. An expired entry
  for that cpk has already been deleted by then (store/store.go:64), so it is
  gone after the failure.
- `OnClose` does not reset `wowzaStream` or `wowzaConn` (handler/handler.go:128-137).
  A frame callback arriving after close would still write to the closed stream,
  and in the model `FrameStep` after `CloseStep` still writes.
- The two expiry tests differ at the boundary. `GetOrCreate` regenerates a pair
  once `now >= expiresAt` (`Before`, store/store.go:61). `CleanupExpired`
  removes it only once `now > expiresAt` (`After`, store/store.go:107).
  `Store.ExpiryBoundary` states this.

## Model

| member | source | states |
|---|---|---|
| `Hex.Encode` | store/store.go:51 | the encoding of n bytes is 2n characters, all lowercase hex digits |
| `Hex.DecodeEncode` | store/store.go:51 | decoding the encoding gives back the bytes you started with |
| `Hex.EncodeInjective` | store/store.go:51 | different byte strings never encode to the same text |
| `Store.TypeName` | store/store.go:11-16 | a key type is named "main" exactly when it is the main type, so the two types never share a name |
| `Store.GenerateKey` | store/store.go:46-52 | fails exactly when the random read fails; otherwise the key is 32 lowercase hex characters that decode to the 16 random bytes |
| `Store.GeneratedKeysDiffer` | store/store.go:46-52 | keys generated from different random bytes are different |
| `Store.Deleted` | store/store.go:92-96 | after delete, cpk is absent and every other entry is unchanged; if cpk was absent, nothing changes |
| `Store.DeleteIdempotent` | store/store.go:92-96 | deleting the same cpk twice is the same as deleting it once |
| `Store.DeletePreservesValid` | store/store.go:92-96 | delete keeps every entry filed under its own cpk and well formed |
| `Store.NewPair` | store/store.go:77-86 | a created pair has the given cpk and keys, `CreatedAt == now`, `ExpiresAt == now + duration`, main and backup types, and both keys carry the pair's two timestamps |
| `Store.GetOrCreateSpec` | store/store.go:54-90 | returns a live entry (`checkTime < ExpiresAt`) unchanged and leaves the map alone. Otherwise the call fails exactly when a random read fails, with the main key's error first, and leaves cpk absent. On success it stores under cpk a well-formed pair with the requested expiry, whose keys decode to the two random reads |
| `Store.GetOrCreateFrame` | store/store.go:54-90 | entries for any cpk other than the requested one are untouched on every path |
| `Store.GetOrCreatePreservesValid` | store/store.go:54-90 | GetOrCreate keeps every entry filed under its own cpk and well formed |
| `Store.IssueTwice` | store/store.go:60-62 | a second call made before the first call's pair expires returns the identical pair and leaves the map unchanged, whatever its own random reads are |
| `Store.ExpiryBoundary` | store/store.go:61 | an entry with `ExpiresAt == now` is regenerated by GetOrCreate, yet the sweep at the same instant (`After`, store/store.go:107) does not remove it |
| `Store.ReissueHasFreshKeys` | store/store.go:60-88 | re-issuing after expiry gives main and backup keys different from the old ones whenever the random bytes differ |
| `Store.Unexpired` | store/store.go:103-111 | after the sweep, an entry remains exactly when `ExpiresAt >= now`, with its value unchanged; the map does not grow |
| `Store.SweepIdempotent` | store/store.go:106-111 | a second sweep at the same instant removes nothing more |
| `Store.SweepPreservesValid` | store/store.go:106-111 | the sweep keeps every entry filed under its own cpk and well formed |
| `Store.StreamKeyStore.constructor` | store/store.go:40-44 | a new store is empty |
| `Store.StreamKeyStore.GetOrCreate` | store/store.go:54-90 | the result and the new map are those of `GetOrCreateSpec` on the old map; the store invariant is kept |
| `Store.StreamKeyStore.Delete` | store/store.go:92-96 | the new map is the old map without cpk |
| `Store.StreamKeyStore.CleanupExpired` | store/store.go:99-114 | the new map is `Unexpired(old map, now)`; the count is the old size minus the new size |
| `Store.StreamKeyStore.GetAll` | store/store.go:116-126 | returns a map equal to the store's (a map value, so the copy cannot alias the store); the store is not changed |
| `Relay.ChunkStreamIdOf` | handler/handler.go:101-120 | every frame goes on chunk stream 4 or 6, and on 4 exactly when it is audio |
| `Relay.ChannelsDistinct` | handler/handler.go:101-120 | two media kinds share a chunk stream id exactly when they are the same kind |
| `Relay.ConnectStep` | handler/handler.go:27-36 | an empty app name returns "app name is empty" and changes nothing; a non-empty name becomes `wowzaApp` and the call succeeds; nothing goes upstream |
| `Relay.PublishStep` | handler/handler.go:39-87 | the calls made are a prefix of Dial, Connect(wowzaApp), CreateStream(128), Publish(name, "live") that ends at the first failure. The error returned is that first failure. `wowzaConn` is set iff Dial succeeded, and `wowzaStream` iff Dial, Connect and CreateStream succeeded |
| `Relay.PublishSuccess` | handler/handler.go:48-86 | publish succeeds exactly when all four calls succeed, and then the four setup calls were made in order |
| `Relay.PublishFailureKeepsStream` | handler/handler.go:68-83 | when only Publish fails, its error is returned and the stream and the connection stay set |
| `Relay.PublishWritesNothing` | handler/handler.go:48-83 | publish setup never writes a frame |
| `Relay.FrameStep` | handler/handler.go:89-126 | the fields never change. A failed payload read is the only error returned. With a stream and a payload, exactly one write is made, on the kind's chunk stream, with the frame's timestamp and bytes, even if that write fails. Otherwise nothing is written |
| `Relay.CloseStep` | handler/handler.go:128-137 | closes the stream only if there is one, and the connection only if there is one, stream first; it returns no error |
| `Relay.NoStreamNoWrites` | handler/handler.go:65-122 | starting with no stream, if no publish setup gets through CreateStream (for example, because the dial failed), no callback sequence ever writes a frame upstream |
| `Relay.FramesForwardedInOrder` | handler/handler.go:89-126 | a run of frame callbacks forwards each frame whose payload was read, in arrival order and with its own timestamp, when a stream is set, and writes nothing when none is |
| `Relay.ForwardedWritesAt` | handler/handler.go:95-122 | when every payload is read, the i-th write carries the i-th frame's channel, timestamp and bytes |
| `Relay.ConnectThenPublish` | handler/handler.go:27-86 | connect with a non-empty app name, then a fully successful publish: exactly the four setup calls go upstream, using that app name and the publishing name unchanged |
| `Relay.EmptyAppRejected` | handler/handler.go:27-31 | an empty app name is rejected before any upstream call |
| `Relay.Handler.constructor` | handler/handler.go:16-22 | a new handler has the given connection id, no app name, no connection, no stream and an empty trace |
| `Relay.Handler.OnConnect` | handler/handler.go:27-36 | the new fields, the calls appended to the trace and the error are those of `ConnectStep` |
| `Relay.Handler.OnPublish` | handler/handler.go:39-87 | the fields, assigned step by step between the outbound calls, the trace and the error end as `PublishStep` says |
| `Relay.Handler.Forward` | handler/handler.go:89-105 | the frame-forwarding body shared by OnAudio and OnVideo; ends as `FrameStep` says |
| `Relay.Handler.OnAudio` | handler/handler.go:89-106 | ends as `FrameStep` says for an audio frame (chunk stream 4) |
| `Relay.Handler.OnVideo` | handler/handler.go:108-126 | ends as `FrameStep` says for a video frame (chunk stream 6) |
| `Relay.Handler.OnClose` | handler/handler.go:128-137 | the trace grows by `CloseStep`'s calls; the fields stay as they were |
| `Logger.AsciiLower` | logger/logger.go:21 | the result is never an upper-case ASCII letter; an upper-case letter becomes the lower-case letter at the same place in the alphabet; any other character is left unchanged |
| `Logger.ToLower` | logger/logger.go:21 | keeps the length and leaves no upper-case ASCII letter; only upper-case ASCII letters are changed |
| `Logger.ToLowerIdempotent` | logger/logger.go:21 | lowercasing twice gives the same string as lowercasing once |
| `Logger.SlogLevelParser` | logger/logger.go:14-26 | succeeds exactly when the lowercased input is debug, info, warn or error, and gives that name's level. Any other input returns the error "<input> is not valid log level" together with slog's zero level |
| `Logger.LevelsDistinct` | logger/logger.go:15-20 | the four names give four distinct levels, in increasing order of severity |
| `Logger.LevelParserIgnoresCase` | logger/logger.go:21 | two inputs that are equal up to ASCII case parse to the same result |
| `Logger.LevelParserExamples` | logger/logger.go:14-26 | "DEBUG" and "Warn" are accepted; "warning" is rejected |
| `Logger.LastIndex` | logger/logger.go:74-78 | gives the last position that holds the byte, or -1 when the byte does not occur |
| `Logger.GetSimplePath` | logger/logger.go:70-83 | the result is a suffix of the path and never longer than it |
| `Logger.ShortPathKept` | logger/logger.go:71-73 | a path of at most 10 bytes is returned whole |
| `Logger.FewSlashesKept` | logger/logger.go:74-81 | a path with no slash or exactly one slash is returned whole |
| `Logger.CutAtSecondToLastSlash` | logger/logger.go:78-82 | a longer path with two or more slashes is cut at its second-to-last slash: the result starts with '/' and contains exactly two '/' |

## Left out

- Locking: the `sync.RWMutex` of the store. Each store operation is modelled as atomic and sequential.
- The concurrent sweep: the goroutine and the one-minute ticker in main.go. `CleanupExpired` is modelled as one call.
- Randomness: `crypto/rand` itself. The model has only its outcome, 16 bytes or a failure.
- Time: `time.Now`, `time.Time` and `time.Duration` are plain integers on one clock.
  Go's monotonic versus wall-clock comparison is not modelled, and neither is saturation of `Add` at the limits of `time.Time`.
- Pointers: in Go, GetOrCreate and GetAll hand out pointers to the stored pairs. The model uses values, so changes made through such a pointer (no caller makes one) are not captured.
- Error text: `fmt.Errorf` wrapping is shown only by the error constructor (`MainKeyFailed`, `BackupKeyFailed`, `RandomReadFailed`), not by the message text.
- The RTMP library: `rtmp.Dial`, `ClientConn`, `Stream`, the connect and publish message structs, and `ConnConfig` are replaced by the abstract `Event`s and their oracle outcomes.
- The outbound close calls: the errors returned by `Close` are ignored by the code, so the model has no parameter for them.
- Payload reading: `io.Copy` into a buffer is modelled by its outcome, the whole payload or an error.
- Logging: every `log.Printf` call.
- The other `rtmp.Handler` callbacks that `DefaultHandler` supplies.
- Unused timestamps: OnConnect and OnPublish receive a timestamp they do not use. The model has the parameter and does not use it either.
- `Logger.SlogLevelParser`: lowercases ASCII only. Go's `strings.ToLower` also maps a few non-ASCII letters to ASCII ones (U+0130 to 'i', U+212A to 'k'), so Go accepts "İNFO", but the model rejects it.
- Logger setup: `SlogInit` in logger/logger.go (the writer choice, lumberjack file rotation and slog handler setup) is side-effecting setup and is not part of this model.
- Other files, each not part of this model:
  - server/api_server.go: HTTP routing, and its `isNew` wall-clock heuristic.
  - server/rtmp_server.go: the TCP listener and the connection counters.
  - config/config.go: environment loading.
  - main.go: process wiring.
  - models/types.go: data transfer structs.
- Strings: `cpk` and key values are `seq<char>`. For the ASCII text the code produces and compares, this is the same as Go's byte strings.
