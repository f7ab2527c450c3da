# go-wms core in Dafny

A model of five pieces of the go-wms code base, with proofs of what they
promise.

- **The Redis advisory mutex** (`base/database/redis/sync.go`). The store is
  an abstract map from key to value and remaining lifetime in milliseconds
  (`RedisStore`). Its atomic commands are:
  - `SET … PX … NX`;
  - the three Lua scripts of the mutex (compare-and-`pexpire`, compare-and-`del`, compare-and-`pttl`);
  - an explicit step in which time passes and expired keys disappear.

  `RedisSync.Mutex` holds a key, a token and a 10 s lease. Its operations are
  `Lock`, `SpinLock`, `Unlock`, `TTL`, `Extend` and `obtain`. Each one is a
  round trip whose transport outcome is an input: delivered, request lost, or
  reply lost. `SpinLock` runs on a model clock that advances 100 ms between
  attempts; in each pause other clients may run any mix of commands and
  time steps, and the rest of the 100 ms then passes. The legacy behaviour is kept as
  written: `Lock` returns nil whatever happens, and `SpinLock` returns nil on
  a store error. `genValue` is the standard base64 encoding (section 4 of
  RFC 4648) of 16 random bytes, with the "default-value" fallback (`Base64`,
  `RedisSync.GenValue`).
- **The API runtime** (`api/runtime/api.go`):
  - the functional options;
  - `NewApi`, over an `Engine` modelled as a recorder of the calls it receives;
  - `RegisterRouter` and its path table;
  - the request dispatcher `engineBackHandler` (`RuntimeApi`).
- **The error wrapper** (`api/runtime/status.go`, `RuntimeStatus`).
- **The stored-procedure code generator** (`cmd/plugin/procedure/procedure.go`,
  `Procedure`):
  - `Camel2Case` over its rune buffer;
  - `Buffer.Append`;
  - `Generate`, which emits the interface, the struct and one implementation
    per "PrPs" message with its `call` template and argument list.
- **The gin router generator** (`cmd/protoc-gen-routers/plugin/pms/pms.go`,
  `Pms`):
  - `getRule` over the `google.api.HttpRule` pattern;
  - `typeEmpty`;
  - every line `generateService` emits: handler interface, router
    interface, struct, registration function, per-method handlers and
    helpers.

Each generator's output buffer is a `Generator.Printer`, a class with a
sequence of lines. Every emitting method is proved to append exactly the
lines a specification function describes. The lemmas beside those functions
state the properties. Where the generators take the protoc `generator`
package, its `CamelCase`, `TypeName` and `GetDescriptorProto` are
uninterpreted function parameters (`Gen`). Unicode case mapping is also a
parameter (`Cases`). `Procedure.AsciiFolds` shows that ASCII case mapping
meets the assumption the idempotence lemma needs.

## Model

| member | source | states |
|---|---|---|
| RedisStore.ExecSetNX | base/database/redis/sync.go:156-158 | SETNX writes key→token with the lease only when the key is absent and replies OK exactly then; a present key is left as it was; no other key changes |
| RedisStore.ExecExtend | base/database/redis/sync.go:15 | the extend script re-times the entry only when the stored value is the caller's token (reply 1), otherwise replies 0 and changes nothing; a non-positive lifetime deletes the key |
| RedisStore.ExecDelete | base/database/redis/sync.go:16 | the delete script removes the key exactly when it holds the caller's token (reply 1), otherwise replies 0 with the store unchanged |
| RedisStore.ExecPTTL | base/database/redis/sync.go:17 | the pttl script replies the remaining lease to the owner, -1 for a key without expiry, and -3 to anyone else |
| RedisStore.Tick | base/database/redis/sync.go:156-158 | time passing keeps exactly the keys whose lease outlives it, with their values and that much less time, and leaves no expired key |
| RedisStore.TickAdditive | base/database/redis/sync.go:156-158 | letting time pass in two stretches equals letting it pass at once |
| RedisStore.ForeignCommandKeepsHolder | base/database/redis/sync.go:15-17 | no command carrying another key or another token disturbs the holder's entry |
| RedisStore.HolderKeepsLock | base/database/redis/sync.go:15-17 | over any run of other clients' commands and time steps shorter than the lease, the holder keeps the key with its lease reduced by the elapsed time |
| RedisStore.MutualExclusion | base/database/redis/sync.go:156-158 | while the holder's lease lasts, no client with a different token finds the stored value equal to its own |
| RedisStore.OnlySetNXGrantsOwnership | base/database/redis/sync.go:15-17 | a token that does not hold a key comes to hold it only through a SETNX of that token on that key |
| RedisStore.Store.Send | base/database/redis/sync.go:156-158 | one round trip: the store executes the command unless the request is lost, and the client sees the reply only when delivered |
| RedisStore.Store.Advance | base/database/redis/sync.go:156-158 | the store's state after time passes is `Tick` of the old state |
| RedisStore.Store.Play | base/database/redis/sync.go:156-158 | other clients' commands and passing time are applied step by step, in order, each command atomically: the store ends as `Replay` of the run |
| Base64.Encode | base/database/redis/sync.go:166 | the encoding is 4 characters for every started group of 3 bytes |
| Base64.DecodeEncode | base/database/redis/sync.go:166 | decoding an encoding gives back the bytes |
| Base64.EncodePadding | base/database/redis/sync.go:166 | the text ends in "==" when one byte is left over, in one "=" when two are, and in no padding otherwise |
| Base64.EncodeInjective | base/database/redis/sync.go:166 | different byte strings have different encodings |
| RedisSync.GenValue | base/database/redis/sync.go:160-167 | the token is "default-value" when the random source fails, and otherwise a 24-character string ending in "==" that differs from the fallback |
| RedisSync.DistinctDrawsDistinctTokens | base/database/redis/sync.go:160-167 | two different random draws give two different tokens |
| RedisSync.SetExpiryMs | base/database/redis/sync.go:156-158 | a positive lease becomes a positive millisecond expiry and no lease means no expiry |
| RedisSync.ObtainResult | base/database/redis/sync.go:156-158 | `obtain` reports true exactly for an OK reply, and an error exactly when the round trip failed; a true result never carries an error, and a nil reply (key already held) gives (false, nil) |
| RedisSync.UnlockResult | base/database/redis/sync.go:115-129 | `Unlock` reports success exactly for reply 1 and then no error; a transport error is passed through; any other reply gives "lock not held" |
| RedisSync.TTLResult | base/database/redis/sync.go:131-143 | `TTL` is never negative; it is positive exactly for a positive integer reply and is then that many milliseconds; only a transport failure gives an error |
| RedisSync.ObtainSetsOnlyWhenAbsent | base/database/redis/sync.go:156-158 | a delivered `obtain` answers (key absent, nil), writes key→token with the 10 s lease when absent, and leaves the store unchanged when present |
| RedisSync.UnlockIsOwnershipGated | base/database/redis/sync.go:115-129 | `Unlock` deletes the key and returns (true, nil) iff the stored value is the token; otherwise it returns (false, "lock not held") with the store unchanged; a second `Unlock` returns "lock not held" |
| RedisSync.TTLReportsOwnLease | base/database/redis/sync.go:131-143 | `TTL` returns the owner's remaining lease, and 0 with no error for a non-owner or a key without expiry |
| RedisSync.ExtendRenewsOwnLease | base/database/redis/sync.go:145-154 | `Extend` resets the owner's lease to 10000 ms and returns nil; for anyone else it returns "not obtained" with the store unchanged; no other key changes |
| RedisSync.Spin | base/database/redis/sync.go:86-113 | the retry loop makes at least one and at most 100 attempts, records the store each attempt saw (the first is the starting store), and ends with no error or with "spin lock time out" |
| RedisSync.SpinRetriesOnlyWhenHeld | base/database/redis/sync.go:92-111 | every attempt but the last was delivered and found the key held by someone |
| RedisSync.SpinNilMeansAcquired | base/database/redis/sync.go:92-98 | when the loop returns nil after a delivered last attempt, that attempt found the key free and the caller now holds it |
| RedisSync.SpinTimeoutMeansHeld | base/database/redis/sync.go:107-111 | "spin lock time out" comes only after the 100th attempt, which was delivered, found the key held and left that store unchanged |
| RedisSync.SpinWaitsOutShortLease | base/database/redis/sync.go:86-113 | when the current holder's lease runs out before the deadline and each pause is only 100 ms passing with no other client, `SpinLock` acquires the lock |
| RedisSync.SpinTimesOutBehindLongLease | base/database/redis/sync.go:86-113 | behind a lease that outlives the deadline, with each pause only 100 ms passing, `SpinLock` times out after 100 attempts, leaving the holder in place |
| RedisSync.SpinLockNilOnStoreError | base/database/redis/sync.go:93-95 | a store error on the first attempt makes `SpinLock` return nil without the lock |
| RedisSync.Mutex.Obtain | base/database/redis/sync.go:156-158 | the store after `obtain` is the SETNX round trip applied to it, and the result is that round trip's `ObtainResult` |
| RedisSync.Mutex.Lock | base/database/redis/sync.go:75-84 | `Lock` returns nil in every outcome while performing the SETNX round trip |
| RedisSync.Mutex.Wait | base/database/redis/sync.go:100-111 | one pause: other clients' run is applied, then the rest of the 100 ms retry interval passes |
| RedisSync.Mutex.SpinLock | base/database/redis/sync.go:86-113 | the store and the error after `SpinLock` are those of the `Spin` loop specification |
| RedisSync.Mutex.Unlock | base/database/redis/sync.go:115-129 | the store after `Unlock` is the delete-script round trip applied to it; the result is its `UnlockResult` |
| RedisSync.Mutex.TTL | base/database/redis/sync.go:131-143 | `TTL` leaves the store unchanged and returns the `TTLResult` of the pttl-script round trip |
| RedisSync.Mutex.Extend | base/database/redis/sync.go:145-154 | the store after `Extend` is the extend-script round trip with 10000 ms; the error is its `ExtendResult` |
| RedisSync.Sync.NewMutex | base/database/redis/sync.go:66-73 | the new mutex is bound to the given key and the client's store, takes its token from `genValue`, has a 10 s lease and leaves the store untouched |
| RuntimeStatus.Status.Err | api/runtime/status.go:26-28 | the wrapped error reports the status's code and message |
| RuntimeStatus.Error | api/runtime/status.go:30-32 | `Error(c, msg)` has `Code()` c and `Error()` msg |
| RuntimeStatus.Errorf | api/runtime/status.go:34-36 | the code is kept and the message is the formatted string |
| RuntimeStatus.Code | api/runtime/status.go:38-40 | `Code(c)` has code c and an empty message |
| RuntimeStatus.ErrorFromAccessors | api/runtime/status.go:18-32 | every error is the one `Error` builds from its own code and message |
| RuntimeApi.LastPortWins | api/runtime/api.go:91-107 | the port is that of the last `WithPort` option, or 0 without one |
| RuntimeApi.LastEngineWins | api/runtime/api.go:85-107 | the engine is that of the last `WithEngine` option, or none without one |
| RuntimeApi.Configure | api/runtime/api.go:97-107 | applying the options in order leaves as chain the concatenation, in option order, of the functions of every `ChainMiddle` |
| RuntimeApi.ApplyOptions | api/runtime/api.go:103-107 | the option loop of `NewApi` builds the options `Configure` describes |
| RuntimeApi.UseEach | api/runtime/api.go:114-117 | one `Use` call per chained middleware, in order |
| RuntimeApi.MethodTablePaths | api/runtime/api.go:134-136 | the router's table has an entry for exactly the paths of its methods |
| RuntimeApi.MethodTableKeepsLast | api/runtime/api.go:134-136 | a path maps to the last method declared with it |
| RuntimeApi.RegistrationsFollowVerbs | api/runtime/api.go:137-141 | the engine receives one `POST` or `GET` call per POST or GET method, every such method's call is among them, and every such call comes from a method of that verb |
| RuntimeApi.RegistrationsInMethodOrder | api/runtime/api.go:137-141 | the registrations are, one for one and in order, the POST and GET methods of the descriptor list, each with its verb and path |
| RuntimeApi.FirstRouterCanHidePath | api/runtime/api.go:156-174 | with two routers, a path registered in one may be answered "not find register method" |
| RuntimeApi.NewApi | api/runtime/api.go:103-125 | the options are applied in order; the router table starts empty; the engine receives one `Use` per chained middleware in order, then exactly one `RegisterHandler` with the configured port |
| RuntimeApi.Api.RegisterRouter | api/runtime/api.go:127-145 | the service name now maps to a fresh router with the method table, replacing any earlier entry; the engine receives the POST and GET registrations in order |
| RuntimeApi.Api.UseChain | api/runtime/api.go:114-117 | the middleware loop of `NewApi` makes the engine's calls grow by exactly `UseEach` of the chain |
| RuntimeApi.Api.Use | api/runtime/api.go:147-149 | the middleware goes to the engine |
| RuntimeApi.Api.Run | api/runtime/api.go:151-154 | the engine is started |
| RuntimeApi.Api.EngineBackHandler | api/runtime/api.go:156-174 | the dispatcher returns (nil, nil) without routers; otherwise it returns whatever one router, picked in map order, answers |
| RuntimeApi.Api.FindHandler | api/runtime/api.go:156-174 | the corrected dispatcher invokes a handler iff some router has the path, and answers "not find register method" otherwise |
| Procedure.SnakeRuneByRune | cmd/plugin/procedure/procedure.go:252-265 | the converted name is the first rune lowered, followed by each later rune converted, an upper-case one preceded by '_' |
| Procedure.SnakeLength | cmd/plugin/procedure/procedure.go:252-265 | the output has one rune more than the input for every upper-case rune after the first position |
| Procedure.SnakeHasNoUpper | cmd/plugin/procedure/procedure.go:255-262 | the output has no upper-case rune |
| Procedure.SnakeKeepsLower | cmd/plugin/procedure/procedure.go:260-262 | a name without upper-case runes comes out unchanged |
| Procedure.SnakeIdempotent | cmd/plugin/procedure/procedure.go:252-265 | converting a converted name changes nothing |
| Procedure.AsciiFolds | cmd/plugin/procedure/procedure.go:255-259 | ASCII case mapping lowers every upper-case letter to a non-upper-case one and '_' is not upper case |
| Procedure.Camel2Case | cmd/plugin/procedure/procedure.go:252-265 | the buffer loop returns the snake-case name |
| Procedure.DigitsRoundTrip | cmd/plugin/procedure/procedure.go:277-284 | the decimal digits of a natural read back as that number |
| Procedure.FormatIntRoundTrip | cmd/plugin/procedure/procedure.go:277-284 | the decimal text of an integer, with its sign, reads back as that integer |
| Procedure.RuneText | cmd/plugin/procedure/procedure.go:289-290 | a rune appends exactly one character |
| Procedure.RenderFaithful | cmd/plugin/procedure/procedure.go:275-293 | a rune appends itself, an integer its decimal value, an unsupported argument nothing |
| Procedure.Buffer.Append | cmd/plugin/procedure/procedure.go:275-298 | `Append` returns the same buffer with the argument's text added at the end |
| Procedure.Buffer.String | cmd/plugin/procedure/procedure.go:264 | `String` returns the buffer's contents |
| Procedure.PrPsOnlyKeepsPrPs | cmd/plugin/procedure/procedure.go:52-55 | the filter keeps exactly the messages whose name starts with "PrPs" |
| Procedure.OnlyPrPsEmitted | cmd/plugin/procedure/procedure.go:52-112 | dropping the other messages changes neither the interface nor the implementations, and the interface has one line per "PrPs" message |
| Procedure.SlotsFollowFields | cmd/plugin/procedure/procedure.go:130-159 | each piece of the signature and the return statement is present exactly when the message has a field named req, rsp, result or total_count |
| Procedure.FillSlots | cmd/plugin/procedure/procedure.go:130-159 | the field loop fills the slots as `SlotsOf` describes |
| Procedure.CallArgs | cmd/plugin/procedure/procedure.go:171-201 | the nested loops build the call template pieces as `IvOf` describes |
| Procedure.IvOfDistinct | cmd/plugin/procedure/procedure.go:171-201 | the template ends in ", @ov_total_count" iff a total_count field exists; without a req field there are no placeholders, arguments or separator |
| Procedure.CallTemplate | cmd/plugin/procedure/procedure.go:176-196 | with a req field of a message type, the template has one ", ?" per field of that type and the argument list names each field joined by ", " with no trailing separator |
| Procedure.ArgListIsJoin | cmd/plugin/procedure/procedure.go:183-193 | the argument loop's text is the join of the req field names with ", " |
| Procedure.EmitRaw | cmd/plugin/procedure/procedure.go:203-227 | the call and the scan of its first result are emitted as `RawLines` describes |
| Procedure.EmitCall | cmd/plugin/procedure/procedure.go:203-236 | the whole query chain is emitted |
| Procedure.EmitImpl | cmd/plugin/procedure/procedure.go:162-248 | one implementation is emitted: signature and declarations, query chain, return |
| Procedure.EmitInterface | cmd/plugin/procedure/procedure.go:49-88 | the interface opening and one method per "PrPs" message are emitted |
| Procedure.EmitStruct | cmd/plugin/procedure/procedure.go:88-107 | the struct, its constructor and `GetRawDB` are emitted |
| Procedure.EmitImpls | cmd/plugin/procedure/procedure.go:109-248 | one implementation per "PrPs" message is emitted, in order |
| Procedure.Generate | cmd/plugin/procedure/procedure.go:42-250 | the file is the interface, the struct and the implementations |
| Pms.GetRule | cmd/protoc-gen-routers/plugin/pms/pms.go:272-308 | ("", "") without options or http extension; otherwise the verb and path of the rule's pattern; verb and path are both empty or both non-empty; the verb is one of DELETE, GET, PATCH, POST, PUT |
| Pms.EmptyTypesDropped | cmd/protoc-gen-routers/plugin/pms/pms.go:88-100 | a handler signature drops the request parameter exactly when the input type is `emptypb.Empty`, and the response result exactly when the output type is |
| Pms.HandlerSkipsUnrouted | cmd/protoc-gen-routers/plugin/pms/pms.go:78-103 | the handler interface has one line per method with a verb and a path, in order, and none for the others |
| Pms.RouterListsEveryMethod | cmd/protoc-gen-routers/plugin/pms/pms.go:107-113 | the router interface lists every method, with or without a rule |
| Pms.HttpOnlyMembers | cmd/protoc-gen-routers/plugin/pms/pms.go:123-129 | the registered methods are exactly those with the http extension |
| Pms.RegisterOnePerHttpMethod | cmd/protoc-gen-routers/plugin/pms/pms.go:119-131 | one `a.VERB("path", r.Name)` line per method with the http extension, in declaration order |
| Pms.ImplShape | cmd/protoc-gen-routers/plugin/pms/pms.go:134-246 | an unrouted method gets only its header; another verb gets the header and a blank line; only POST and GET handlers contain a closing brace |
| Pms.ClosedOnlyForPostAndGet | cmd/protoc-gen-routers/plugin/pms/pms.go:134-246 | a handler ends with its closing brace iff its method is routed with POST or GET |
| Pms.PutHandlerLeftOpen | cmd/protoc-gen-routers/plugin/pms/pms.go:137-246 | a PUT route leaves its handler function unclosed |
| Pms.ImplLinesClosed | cmd/protoc-gen-routers/plugin/pms/pms.go:134-246 | the corrected handler starts with the header and always ends with its closing brace; POST and GET handlers are unchanged |
| Pms.ImplsClosedBlocks | cmd/protoc-gen-routers/plugin/pms/pms.go:134-246 | with the correction, the handler section of a service with methods ends with a closing brace and is empty only without methods |
| Pms.StaleEntryRepeats | cmd/protoc-gen-routers/plugin/pms/pms.go:197-218 | a string field followed by a field of another type puts the string field's entry twice into the request literal |
| Pms.FieldsFixedEntries | cmd/protoc-gen-routers/plugin/pms/pms.go:197-218 | the corrected field loop builds one entry per int32 or string field, in the fields' order |
| Pms.FieldsFixedAgrees | cmd/protoc-gen-routers/plugin/pms/pms.go:197-218 | the correction writes the same query lines, and agrees with the loop as written when every field is int32 or string |
| Pms.EmitQueryFields | cmd/protoc-gen-routers/plugin/pms/pms.go:197-218 | the GET field loop emits the query lines and returns the `arg` the field-loop specification describes |
| Pms.EmitPost | cmd/protoc-gen-routers/plugin/pms/pms.go:142-184 | a POST handler binds the JSON request unless it is Empty, calls the handler, checks the error and answers with the response or "" |
| Pms.EmitGet | cmd/protoc-gen-routers/plugin/pms/pms.go:185-245 | a GET handler reads the query fields of a known request message, calls the handler and answers; with an Empty request it calls without arguments |
| Pms.EmitImpl | cmd/protoc-gen-routers/plugin/pms/pms.go:134-246 | one handler is emitted as `ImplLines` describes |
| Pms.EmitHandlers | cmd/protoc-gen-routers/plugin/pms/pms.go:76-105 | the handler interface section is emitted |
| Pms.EmitRouters | cmd/protoc-gen-routers/plugin/pms/pms.go:107-117 | the router interface and the router struct are emitted |
| Pms.EmitRegister | cmd/protoc-gen-routers/plugin/pms/pms.go:119-131 | the registration function is emitted |
| Pms.EmitHelpers | cmd/protoc-gen-routers/plugin/pms/pms.go:249-269 | `fail`, `success` and `returnBack` are emitted |
| Pms.GenerateService | cmd/protoc-gen-routers/plugin/pms/pms.go:64-270 | a service's output is the handler interface, the router section, the registration function, the handlers and the helpers, in that order |
| Pms.Generate | cmd/protoc-gen-routers/plugin/pms/pms.go:49-54 | the file's output is that of each service in order |

## Left out

- The Redis client, the network, latency, `context.WithTimeout` and the timers. Each round trip's fate is an input (`Transport`). The clock is the model's own: attempts at 0, 100, …, 9900 ms with no latency, and the deadline wins the tie at 10 s.
- Other clients' activity between two attempts is an input per attempt. When it lasts longer than the 100 ms retry interval, the model starts the next attempt after it, later than the real timer would.
- `crypto/rand` is an input (`Entropy`).
- Script replies of a non-integer type, and a negative `expiry` on a mutex. `NewMutex` always uses 10 s.
- `Errorf`'s `fmt.Sprintf` is a function parameter.
- `ErrLockFailed` is declared in the source but never returned.
- A nil engine makes `NewApi` panic in the source. The model states a non-nil engine as a precondition of `NewApi`, `Api.Use`, `Api.Run` and `Api.RegisterRouter`.
- `Run`'s console message is not modelled.
- Handlers, middleware and implementations are opaque names. The decoder and context passed to a handler are not modelled.
- `RegisterRouter` stores pointers into the caller's `rd.Methods`, so a later change to that slice would show through the table. The model copies the values.
- The engines, middleware and option setters in api/runtime/option.go (a second declaration of the same options) are not part of this model.
- Unicode case tables are a parameter (`Cases`). Idempotence holds for any case mapping that lowers every upper-case rune to a non-upper-case one, and ASCII does. Real Unicode has exceptions: U+03D2 is upper case with no lower-case mapping.
- Invalid UTF-8 in names is not modelled: names are sequences of runes.
- `Buffer.Append` of `string` and `[]byte` both append the text; bytes are taken as text.
- Go's fixed-width integer types are modelled by range. `strconv` formatting is modelled as sign plus decimal digits.
- `Procedure.Generate` keeps one quirk as written: with request arguments but no `rsp` or `result` field, the line "result := -1" is emitted inside the query chain.
- `RecordTypeUse`, `GenerateImports`, `Name`, `Init` and `objectNamed` of both plugins only register names with the protoc generator. The protoc `generator` package, with `CamelCase`, `TypeName` and `GetDescriptorProto`, is not part of this model; its functions are parameters.
- `HttpRule` fields other than the pattern (`body`, `response_body`, `additional_bindings`, `selector`) are not modelled. The pattern is a oneof, so at most one verb is set and the order of `getRule`'s switch cannot matter.
- The one `g.P` call with two arguments (cmd/protoc-gen-routers/plugin/pms/pms.go:116) is modelled as the single line it writes.

## Findings

| source | as written | input that shows it | evidently intended | confidence | as-written member | corrected member |
|---|---|---|---|---|---|---|
| api/runtime/api.go:161-172 | `engineBackHandler` returns from inside the loop over the routers, so it consults only the first router the map iteration visits | routers "User" with path "api/v1/login" and "Order" with "api/v1/list"; a request for "api/v1/login" visiting "Order" first is answered "not find register method" | look the path up in every router and fail only when none has it | high, not executed | RuntimeApi.FirstRouterCanHidePath | RuntimeApi.Api.FindHandler |
| cmd/protoc-gen-routers/plugin/pms/pms.go:137-246 | the closing brace of a generated handler is written only in the POST and GET branches; a method without a rule `continue`s after the header and other verbs fall through | a method with `put: "/item"` | every generated handler function closed | high, not executed | Pms.PutHandlerLeftOpen | Pms.ImplLinesClosed |
| cmd/protoc-gen-routers/plugin/pms/pms.go:197-218 | `reqField` is not reset per field, so a field that is neither int32 nor string appends the previous field's entry again | request fields `a` (string) then `b` (bool) give `arg` with the entry for `a` twice, a duplicate field in the struct literal | one entry per int32 or string field, nothing for the others | high, not executed | Pms.StaleEntryRepeats | Pms.FieldsFixedEntries |
