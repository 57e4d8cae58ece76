# A verified model of the go-my-metrics-service pipeline

go-my-metrics-service moves metrics from an agent to a server:

- The agent samples runtime and system metrics into an in-memory store.
- It sends the store as JSON batches over HTTP, or as protobuf batches over gRPC.
- A batch may be gzip-compressed, RSA-encrypted or signed with HMAC-SHA256.
- The server files each record into one of four map-backed stores. A gauge overwrites; a counter accumulates with Go's wrapping int64 addition.
- The server can snapshot the store to a JSON file and restore it at start-up.
- Both programs read their configuration from the environment, the command line, a JSON file and built-in defaults, in that order of precedence.

This project models that pipeline in Dafny, with the concurrency removed.

- Every store method runs under a mutex in Go. The sequential model is the linearised behaviour.
- A mutable Go object is a Dafny `class` whose methods have `modifies` clauses. Examples: the stores, the snapshot file, the worker pool, the request under construction.
- Each method is proved against a function of the old state, and the properties the program promises are lemmas about those functions.
- The code's own early-return searches and loops are `while` loops with invariants. Examples: the `coalesce*` helpers, the map-to-slice conversions, the batch loops, the retry loop, the load loop, the queue drain.

Opaque parameters stand for the parts the model does not compute:

- Foreign computations are function-valued parameters: JSON marshalling, gzip, RSA, HMAC-SHA256, and float parsing and printing.
- A gauge value is the 64-bit pattern of its float. No float arithmetic is needed.
- Inputs stand for the outcome of each system call, network attempt and file read.
- A Go panic is an outcome of its own:
  - a nil dereference of a record's payload;
  - `AddCounter` on a name that holds a gauge;
  - a failed `VirtualMemory` call, whose nil result the collector dereferences.

  In the batch loops, the records applied before a panic stay in the store.

Three behaviours of the code are easy to misread:

- **Shutdown drain.** Shutdown does not stop at the batches the workers have already taken. Each worker's `range` loop also drains every batch still buffered in the channel, and `WorkerPool.Pool.Shutdown` proves that.
- **Restoring from a malformed file.** A decode error after some objects keeps what those objects installed. The decode target map is reused, so later objects merge into earlier ones. After the first object that map is also the store's own map, so the entries a failing call had already stored (the rest of an object with one mistyped field, that field holding its zero value) stay in the store too.
- **Ambiguous payloads.** Request bodies are bound without checking the payload against the type tag. A missing payload panics, and an unknown tag is answered with 400.

Two consequences of the code are worth knowing:

- **Intervals can wrap.** `time.Duration(n) * time.Second` wraps. A configured interval of more than 9223372036 seconds becomes a negative duration (`ServerFlags.StoreIntervalWraps`). The at-least-one-second guarantee therefore holds only up to that bound.
- **Restore comes only from the environment.** The server's Restore setting is true only when RESTORE is set to true. The `-r` flag, the file and the default `true` never count, because `coalesceBoolPtr` returns its first argument.

## Model

| member | source | states |
|---|---|---|
| Model.RecordDoesNotEnforceShape | internal/model/metrics.go:3-8 | the record type admits an unknown tag, and both payloads at once; only the stores establish the one-payload shape |
| Model.ToJson | internal/model/metrics.go:4-7 | marshalling fails exactly when the gauge payload is NaN or infinite; otherwise the object starts with the `id` and `type` members, holding the record's id and tag |
| Model.NonFiniteNotEncoded | internal/model/metrics.go:7 | a NaN, +Inf or -Inf gauge cannot be encoded, and a counter always can |
| Model.ToJsonNames | internal/model/metrics.go:6-7 | `id` and `type` are always present; `delta` and `value` are present exactly when the payload is set |
| Model.ToJsonDistinct | internal/model/metrics.go:4-7 | the members of an encoded record have names distinct even up to case, in the struct's field order |
| Model.ToJsonLookup | internal/model/metrics.go:4-7 | decoding each field name of an encoded record finds the record's own field, and an absent payload is absent |
| Model.FromJson | internal/model/metrics.go:3-8 | decoding succeeds exactly when `id` and `type` are strings, `delta` an integer and `value` a number, each where present; a payload is set exactly when its member is present |
| Model.FromJsonExample | internal/model/metrics.go:3-8 | `{"ID": "x", "Type": "gauge", "value": 5}` decodes to gauge x with value 5.0, names matched up to case; a fractional `delta` is an error |
| Model.JsonRoundTrip | internal/model/metrics.go:3-8 | every record the encoder accepts survives a JSON round trip, with absent payloads staying absent |
| StoreSpec.SetGaugeEffect | internal/storage/memstorage.go:33-37 | after `SetGauge(n, v)` entry n is the gauge record with value v and no delta; every other key is unchanged; well-formedness is kept |
| StoreSpec.SetGauge | internal/storage/memstorage.go:33-37 | the map after `SetGauge(n, v)`: entry n replaced by the gauge record; its effect is proved in `StoreSpec.SetGaugeEffect` |
| StoreSpec.AddCounter | internal/storage/memstorage.go:41-52 | the map after `AddCounter(n, d)`, defined only when the entry under n has a Delta; its effect is proved in `StoreSpec.AddCounterEffect` |
| StoreSpec.AddCounterEffect | internal/storage/memstorage.go:41-52 | an absent key gets delta v, an existing counter its old delta plus v (wrapping); other keys unchanged; the key stays addable |
| StoreSpec.SetGaugeLastWriteWins | internal/storage/memstorage.go:33-37 | `SetGauge(n, a)` then `SetGauge(n, b)` equals `SetGauge(n, b)` |
| StoreSpec.TotalIsWrappedSum | internal/storage/memstorage.go:45 | wrapping at every addition gives the exact sum wrapped once |
| StoreSpec.AddCountersTotal | internal/storage/memstorage.go:41-52 | a run of `AddCounter` calls on a key holding d stores the wrapped running total, and nothing else changes |
| StoreSpec.AddCountersExisting | internal/storage/memstorage.go:45-49 | on a key holding d, a run of deltas stores d plus their sum, modulo 2^64 |
| StoreSpec.AddCountersFresh | internal/storage/memstorage.go:45-49 | on a fresh key, any non-empty run of deltas stores their sum, modulo 2^64 |
| StoreSpec.AddCountersOrderIndependent | internal/storage/memstorage.go:45-49 | the store after a run of counter updates to one key does not depend on their order |
| StoreSpec.AddCountersExample | internal/storage/memstorage.go:45-49 | deltas 3, 4, 5 total 12, and 5, 3, 4 leave the same store |
| Int64.Add | internal/storage/memstorage.go:45 | Go's int64 `+`: the exact sum when it fits, and otherwise the sum moved by 2^64 |
| Int64.AddCommutesAndAssociates | internal/storage/memstorage.go:45 | wrapping addition is commutative and associative, so counter totals do not depend on grouping |
| StorageMem.MemStorage.constructor | internal/storage/memstorage.go:19-23 | a new store is empty |
| StorageMem.MemStorage.GetMetrics | internal/storage/memstorage.go:26-30 | returns the store's map itself |
| StorageMem.MemStorage.SetGauge | internal/storage/memstorage.go:33-37 | entry n becomes the gauge record with value v; every other entry is unchanged |
| StorageMem.MemStorage.AddCounter | internal/storage/memstorage.go:41-52 | an absent n gets delta v, an existing n its delta plus v, wrapping; the nil-Delta dereference is a precondition |
| StorageMem.MemStorage.Ping | internal/storage/memstorage.go:55-57 | always returns an error |
| StorageFile.FileStorage.constructor | internal/storage/filestorage.go:28-30 | the store is allocated empty |
| StorageFile.FileStorage.GetMetrics | internal/storage/filestorage.go:52-56 | returns the store's map itself |
| StorageFile.FileStorage.SetGauge | internal/storage/filestorage.go:59-63 | the same gauge overwrite as the memory store |
| StorageFile.FileStorage.AddCounter | internal/storage/filestorage.go:66-77 | the same counter accumulation as the memory store, including the nil-Delta precondition |
| StorageFile.FileStorage.Ping | internal/storage/filestorage.go:80-82 | always returns an error |
| StorageFile.FileStorage.Save | internal/storage/filestorage.go:85-103 | truncate, seek, encode, each failure returning at once; the file ends as `Persist.SaveEffect` says |
| StorageFile.FileStorage.Load | internal/storage/filestorage.go:106-126 | a failed seek changes nothing; otherwise the store is unchanged when no map was installed, else the last map installed before EOF or the first error, plus the entries the failing call stored into that shared map; the file is not modified |
| StorageFile.NewFileStorage | internal/storage/filestorage.go:26-49 | a failed open gives an error and no store; otherwise a fresh store, loaded from the file only when restore is set |
| StorageFile.RestartAfterSave | internal/storage/filestorage.go:85-126 | a store saved successfully and reopened with restore holds exactly the saved contents, given the codec laws |
| Persist.DecodeInto | internal/storage/filestorage.go:112-114 | decoding into the reused target keeps the target's keys and takes the decoded entries over them |
| Persist.Installs | internal/storage/filestorage.go:113-125 | one install per object decoded before the first EOF or error; nothing after that step is read |
| Persist.Loaded | internal/storage/filestorage.go:106-126 | the store after the load loop: unchanged without an install, else the last install plus the failing call's partial entries; proved in `Persist.LoadedStop` |
| Persist.InstallsLast | internal/storage/filestorage.go:113-125 | after a run of objects, the last install is all of them merged into the entry target, later objects winning |
| Persist.InstallsStop | internal/storage/filestorage.go:113-121 | loading stops at the first EOF or error: exactly the objects before it are installed |
| Persist.LoadedStop | internal/storage/filestorage.go:110-125 | with no object before the stop the store is unchanged; otherwise it holds every object merged, the later winning, plus what a failing call had stored; nothing after the stop is read |
| Persist.LoadTypeErrorExample | internal/storage/filestorage.go:110-125 | a second object with a mistyped gauge value leaves that entry in the store, with Value 0 because the decoder allocates the pointer before the type check; the same error on the first object leaves the store as it was |
| Persist.LoadedDiscardsPrior | internal/storage/filestorage.go:122-124 | once an object is decoded, the store's prior contents have no effect, and its keys are kept |
| Persist.InstallsGrow | internal/storage/filestorage.go:112-123 | because the decode target is reused, no later install drops a key an earlier one held |
| Persist.InstallsAt | internal/storage/filestorage.go:113-125 | each install is the decoded object merged into the previous install |
| Persist.SaveEffect | internal/storage/filestorage.go:85-103 | a failed truncate leaves the file as it was; a failed seek or encode leaves it empty and nothing is written; success leaves exactly the encoded bytes |
| Persist.SaveThenLoad | internal/storage/filestorage.go:98-123 | a successful save followed by a load into any store yields exactly the saved map, given that decode inverts encode |
| Persist.FailedSaveLoadsNothing | internal/storage/filestorage.go:86-101 | a save that truncated but then failed leaves a file that loads as nothing |
| FileStore.Save | internal/filestore/filestore.go:43-61 | the same truncate, seek, encode chain over the store's contents, with early exits |
| FileStore.Load | internal/filestore/filestore.go:63-81 | makes one `SetMetrics` call per object decoded before EOF or an error, each passing the reused target; a failed seek makes none |
| FileStore.Enable | internal/filestore/filestore.go:18-41 | an empty path or a failed open does nothing; restore off makes no call; otherwise the file is loaded; saves are scheduled exactly when the file opened |
| FileStore.ReplayLast | internal/filestore/filestore.go:79 | replacing the store once per call leaves the last map passed |
| FileStore.Replay | internal/interfaces/Storage.go:9 | a run of `SetMetrics` calls, each replacing the whole store; proved in `FileStore.ReplayLast` |
| FileStore.ReplayAgreesWithLoaded | internal/filestore/filestore.go:68-80 | replaying the SetMetrics calls leaves the file storage's loaded store minus what a failing call stored into the shared target; at EOF the two agree |
| TwoMaps.SetValue | internal/repo/repo.go:32 | `Gauge[n] = v` adds n, holds v, and keeps every other gauge |
| TwoMaps.AddValue | internal/repo/repo.go:38-43 | a present key gets the old value plus v (wrapping), an absent one v; other counters are kept |
| TwoMaps.AddCounterAgrees | internal/repo/repo.go:36-45 | on counters the single-map and two-map stores agree |
| TwoMaps.SetGaugeAgrees | internal/repo/repo.go:30-34 | on gauges the single-map and two-map stores agree |
| TwoMaps.AddCounterDropsGauge | internal/storage/memstorage.go:46-49 | where they differ: a counter write to a single-map store removes a gauge of that name |
| TwoMaps.SetGaugeDropsCounter | internal/storage/memstorage.go:33-37 | where they differ: a gauge write to a single-map store removes a counter of that name |
| Repo.MemStorage.NewStorage | internal/repo/repo.go:11-16 | both maps start empty |
| Repo.MemStorage.GetCounter | internal/repo/repo.go:18-22 | returns the counter map itself |
| Repo.MemStorage.GetGauge | internal/repo/repo.go:24-28 | returns the gauge map itself |
| Repo.MemStorage.SetGauge | internal/repo/repo.go:30-34 | overwrites `Gauge[n]` and leaves the counter map untouched |
| Repo.MemStorage.AddCounter | internal/repo/repo.go:36-45 | an absent key gets v, a present key old plus v; the gauge map is untouched |
| Repo.GaugeLastWriteWins | internal/repo/repo_test.go:19-35 | setting 5.0 and then 6.7 reads 6.7 |
| Repo.SameNameBothKinds | internal/repo/repo.go:30-45 | one name can be a gauge and a counter at once, each in its own map |
| Db.MemStorage.constructor | internal/db/storage.go:5-9 | the struct literal: either map may be nil |
| Db.MemStorage.SetGauge | internal/db/storage.go:16-22 | sets `Gauge[n] = v` and never touches the counter map; the gauge map must be non-nil |
| Db.MemStorage.AddCounter | internal/db/storage.go:24-35 | a present key gets val plus v, an absent key v; the gauge map is never touched; the counter map must be non-nil |
| StorageFactory.Select | internal/storage/storage.go:15-29 | a DSN selects the database, or panics when it is unreachable; else a path selects the file store exactly when it opens; else memory |
| StorageFactory.DsnNeverFallsBack | internal/storage/storage.go:16-18 | with a DSN, neither the file store nor memory is ever chosen, and only a DSN can panic |
| StorageFactory.NewStorage | internal/storage/storage.go:15-29 | the store built is of the selected backend: a fresh empty memory store, or a file store restored as its constructor says |
| Collector.SetGaugesKeys | internal/collector/collector.go:16-42 | a run of gauge writes adds exactly its names and leaves every other entry alone |
| Collector.SetGaugesBy | internal/collector/collector.go:16-42 | when each value is its name's field of one sample, every name ends up holding that field |
| Collector.SetGaugesDistinct | internal/collector/collector.go:16-42 | with distinct names, every name ends up holding its own value |
| Collector.Sampled | internal/collector/collector.go:14-42 | the values written are the sample's fields, one per name in order |
| Collector.RuntimeGaugesDisjoint | internal/collector/collector.go:16-45 | PollCount and RandomValue are not among the runtime gauge names |
| Collector.PollCountNotRuntime | internal/collector/collector.go:44 | PollCount is not a runtime gauge name |
| Collector.RandomValueNotRuntime | internal/collector/collector.go:45 | RandomValue is not a runtime gauge name |
| Collector.PollCountEffect | internal/collector/collector.go:44 | one poll raises PollCount by exactly one (wrapping), or starts it at 1 |
| Collector.PollGaugesEffect | internal/collector/collector.go:16-45 | one poll stores each runtime sample and the random value as gauges |
| Collector.PollKeysEffect | internal/collector/collector.go:16-45 | one poll writes exactly the gauge names, PollCount and RandomValue; every other entry is unchanged |
| Collector.PollEffect | internal/collector/collector.go:13-46 | the three effects of `UpdateMetrics` over its 27 runtime gauges |
| Collector.Poll | internal/collector/collector.go:13-46 | the store after `UpdateMetrics`: the 27 runtime gauges, PollCount += 1, RandomValue; proved in `Collector.PollEffect` |
| Collector.Polls | internal/collector/collector.go:13-46 | a run of polls keeps PollCount addable |
| Collector.PollCountCounts | internal/collector/collector.go:44 | after k polls of a store without PollCount, it holds k modulo 2^64 |
| Collector.WriteSampled | internal/collector/collector.go:16-42 | the gauge writes leave the store of `SetGauge(name, sample field)` for each name in order |
| Collector.UpdateMetrics | internal/collector/collector.go:13-46 | the store after the call is one poll of the old store |
| Collector.CpuNames | internal/collector/collector.go:55-57 | one name per CPU, `CPUutilization` followed by its 1-based number |
| Collector.CpuNamesDistinct | internal/collector/collector.go:56 | the CPU gauge names never collide with each other or with the memory gauges |
| Collector.ExtraPollValues | internal/collector/collector.go:51-57 | TotalMemory, FreeMemory and one gauge per CPU sample hold the samples |
| Collector.ExtraPollKeys | internal/collector/collector.go:48-58 | exactly those names are written; every other entry is unchanged |
| Collector.ExtraPoll | internal/collector/collector.go:48-58 | the store after a successful `UpdateExtraMetrics`; proved in `Collector.ExtraPollValues` and `Collector.ExtraPollKeys` |
| Strconv.Itoa | internal/collector/collector.go:56 | the decimal text of an integer: at least one character, digits only for n >= 0, a leading '-' otherwise |
| Collector.UpdateExtraMetrics | internal/collector/collector.go:48-58 | panics with the store unchanged exactly when `VirtualMemory` fails (its nil stat is dereferenced); otherwise the store after the call is the extra poll of the old store |
| Strconv.ItoaInjective | internal/collector/collector.go:56 | distinct CPU numbers print differently |
| Sender.GzipIsSupported | internal/sender/sender.go:128-139 | false on a failed probe; otherwise true exactly when the Content-Encoding answered is gzip |
| Sender.SingleMetricURL | internal/sender/sender.go:141-149 | the URL starts with the base URL |
| Sender.SingleMetricURLSegments | internal/sender/sender.go:141-149 | after the base, the URL splits into exactly type, id and the printed value: Value for a gauge, Delta otherwise |
| Sender.RouteOf | internal/sender/sender.go:220-245 | gzip exactly when compressing without an RSA key; RSA whenever a key is present; plain otherwise |
| Sender.ShapeFails | internal/sender/sender.go:220-245 | nothing is sent exactly when the compression or encryption the route calls for fails |
| Sender.ShapeHeaders | internal/sender/sender.go:220-252 | Content-Type is octet-stream only with RSA, else JSON; Content-Encoding gzip only on the gzip route; HashSHA256 exactly when signing, over the JSON; no other header |
| Sender.ShapeBody | internal/sender/sender.go:218-254 | the body is the compressed JSON, the encrypted JSON, or the JSON itself, by route |
| Sender.Shape | internal/sender/sender.go:215-252 | the request built from the JSON, or none when gzip or RSA fails; proved in `Sender.ShapeFails`, `Sender.ShapeHeaders` and `Sender.ShapeBody` |
| Sender.Request.constructor | internal/sender/sender.go:216 | a new request has no headers and no body |
| Sender.Request.SetHeader | internal/sender/sender.go:222 | sets one header |
| Sender.Request.SetBody | internal/sender/sender.go:254 | sets the body |
| Sender.ShapeRequest | internal/sender/sender.go:215-254 | the request built step by step is the one the decision table gives, or none when a step fails |
| Sender.ToSlice | internal/sender/sender.go:204-207 | exactly one element per map entry, in the order the keys were visited |
| Sender.Backoff | internal/sender/sender.go:267-278 | one sleep per failed attempt |
| Sender.BackoffTotal | internal/sender/sender.go:267-278 | the sleeps 1, 3, 5, ... after n failures total n*n seconds |
| Sender.Retried | internal/sender/sender.go:262-281 | what the retry loop did: 1 to 3 attempts, success only on a 200 at the last one, every earlier one failed, sleeps 1, 3, 5 after each failure; `Sender.PostWithRetry` establishes it |
| Sender.PostWithRetry | internal/sender/sender.go:266-281 | at most 3 attempts, stopping at the first status 200; a failure sleeps 1, 3, 5 s, the last included (9 s after three) |
| Sender.SendPostBatchRequest | internal/sender/sender.go:197-262 | the batch slice lists each entry once; marshal failure sends nothing; otherwise the shaped request is posted with retries |
| Sender.Send | internal/sender/sender.go:64-78 | a failed key load is fatal; otherwise gzip support is probed afresh and the slice lists every store entry exactly once, in visit order, and is sent as one batch to the updates URL |
| Signing.CalculateHash | internal/sender/sender.go:191-195 | the hash is the hex of the MAC, two digits per byte |
| Signing.HashesAgree | internal/middleware/middleware.go:130-131 | two hash strings are equal exactly when the two MACs are |
| Proto.WrapMetric | internal/server/grpcserver/grpcserver.go:90-107 | id and type copied; Value only for a gauge that has one and Delta only for a counter that has one, else 0 |
| Proto.Record | internal/server/grpcserver/grpcserver.go:58-62 | a message of known type stands for a record with its id and tag and the one payload its tag names |
| Proto.WrapMetricRoundTrip | internal/server/grpcserver/grpcserver.go:94-105 | a well-shaped record survives the trip through a message unchanged |
| Proto.WrapMetricZeroesMissingValue | internal/server/grpcserver/grpcserver.go:97-102 | a gauge without a value arrives as the gauge 0.0 |
| GrpcSender.ConvertBatch | internal/sender/grpcsender.go:27-40 | one message per map entry in visit order, each exactly the server's `wrapMetric` of the entry |
| WorkerPool.Pool.New | internal/workerpool/workerpool.go:18-30 | an open, empty queue whose capacity is the worker count |
| WorkerPool.Pool.Submit | internal/workerpool/workerpool.go:33-40 | accepted exactly when the buffer has room, appending at the tail; a full buffer is unchanged; requires the pool open |
| WorkerPool.Pool.Take | internal/workerpool/workerpool.go:48-52 | a worker receives the oldest batch (FIFO) and sends it |
| WorkerPool.Pool.Shutdown | internal/workerpool/workerpool.go:43-46 | closes the queue, and every batch queued is still sent, in queue order, before it returns |
| Ingest.ApplyRecord | internal/service/service.go:172-181 | an unknown type is skipped; a nil payload or a counter onto a gauge panics; otherwise the record is filed |
| Ingest.ApplyRecordEffect | internal/service/service.go:173-177 | a gauge is filed with its Value, a counter with the old total plus its Delta; other entries and well-formedness kept |
| Ingest.ApplyBatch | internal/service/service.go:172-182 | the batch loop: records in order, unknown types flagged and skipped, a panic ending the loop; proved in `Ingest.ApplyBatchAppend` and its neighbours |
| Ingest.ApplyBatchAppend | internal/service/service.go:172-182 | applying x and then y equals applying x + y |
| Ingest.ApplyBatchIgnoresFlag | internal/service/service.go:178-181 | the store a batch leaves does not depend on whether a 400 was already written |
| Ingest.ApplyBatchSkipsUnknown | internal/service/service.go:178-181 | an unknown-type record changes nothing, does not stop the loop, and makes the status 400 |
| Ingest.UnknownSeenStays | internal/service/service.go:178-184 | once a 400 is written it stays, whatever follows |
| Ingest.PanicKeepsEarlier | internal/service/service.go:172-177 | a panicking record keeps every earlier record applied and applies no later one |
| Ingest.ApplyBatchWellFormed | internal/service/service.go:172-177 | a batch keeps a well-formed store well-formed |
| Ingest.ApplyMessage | internal/server/grpcserver/grpcserver.go:77-84 | an unknown type is skipped; a counter onto a gauge panics; otherwise the message is filed |
| Ingest.ApplyMessages | internal/server/grpcserver/grpcserver.go:76-85 | the gRPC batch loop: messages in order, unknown types skipped, None on a panic; proved in `Ingest.ApplyMessagesAppend` |
| Ingest.ApplyMessagesAppend | internal/server/grpcserver/grpcserver.go:76-85 | applying a then b equals applying a + b |
| Ingest.ApplyWrapped | internal/server/grpcserver/grpcserver.go:76-85 | the message the agent makes of a well-shaped record is filed as the record itself would be |
| Ingest.GrpcAgreesWithHttp | internal/server/grpcserver/grpcserver.go:75-87 | a batch of well-shaped records sent as messages leaves the store the HTTP batch loop leaves, and panics exactly when it does |
| Service.PingHandler | internal/service/service.go:26-35 | 200 "pong" exactly when `Ping` returns nil, else 500 |
| Service.ValueHandler | internal/service/service.go:85-101 | 404 for an absent name; else the payload the URL's type selects, a panic when it is nil; proved in `Service.ValueHandlerNotFound` and `Service.ValueHandlerByUrlType` |
| Service.UpdateHandler | internal/service/service.go:104-127 | status and store of the URL update; proved in `Service.UpdateHandlerEffect` |
| Service.UpdateJSONHandler | internal/service/service.go:145-163 | status, reply and store of the JSON update; proved in `Service.UpdateJSONReturnsStored` |
| Service.UpdateBatchHandler | internal/service/service.go:166-185 | 400 on a binding error with the store unchanged; else the batch loop's store, 400 if an unknown type was seen, 200 otherwise |
| Service.ValueHandlerNotFound | internal/service/service.go:89-100 | 404 exactly when the name is absent, whatever the URL type |
| Service.ValueHandlerByUrlType | internal/service/service.go:89-96 | the URL's type picks the payload: a counter reads through any non-gauge type, and a gauge read as a non-gauge panics |
| Service.ValueJSONHandler | internal/service/service.go:130-142 | 400 exactly on a binding error; else 200 with the stored record when the id is present, 404 otherwise |
| Service.UpdateHandlerEffect | internal/service/service.go:104-127 | a parse failure or an unknown type gives 400 and leaves the store unchanged; a parsed value gives 200 after SetGauge or AddCounter |
| Service.UpdateJSONReturnsStored | internal/service/service.go:152-162 | a successful update replies with the record as stored, e.g. a counter's accumulated total, which a later lookup also returns |
| Service.UpdateBatchExample | internal/service/service_test.go:142-154 | the handler test's batch files a gauge and a counter and answers 200 |
| Service.UpdateBatchAccumulates | internal/service/service.go:172-177 | two deltas 5 and 10 for one counter in one batch store 15 |
| Service.ScenarioBatchStore | internal/service/service.go:166-185 | posting PollCount += 5 and Alloc := v answers 200, adds 5 to the running total and overwrites Alloc |
| Service.EndToEndScenario | internal/service/service.go:85-185 | post the batch: PollCount reads "5"; post it again: PollCount reads "10" and Alloc reads its printed value |
| Service.MetricsService.constructor | internal/service/service.go:21-23 | the service wraps the given store |
| Service.MetricsService.Ping | internal/service/service.go:26-35 | over the memory store the answer is always 500 |
| Service.MetricsService.Update | internal/service/service.go:104-127 | the outcome and the new store are those of the URL update handler |
| Service.MetricsService.File | internal/service/service.go:173-181 | the type switch through the store's methods equals `Ingest.ApplyRecord`; a skipped or panicking record leaves the store as it was |
| Service.MetricsService.UpdateJSON | internal/service/service.go:145-163 | the outcome and the new store are those of the JSON update handler |
| Service.MetricsService.UpdateBatch | internal/service/service.go:166-185 | the outcome and the new store are those of the batch handler |
| GrpcServer.GetMetric | internal/server/grpcserver/grpcserver.go:39-54 | `ErrNotFound` exactly when the name (or, for `GetMetricByJSON`, the id) is absent; otherwise the wrapped record |
| GrpcServer.UpdateMetricEffect | internal/server/grpcserver/grpcserver.go:57-72 | an unknown type gives `ErrBadType` and an unchanged store; otherwise the reply is the record now stored, which `GetMetric` returns too |
| GrpcServer.UpdateMetric | internal/server/grpcserver/grpcserver.go:57-72 | ErrBadType with the store unchanged for an unknown type, else the stored record after the update; proved in `GrpcServer.UpdateMetricEffect` |
| GrpcServer.UpdateMetricsBatch | internal/server/grpcserver/grpcserver.go:75-87 | the messages applied in order, unknown types skipped, no error returned; proved in `GrpcServer.UpdateMetricsBatchSkipsUnknown` |
| GrpcServer.Known | internal/server/grpcserver/grpcserver.go:77-83 | the messages of a known type, in order |
| GrpcServer.UpdateMetricsBatchSkipsUnknown | internal/server/grpcserver/grpcserver.go:76-85 | unknown-type messages are skipped: dropping them changes nothing |
| GrpcServer.Server.NewServer | internal/server/grpcserver/grpcserver.go:26-28 | the server wraps the given store |
| GrpcServer.Server.Ping | internal/server/grpcserver/grpcserver.go:31-36 | the store's error is passed on unchanged |
| GrpcServer.Server.File | internal/server/grpcserver/grpcserver.go:77-84 | the switch through the store's methods equals `Ingest.ApplyMessage` |
| GrpcServer.Server.Update | internal/server/grpcserver/grpcserver.go:57-72 | the reply and the new store are those of `UpdateMetric` |
| GrpcServer.Server.UpdateBatch | internal/server/grpcserver/grpcserver.go:75-87 | never fails: finishes with every known message applied in order, or panics |
| MetricsHandlers.ValueHandler | internal/metrics/metrics.go:12-32 | a gauge is looked up only in the gauge map, a counter only in the counter map, 404 when absent; any other type is 404 |
| MetricsHandlers.ValueHandlerOwnMap | internal/metrics/metrics.go:16-31 | a gauge lookup never consults the counter map, nor a counter lookup the gauge map |
| MetricsHandlers.UpdateHandlerEffect | internal/metrics/metrics.go:34-57 | a parse failure or an unknown type changes neither map; a parsed value goes to SetGauge or AddCounter, and a following lookup finds it |
| MetricsHandlers.UpdateHandler | internal/metrics/metrics.go:34-55 | status and both maps after the legacy update; proved in `MetricsHandlers.UpdateHandlerEffect` |
| MetricsHandlers.Update | internal/metrics/metrics.go:34-57 | the handler over the store object equals the functional handler |
| Middleware.CheckHashGuards | internal/middleware/middleware.go:105-142 | the handler runs exactly when the key is empty or the header is the body's hash, else 400; it sees the body unchanged; only verified requests get a response hash, over Content-Type, path and query |
| Middleware.CheckHash | internal/middleware/middleware.go:105-142 | the guard chain: empty key passes; a missing, unreadable or wrong hash gives 400 without the handler; else the handler runs and the response is signed; proved in `Middleware.CheckHashGuards` |
| Middleware.MissingHeaderRejected | internal/middleware/middleware.go:114-119 | with a key set, a request without the header gets 400 before the handler |
| Middleware.SignedBatchAccepted | internal/middleware/middleware.go:121-137 | a plain batch the agent signs with key k passes `CheckHash(k)`, and the handler reads exactly the signed JSON |
| Middleware.UnsignedBatchRejected | internal/middleware/middleware.go:114-118 | a compressed or encrypted batch carries no signature, so a server with a key rejects it |
| Middleware.WrongKeyRejected | internal/middleware/middleware.go:130-135 | a batch signed under a key whose MAC differs from the server's is rejected with 400 |
| Coalesce.CoalesceString | internal/server/flags/flags.go:146-153 | the loop returns the first non-empty argument, or "" (the agent's copy at internal/agent/flags/flags.go:131-138 is the same code) |
| Coalesce.FirstNonEmptyAt | internal/server/flags/flags.go:146-153 | the result is the argument at the first non-empty position |
| Coalesce.FirstNonEmptyEmpty | internal/server/flags/flags.go:146-153 | the result is "" exactly when every argument is |
| Coalesce.CoalesceInt | internal/server/flags/flags.go:155-162 | the loop returns the first strictly positive argument, or 0 (the agent's copy at internal/agent/flags/flags.go:140-147 is the same code) |
| Coalesce.FirstPositiveAt | internal/server/flags/flags.go:155-162 | the result is the argument at the first positive position; zero and negatives are skipped |
| Coalesce.FirstPositiveNone | internal/server/flags/flags.go:155-162 | the result is never negative, and is 0 exactly when no argument is positive |
| Coalesce.FirstPositiveIn | internal/server/flags/flags.go:155-162 | the result is one of the arguments, or 0 |
| Coalesce.FirstPositiveWithDefault | internal/server/flags/flags.go:93-98 | a positive last fallback makes the result positive |
| Coalesce.CoalesceBool | internal/server/flags/flags.go:164-169 | the first argument always, and false only for no arguments |
| ServerFlags.Parse | internal/server/flags/flags.go:54-130 | the configuration built, with `-c` reassigned from CONFIG, is `ParseConfig` of the inputs |
| ServerFlags.ParseConfig | internal/server/flags/flags.go:54-130 | each setting from env, flag, JSON file and default in that order, Restore by `coalesceBoolPtr`, Key without the file; proved in the `ServerFlags` lemmas |
| ServerFlags.RestoreOnlyFromEnv | internal/server/flags/flags.go:105-110 | Restore is true exactly when RESTORE is set to true; `-r`, the file and the default never count |
| ServerFlags.StoreIntervalPositive | internal/server/flags/flags.go:93-98 | the interval's seconds are at least 1 (non-positive values are skipped), and the duration is at least 1 s up to 9223372036 s |
| ServerFlags.StoreIntervalDefault | internal/server/flags/flags.go:16 | with nothing set, the interval is 300 s |
| ServerFlags.StoreIntervalWraps | internal/server/flags/flags.go:93-98 | 9223372037 s wraps to a negative duration |
| ServerFlags.KeyNeverFromJson | internal/server/flags/flags.go:117-122 | the key is KEY, else `-k`, else ""; the file never matters |
| ServerFlags.ConfigEnvOverridesFlag | internal/server/flags/flags.go:70-73 | with CONFIG set, `-c` makes no difference |
| ServerFlags.BadFileIsEmpty | internal/server/flags/flags.go:74-79 | an unreadable or malformed file gives the configuration of no file |
| ServerFlags.AddressShadowsJson | internal/server/flags/flags.go:82-92 | without ADDRESS, no `-a` gives the default address; the file's address counts only with `-a ""` |
| AgentFlags.GetFlags | internal/agent/flags/flags.go:51-115 | the flags built, with `-c` reassigned from CONFIG, are `FlagsOf` the inputs |
| AgentFlags.FlagsOf | internal/agent/flags/flags.go:51-115 | each setting from env, flag, JSON file and default in that order; proved in the `AgentFlags` lemmas |
| AgentFlags.RateLimitPositive | internal/agent/flags/flags.go:102-107 | the rate limit is at least 1, the last fallback being 3 |
| AgentFlags.IntervalsPositive | internal/agent/flags/flags.go:84-95 | both intervals are at least 1 s, up to 9223372036 s |
| AgentFlags.Defaults | internal/agent/flags/flags.go:13-21 | with nothing set, poll 2 s, report 10 s, rate limit 3 |
| AgentFlags.KeyFromJson | internal/agent/flags/flags.go:96-101 | with KEY and `-k` empty, the key is the file's |
| AgentFlags.AddressShadowsJson | internal/agent/flags/flags.go:78-83 | without ADDRESS, no `-a` gives the default address; the file's address counts only with `-a ""` |
| AgentFlags.ConfigEnvOverridesFlag | internal/agent/flags/flags.go:66-69 | with CONFIG set, `-c` makes no difference |
| AgentFlags.BadFileIsEmpty | internal/agent/flags/flags.go:70-75 | a failed load gives the flags of no file |

## Left out

- The `Storage` interface (internal/interfaces/interfaces.go:14-19, internal/interfaces/Storage.go:9) is not a Dafny entity, because the model is written without traits:
  - the handlers, the gRPC server and the collector take the memory store;
  - the file store's store operations are proved against the same map functions;
  - `filestore.FileStore` takes the store's contents as input and returns the `SetMetrics` calls it makes.
- `SetMetrics` has no implementation in the repository. `FileStore.Replay` gives it the replace-everything meaning.
- The map that the file storage's load loop shares with its decode target is modelled by value. When a decode call fails after an install, the loop copies the entries that call stored into the store explicitly. In Go they arrive through the shared map.
- Whether `SetMetrics` keeps a reference to the decode target is unknown without an implementation. `FileStore.ReplayAgreesWithLoaded` takes it to copy, so a failing call's partial entries do not reach that store.
- Goroutines, tickers, mutexes, signal handling and the periodic save tasks are not modelled; the save task is the one in `NewFileStorage` and `Enable`. The mutexes make each store call atomic, and that is the model.
- `MetricsSender.Run` and `NewSender` are not modelled, because they only loop over time and goroutines. `Send` is modelled, probe included.
- `sendPostWithJSONRequest` is not modelled, because it is called only from commented-out code.
- For `sendPostRequest`, only the URL is modelled; the post itself is network I/O.
- internal/storage/dbstorage.go and the PostgreSQL store are not modelled. Its behaviour is the database's, so the factory reports only which backend it picks.
- HMAC-SHA256 (RFC 2104), gzip (RFC 1952), RSA PKCS#1 v1.5 (section 7.2 of RFC 8017), and PEM and X.509 key loading are not modelled. They are opaque functions, and the key load is an input.
- The gzip, RSA-decrypt, IP-trust and logging middlewares are not modelled. They are wrappers over foreign code.
- JSON text (lexing, escaping, number printing) is not modelled. `Model.ToJson` and `Model.FromJson` work on objects as member lists. The file codec, the sender's marshalling and float parsing and formatting are abstract functions.
- Model.FromJson: members that are `null`, booleans, arrays or objects are not represented, so their effects (nil, or a type error) are not modelled.
- Model.FromJson: the literal `-0` counts as the integer 0, so a `value` written `-0` decodes to +0.0, where Go gives -0.0.
- Model.FromJson: a member that fails to decode makes the whole record an error; the fields Go fills before the error are not kept, since every caller discards the record on an error.
- The HTML of `IndexHandler` is not modelled, because it is presentation only.
- Gin writes a second body after a 400. Only the status is modelled, and it stays the first one written.
- Whether the response `HashSHA256` header still reaches the client after the handler has written its body is a Gin detail. It is not modelled.
- The gRPC and HTTP transports, timeouts and the `Fatalf` on a failed gRPC connection are not modelled.
- `wrapMetric`'s nil check is not modelled: every caller passes the address of a local, so it never fires.
- The process environment and flag set (`env.Parse`, `flag.Parse`, `os.LookupEnv`, `flag.Visit`) are inputs given as values. A malformed environment value, which is fatal in Go, is not modelled.
- Go's `int` is taken to be 64 bits wide.
- StorageMem.MemStorage.AddCounter: requires that no entry under the name lacks a Delta, instead of modelling the nil-dereference panic. The handlers and `Ingest` model that panic as an outcome.
- StorageFile.FileStorage.AddCounter: the same precondition instead of the panic.
- Db.MemStorage.SetGauge: requires a non-nil gauge map instead of modelling the panic on writing to a nil map.
- Db.MemStorage.AddCounter: requires a non-nil counter map instead of modelling that panic.
- Collector.UpdateMetrics: requires that PollCount does not hold a gauge, the same dereference as `AddCounter`.
- Sender.SingleMetricURL: requires the payload its tag selects, instead of modelling the nil-dereference panic.
- WorkerPool.Pool.Submit: requires an open pool instead of modelling the panic on sending to a closed channel.
- WorkerPool.Pool.Shutdown: requires an open pool instead of modelling the panic on closing twice.
