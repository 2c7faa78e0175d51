# go-monitor aggregation core, in Dafny

This project models the aggregation engine of the Go package `monitor`
(go-monitor) and proves properties of the model. The engine is what
applications record metrics into. It has these parts:

- **Interval bucket** (`OneMinStorage`). It holds ad-hoc values by name,
  updated by `Add`/`Set`. It also holds persistent accumulators
  (`SpecValue`: a sum, an int64 count and an optional t-digest) by metric
  identity, updated by `AddPersistent`/`SetPersistent`. Both updates branch
  on one of seven aggregation kinds.
- **Metric registry** (`MetricNameMap`). It maps names to identities,
  handing out `LastID + 1`, and keeps one descriptor per identity.
  Registering also seeds the current bucket's accumulator.
- **Rotation store** (`Storage`). `NextMonitor` does four things:
  - swaps in a fresh bucket seeded with one zeroed accumulator per
    registered identity;
  - files the old bucket in a ring of history slots;
  - steps the write cursor;
  - returns the old bucket.
- **Recording front end** (`MONITOR`). It routes calls to the current
  bucket. The `Record*` helpers hand back closures that finish a
  measurement.
- **Validators** of the monitor and writer configurations.
- **Text output shaping**: the values each kind renders, their suffixes,
  the tag string, and one line per value.
- **HTTP view**: the port check, the key lookup, and the history slot
  arithmetic.

Each Go file of the core is one module:

| module | file | form |
|---|---|---|
| `StoreStruct` | `store_struct.dfy` | datatypes and functions, plus the registry class `MetricNameMap` |
| `MinStorage` | `min_storage.dfy` | class `OneMinStorage` |
| `StorageCore` | `storage.dfy` | class `Storage`, with an array ring |
| `Methods` | `methods.dfy` | class `Monitor` |
| `MonitorConfig` | `config.dfy` | class `Config` |
| `Writers` | `writers.dfy` | class `WriterConfig`, plus functions |
| `TextWriters` | `text_writers.dfy` | loop methods specified by functions |
| `Web` | `web.dfy` | handler methods |

`Prelude` holds `Option`, `Result`, `int64` and `Sum`. `Errors` holds the
error values.

Modelling choices:

- A `float64` is a `real`. Only `+=` and `=` are applied to it.
- A count is an `int64`. `Count++` wraps at the top of the range (`Inc64`).
- The t-digest is the sequence of values it was fed.
- A nil `*SpecValue` is `None` in a `Slot`. Registering a kind outside the
  enumeration stores nil.
- The panics of the source are explicit outcomes that change nothing:
  - `Outcome.NilValue`: locking a nil value;
  - `Outcome.NilDigest`: adding to a missing digest;
  - `None` from `GetValueString`;
  - `ok == false` from `WriteTextSpecMetrics`;
  - `panicked` in `HandleMonitor`.
- Each closure that a `Record*` method returns becomes a `Recording` value.
  `Monitor.Finish(rec, elapsedMs)` runs it, with the elapsed time as a
  parameter.
- Map iteration order is unspecified. A loop over a map picks its keys in
  an arbitrary order, and its contract holds for every order.
- `SuffixMap` is read by text_writer.go:97 but is not defined in the files
  of this model. It is modelled as the kind's own suffix list from
  writer.go:47-67, and the nil slice for a kind outside the enumeration.

History versions follow the code of `NextMonitor` and `HandleHistory`:

- for history >= 1, the cursor visits slots 0..history-1, and slot
  `history` of the `history+1` slots is never written;
- at history 0 there is one slot, slot 0, and it is slot `history`. The
  source's first rotation writes it, and the second runs past the array
  (first row of "## Findings"). The model keeps writing slot 0;
- the history query works modulo `history`;
- version 0 selects the slot the next rotation will overwrite, which is the
  oldest retained bucket;
- version 1 selects the newest retired bucket.

`Storage.Valid` ties every ring slot to the bucket retired that many
rotations ago (`Retained`). `HandleHistory` is proved to return exactly
that bucket.

## Model

| member | source | states |
|---|---|---|
| `StoreStruct.InitSpecValue` | store_struct.go:126-144 | Succeeds exactly for kinds 0..6. Otherwise the error is `ErrUnexpectMetricType`. A fresh accumulator has sum 0 and count 0, and has an empty digest exactly when the kind is Quantile. |
| `StoreStruct.InitMetricName` | store_struct.go:50-57 | Name, kind, description and tags are kept verbatim. The sorted tag encoding (`GetSortedTags`) is empty. |
| `StoreStruct.NewBaseSpecValue` | store_struct.go:102-108 | Zero sum, zero count, no digest. |
| `StoreStruct.NewQuantileSpecValue` | store_struct.go:111-123 | Zero sum, zero count, and a digest that has been fed nothing. |
| `StoreStruct.MetricName.GetSortedTags` | store_struct.go:60-62 | Returns the stored sorted encoding as it is. It is not regenerated from the tags. |
| `StoreStruct.MetricNameMap.constructor` | store_struct.go:73-79 | Empty identity map, empty name map, `LastID` 0, and the registry invariant holds. |
| `Prelude.Inc64` | min_storage.go:50 | `Count++` on int64 adds one, except that it wraps from the maximum to the minimum. |
| `MinStorage.OneMinStorage.constructor` | min_storage.go:20-26 | A new bucket has both maps empty. |
| `MinStorage.OneMinStorage.Add` | min_storage.go:29-33 | The entry becomes its old value (0 when absent) plus `value`. No other entry changes, and the persistent map does not change. |
| `MinStorage.OneMinStorage.Set` | min_storage.go:72-76 | The entry becomes `value`. Nothing else changes. |
| `MinStorage.AddPersistentTo` | min_storage.go:36-68 | The update applies exactly when the id has a non-nil value and the kind can combine it, and the slot then becomes `Combine` of its value. Otherwise the map is unchanged: an absent id is reported as missing, a nil value as `NilValue`, and a Quantile without a digest as `NilDigest`. Only the addressed slot can change, and no slot appears or disappears. |
| `MinStorage.OneMinStorage.AddPersistent` | min_storage.go:36-68 | The outcome and the new persistent map are those of `AddPersistentTo`. The ad-hoc map is unchanged. |
| `MinStorage.SetPersistentTo` | min_storage.go:83-115 | The update applies exactly when the id has a non-nil value and the kind is not Quantile, and the slot then becomes `Overwrite` of its value. A missing id, a nil value and a Quantile set are each reported and leave the map unchanged. Only the addressed slot can change, and the key set is kept. |
| `MinStorage.Combine` | min_storage.go:43-61 | Base and Sum add the value to the sum. Avg, CountSum and CountAvg add it to the sum and count one more (int64 `++`). Count counts one more and ignores the value. Quantile feeds the value to the digest, and panics exactly when there is none. Any other kind changes nothing. Fields a kind does not name are kept. |
| `MinStorage.Overwrite` | min_storage.go:79-108 | Base and Sum set the sum to the value. Count sets the count to 1 and keeps the sum. Avg, CountSum and CountAvg set the sum to the value and the count to 1. Quantile and unknown kinds leave the accumulator as it was. The digest is never touched. |
| `MinStorage.SetThenAdds` | min_storage.go:79-108 | For Avg, CountSum and CountAvg, a set followed by n additions leaves sum = set value + the additions' total and count = 1 + n. |
| `MinStorage.SetPersistentIdempotent` | min_storage.go:83-115 | Setting the same value twice has the outcome and the map of setting it once. |
| `MinStorage.OneMinStorage.SetPersistent` | min_storage.go:83-115 | The outcome and the new persistent map are those of `SetPersistentTo`. The ad-hoc map is unchanged. |
| `MinStorage.FoldSum` | min_storage.go:43-47 | For Base and Sum, adding values one at a time raises the sum by their total and leaves count and digest alone. |
| `MinStorage.FoldSumCount` | min_storage.go:48-58 | For Avg, CountSum and CountAvg, n additions raise the sum by the values' total and the count by n (below the int64 limit). |
| `MinStorage.FoldCount` | min_storage.go:51-52 | For Count, n additions raise only the count, by n (below the int64 limit). The values are ignored. |
| `MinStorage.FoldQuantile` | min_storage.go:59-60 | For Quantile, the digest receives exactly the added values, in order. Without a digest, the first addition panics. |
| `MinStorage.FoldUnknownKind` | min_storage.go:43-61 | For a kind outside 0..6, additions never change the accumulator. |
| `MinStorage.AddAllSnoc` | min_storage.go:29-33 | One more `Add` after a run is one more step of `AddAll`, in the exact form of `OneMinStorage.Add`'s and `Monitor.Add`'s contracts. So a run of those calls leaves the map at `AddAll` of the run. |
| `MinStorage.AddAllSums` | min_storage.go:29-33 | Repeated `Add` on one name accumulates the sum of the values onto the old entry (0 when absent). Every other name keeps its entry. |
| `MinStorage.OneMinStorage.Get` | min_storage.go:118-129 | A present name gives its value and no error. An absent name gives 0 and `ErrNotFoundMetric` with id -1. |
| `MinStorage.OneMinStorage.GetPersistent` | min_storage.go:132-134 | Gives the slot, or nil when the id is absent. |
| `MinStorage.OneMinStorage.Len` | min_storage.go:137-139 | The number of ad-hoc entries plus the number of persistent entries. |
| `StorageCore.Storage.constructor` | storage.go:26-38 | Empty registry and bucket, `history+1` empty slots, cursor 0. The store invariant holds. |
| `StorageCore.RingLength` | storage.go:30 | `make` panics exactly when `history+1` is negative, and otherwise builds `history+1` slots. |
| `StorageCore.NegativeHistoryUnusable` | storage.go:30-74 | A negative history never gives a ring with slot 0: -1 builds an empty ring, so the first rotation's write is out of range, and anything lower panics. Every non-negative history has slot 0. |
| `StorageCore.Template` | storage.go:41-58 | The keys are exactly the registered ids whose kind is supported. Each value is a zeroed accumulator, with an empty digest for Quantile only. |
| `StorageCore.Storage.NextSpecValue` | storage.go:41-58 | The loop over the registry builds exactly `Template` of the registry. |
| `StorageCore.Storage.NextMonitor` | storage.go:62-83 | Returns the old bucket and writes it to the slot at the old cursor, leaving every other slot as it was. The new bucket is fresh, with no ad-hoc data and the template as persistent data. The cursor steps. The registry is unchanged. The invariant is kept: the slot `a` behind the cursor holds the bucket retired `a` rotations ago, and, for history >= 1, slot `history` stays empty. At history 0 the ring is the single slot 0, which is slot `history`; see the first row of "## Findings". |
| `StorageCore.NextCursorAsWritten` | storage.go:75-78 | For a cursor in 0..history-1, the written step stays in that range and wraps to 0 exactly after slot history-1. For history 0, the cursor only grows. |
| `StorageCore.NextCursor` | storage.go:75-78 | For a cursor inside the ring of `max(history,1)` slots, the step stays inside it and wraps to 0 exactly after the last slot. |
| `StorageCore.NextCursorAgrees` | storage.go:75-78 | For history >= 1, the model's cursor step equals the written one. |
| `StorageCore.NextCursorMod` | storage.go:75-78 | The step is "plus one modulo the ring", so after k rotations the cursor is k mod history. |
| `StorageCore.BackStep` | storage.go:74-78 | After a step, the just-written slot is one rotation behind, and every other age moves one further back. |
| `StorageCore.ZeroHistoryOverruns` | storage.go:74-78 | With history 0, the written step moves the cursor to 1, which is outside the one-slot array. |
| `StorageCore.BackIsIndex` | web.go:112-115 | The query's remainder `(cursor - abs(hv)) mod n` is the slot `Age(hv)` rotations behind the cursor. |
| `StorageCore.NoObservationLost` | storage.go:64-71 | Wherever a rotation falls in a run of `Add(x, _)` calls, the retired bucket's entry plus the fresh bucket's entry equal the old entry plus all of the run. The two buckets' maps are `AddAll` of the two parts of the run by `AddAllSnoc`, since `NextMonitor` returns the old bucket untouched and starts the new one with no ad-hoc data. |
| `Methods.SlotOf` | method.go:31-44 | The stored slot is non-nil exactly when `initSpecValue` succeeded, and then holds its value. |
| `Methods.Monitor.GetCallNameMaeID` | method.go:11-22 | A bound name gives its id and true, and the id is registered. Otherwise it gives -1 and false. |
| `Methods.Monitor.InitNewMetricName` | method.go:26-51 | `LastID` rises by exactly 1, and the new id was never used before. The name is rebound to the new id, even if it was already bound. The descriptor is stored. The current bucket gets `initSpecValue`'s value, or nil. The error is returned exactly for unsupported kinds. The store invariant is kept. |
| `Methods.Monitor.Add` | method.go:56-58 | `OneMinStorage.Add` on the current bucket. |
| `Methods.Monitor.Set` | method.go:61-63 | `OneMinStorage.Set` on the current bucket. |
| `Methods.Monitor.AddPersistent` | method.go:66-68 | `AddPersistentTo` on the current bucket's persistent map. |
| `Methods.Monitor.SetPersistent` | method.go:71-73 | `SetPersistentTo` on the current bucket's persistent map. |
| `Methods.Monitor.RecordMetircTimeAvg` | method.go:111-124 | A bound name keeps its id and changes nothing. An unbound name is registered as Avg with no tags and a zeroed slot: `LastID` rises by one, that id is the one handed out, and the name is bound to it with every other binding kept. Either way, the closure targets the id the name is now bound to. |
| `Methods.Monitor.RecordMetricCount` | method.go:137-141 | The closure adds 1 under the name. |
| `Methods.Monitor.RecordMetricSum` | method.go:145-149 | The closure adds the value under the name. |
| `Methods.Monitor.RecordMetric` | method.go:153-157 | The closure sets the value under the name. |
| `Methods.Monitor.RecordFuncTimes` | method.go:78-86 | The closure adds the elapsed milliseconds under the function name. |
| `Methods.Monitor.Finish` | method.go:121-157 | Running each closure: the Add and Set closures act as `Add`/`Set` on the current bucket, and the Avg closure acts as `AddPersistent(id, AvgMetric, elapsed)`. |
| `Methods.TimeAvgLands` | method.go:111-124 | A timing average on a fresh name always lands: its slot becomes sum = elapsed, count = 1, with no digest. |
| `Methods.RegisterTwice` | method.go:26-51 | Registering a name twice yields two distinct ids. Both stay registered, and the name ends bound to the second. |
| `MonitorConfig.Config.constructor` | config.go:26-34 | 60 s interval, 3 revisions, port 9999, no writers, `./go-monitor.txt`. |
| `MonitorConfig.Config.ValidateRevisions` | config.go:38-45 | A negative count sets 0 and reports an error. Otherwise the count is adopted. |
| `MonitorConfig.Config.ValidateInterval` | config.go:49-55 | Below one second is refused with the interval unchanged. Otherwise the interval is adopted. |
| `MonitorConfig.Config.ValidateHTTPPort` | config.go:59-72 | The current port is accepted without change. A port strictly between 1024 and 65535 is adopted. Any other port is an error, with the port unchanged. |
| `MonitorConfig.Config.AddWriter` | config.go:75-77 | Appends at the end and keeps the existing writers. |
| `Writers.SuffixMap` | writer.go:47-67 | Every kind has one to four suffixes. An unknown kind has none. |
| `Writers.GetValueString` | writer.go:200-230 | For a known kind, the number of values equals the number of its suffixes, and CountSum/CountAvg lead with the count. Each value carries what its suffix names: `_Sum` the sum, `_Count` the count, `_Avg` the sum over the count. Quantile gives the 0.50, 0.90, 0.95 and 0.99 quantiles of the digest's values. An unknown kind gives one blank value, even for a nil value, because the switch never reads it. For a known kind, the call panics exactly on a nil value, or on a Quantile without a digest. |
| `Writers.RenderCount` | writer.go:208-209 | A Count accumulator fed `vs` renders `len(vs)`, whatever the values were. |
| `Writers.RenderCountSum` | writer.go:211-214 | A CountSum accumulator fed `vs` renders `len(vs)`, then `Sum(vs)`. |
| `Writers.RenderAvg` | writer.go:206-207 | An Avg accumulator fed `vs` renders `Sum(vs)` over `len(vs)`. |
| `Writers.RenderQuantile` | writer.go:220-226 | A Quantile accumulator renders the 0.50/0.90/0.95/0.99 quantiles of exactly the values fed to it. |
| `Writers.ModeOfString` | writer.go:130-141 | "up" and "down", case-insensitively, give 1 and 2. Every other string, "all" included, gives 0. |
| `Writers.WriterConfig.constructor` | writer.go:97-106 | The defaults are name "", mode DOWN, host "", port 2003, retry 0, path `./go-monitor.txt`. |
| `Writers.WriterConfig.ValidWriterName` | writer.go:110-116 | Accepts exactly the registered names, and adopts them. Otherwise it reports an error and leaves the name unchanged. |
| `Writers.WriterConfig.ValidateIntMode` | writer.go:147-153 | Accepts exactly 0, 1 and 2, and adopts them. Otherwise it reports an error and leaves the mode unchanged. |
| `Writers.WriterConfig.ValidateMode` | writer.go:119-144 | An int acts as `ValidateIntMode`. Any string is accepted, with mode `ModeOfString`. Any other value is an error. |
| `Writers.WriterConfig.ValidateUpLoadHost` | writer.go:156-162 | Always accepts. |
| `Writers.WriterConfig.ValidateUpLoadPort` | writer.go:165-176 | In DOWN mode it is ignored. Otherwise 0..65535 is adopted and anything else is an error. |
| `Writers.WriterConfig.ValidateUploadRetry` | writer.go:179-190 | Accepted exactly when n >= 0 and (n <= 10 or forced). An accepted value is adopted. |
| `Writers.WriterConfig.ValidateDownPath` | writer.go:193-196 | Always accepts. |
| `Writers.Build` | text_writer.go:15-20 | The built writer carries the configuration it was given. |
| `Writers.InitWriter` | writer.go:240-246 | Succeeds exactly when the configured name is registered, building with that name's factory. Otherwise it returns `ErrWriterNotFound` with the name. |
| `TextWriters.RegisterWriterName` | text_writer.go:14-23 | The registry has exactly the key "TextWriter", bound to the text writer's factory. |
| `TextWriters.GetSortedTagsString` | text_writer.go:109-124 | The loop builds exactly `JoinTags`: ';' and the tag, for each tag in order. |
| `TextWriters.JoinTagsLength` | text_writer.go:109-124 | The tag string has width the sum of len(tag)+1, and is empty exactly for no tags. |
| `TextWriters.JoinTagsAppend` | text_writer.go:116-119 | Joining distributes over concatenation. |
| `TextWriters.JoinTagsHasTag` | text_writer.go:116-119 | Every tag appears in the string right after a ';'. |
| `TextWriters.IdLines` | text_writer.go:99-101 | One line per value. Line i is name + suffix i + tags + "=" + value i + LF. |
| `TextWriters.WriteIdLines` | text_writer.go:99-101 | The inner loop builds exactly `IdLines`: value i printed with suffix i, for every value. |
| `TextWriters.RenderableIff` | text_writer.go:93-100 | An accumulator prints exactly when it is registered, of a supported kind, non-nil, and (for Quantile) has a digest. A registered unsupported kind always panics. |
| `TextWriters.SpecTextCount` | text_writer.go:93-102 | The spec output has one line per suffix of each accumulator's kind. |
| `TextWriters.SpecTextSnoc` | text_writer.go:93-102 | Printing one more accumulator appends exactly its block of lines. |
| `TextWriters.WriteTextSpecMetrics` | text_writer.go:90-106 | It succeeds exactly when every accumulator can print. It then visits every identity once, in some order, and emits each one's block. Otherwise nothing is written. |
| `TextWriters.WriteTextBasicMetrics` | text_writer.go:127-136 | Emits one "name=value" LF line per ad-hoc entry, each name exactly once. |
| `Web.StartHTTPModule` | web.go:32-35 | Accepts exactly 1024..65535. Otherwise it returns `ErrHTTPPort`. |
| `Web.PortChecksDiffer` | web.go:33-35 | The server accepts every port the config accepts, plus exactly 1024 and 65535. |
| `Web.ValidConfigStarts` | monitor.go:35-85 | `New` passes `Revisions` to `NewStorage` and `Start` passes `Port` to `StartHTTPModule` without checking them. For a config the validators keep valid, the ring has a slot for the first rotation and the server accepts the port. |
| `Web.Lookup` | web.go:80-94 | The ad-hoc value is shown exactly when the key is present. The accumulator and descriptor are shown exactly when the key is a bound name whose id the bucket has. |
| `Web.HandleMonitor` | web.go:64-95 | The reply is the lookup on the current bucket. It panics exactly when the shown accumulator is nil. |
| `Web.HistoryLoopAsWritten` | web.go:113-115 | When the written loop ends, the index is non-negative. A non-negative start is returned unchanged. A negative start ends below `history`. |
| `Web.ZeroHistoryLoops` | web.go:113-115 | With history 0, a negative index never becomes non-negative under the written loop. |
| `Web.HistoryLoopMod` | web.go:113-115 | With history >= 1 and enough iterations, the written loop ends on the Euclidean remainder. |
| `Web.HistorySlot` | web.go:110-116 | The lifted index is `(cursor - abs(hv)) mod ring`, which lies in the ring. |
| `Web.QueryAges` | web.go:111-116 | Version 0 reads the cursor's slot, which the next rotation overwrites. Version 1 reads the slot the last rotation wrote. |
| `Web.HandleHistory` | web.go:98-146 | A parse failure is reported, and the query continues. The query reads the bucket retired `Age(hv)` rotations ago. An empty slot gives no reply. Otherwise the reply is the lookup on that bucket with the current registry. |
| `Web.LatestRetiredAtOne` | web.go:110-120 | Right after a rotation, version 1 shows the bucket just retired: the one that was current before the rotation, now the last of the retired buckets. |

## Left out

- Locks: every `sync.RWMutex` use. The model is sequential: each method runs to completion before the next call starts.
- StorageCore.Storage.constructor: the history depth is a `nat`. `NewStorage` accepts any int, but a negative depth gives no usable ring (`NegativeHistoryUnusable`). The validators never produce one (`ValidateRevisions`, `ValidConfigStarts`). A direct write to the exported `Revisions` field can, and so can a direct call of the exported `NewStorage` with a negative argument.
- StorageCore.Storage.NextMonitor: the source builds the new template under the registry's read lock (storage.go:41-58, 64-65) and takes the store lock only afterwards (storage.go:67). A name registered between the two steps gets a slot in the retired bucket only, so every `AddPersistent` on it reports a missing id for the whole next interval. The model makes the rotation one step, and `Storage.Valid` (every registered id of a supported kind has a slot in the current bucket) excludes that state. `Methods.TimeAvgLands` relies on it, so it holds only for sequential execution.
- Methods.Monitor.RecordMetircTimeAvg: the lookup and the registration are one step. In the source, two concurrent first calls can both register the name.
- The scheduler in monitor.go (`Start`, `Stop`, tickers, goroutines, channels) and `monitor.New`'s wiring. These are concurrency and wall-clock time.
- `runtime.Caller` and `time.Now()`. `RecordFuncTimes`, `RecordFuncCount` and `RecordFuncTimeAvg` take the caller's function name as a parameter, so they are `RecordFuncTimes`, `RecordMetricCount` and `RecordMetircTimeAvg`. The elapsed time is a parameter of `Finish`. The bucket timestamp `Ts` is not modelled.
- StoreStruct.NewQuantileSpecValue: the error `td.New()` can return is not modelled, because the t-digest library is outside the model. A Quantile registration always gets a digest.
- t-digest internals and quantile estimates: a foreign library. A quantile value is the symbolic `QuantileCell(inserted, q)`.
- Float rounding and formatting (`FormatFloat`, `%f`, and Avg's `Sum/Count`, including a count of 0). Values are symbolic cells, and the text is produced by a formatting function passed as a parameter.
- Writers.ToLower: only ASCII letters are lowered. No other character lowers onto a letter of "all", "up" or "down", so the mode comparison is the same as with Go's Unicode `strings.ToLower`.
- Web.HistorySlot: `int(math.Abs(float64(hv)))` is taken as the exact absolute value. Rounding for abs(hv) > 2^53, and the conversion of 2^63, are left out. The version text's parsing (`strconv.Atoi`) is outside the model: its value and its failure flag are parameters.
- File and HTTP I/O: the temp file, rename, `DoWithRecover`'s recovery, the server, routing, `Fprintf`, the welcome text and the host name. A panic is an outcome value.
- The `String()` output of descriptors and accumulators. A reply carries the values themselves.
- The Logger: log lines are omitted.
- `GetAll` (an empty placeholder) and the unused `SelfMonitorKey` constant.
- StoreStruct.MetricNameMap: `lastId` is an unbounded integer, while Go's `LastID` is a 64-bit `int`. The wrap after 2^63 registrations is not modelled; memory runs out long before it.
- Error message formatting (errors.go). Errors are datatype constructors.

## Findings

| source | as written | input that shows it | evidently intended | confidence | as-written member | corrected member |
|---|---|---|---|---|---|---|
| storage.go:75-78 | the cursor wraps only when `Cursor == history-1` | `NewStorage(0)`, then two `NextMonitor` calls: the first moves the cursor to 1, and the second writes `HistoryMonitor[1]` of a one-slot array | the cursor stays inside the ring of `max(history,1)` slots | not executed | `StorageCore.ZeroHistoryOverruns` | `StorageCore.NextCursor` (with `StorageCore.NextCursorMod`, `StorageCore.Storage.NextMonitor`) |
| web.go:113-115 | `idx += HistoryVersionNumber` while `idx < 0` | history 0, cursor 0, version 1: idx = -1, and the loop adds 0 forever | lift by the ring size `max(history,1)` | not executed | `Web.ZeroHistoryLoops` | `Web.HistorySlot` |
