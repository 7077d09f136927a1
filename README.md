# drone-exporter: the sync, flatten and write core in Dafny

drone-exporter polls a Drone CI server. For every repository, the unit of
work runs in four steps:

1. It reads a cursor from InfluxDB: the `BuildId` of the latest point
   (by timestamp) stored for the repository's slug and a `DroneAddress`
   tag equal to the InfluxDB address.
2. It pages through the repository's build list, 25 builds a page, newest
   first.
3. It flattens every build that is not running into points:
   - one Build point;
   - for each stage, one Stage point;
   - for each step, one Step point.
4. It writes the points to InfluxDB in batches.

This project models that unit of work. The modules are:

- `Base`: Go's `int64`, with explicit two's-complement wrap-around
  (`Wrap`, `Sub64`). It also holds `Option` and two ways of laying
  sequences end to end: `Concat` and `Blocks`.
- `Drone`: the CI records `Repo`, `Build`, `Stage` and `Step`. It also
  holds the CI client, as two total functions:
  - page number → build summaries;
  - build number → build detail.
- `Types`: the three kinds of point.
- `InfluxDB`: the driver. It has two parts:
  - `LastBuildNumber` reads a query reply. Each of its failure paths gives
    0. The model includes the `strconv.ParseInt` it calls, together with a
    decimal formatter that proves the round trip.
  - `Batch` is the chunked writer. It is specified by the list of batches
    it writes (`Chunks`) and the run over them (`RunChunks`). That run
    stops at the first failure.
- `Exporter`: the engine. It has these parts:
  - The metric derivations, including `WaitTime`, `Duration` and
    `StepDuration`.
  - The flattening specification `FlattenBuilds` and the loops that
    implement it (`ProcessBuilds`, `ProcessStages`, `ProcessSteps`).
  - The pagination state machine `ProcessRepo`, specified by
    `IsSyncResult`.
  - The per-repository unit `RepoUnit`.

`ProcessRepo` returns the pages it requested (`fetched`) as well as the
points. This makes "no further page is requested" a checkable statement.

Two points follow the code as written:

- A non-empty first page that is short (fewer than 25 builds) and passes
  the cutoff returns no points. The points just computed for it are
  discarded. The code marks this with `//no pages`, and
  `ShortFirstPageDropsPoints` exhibits it.
- A mid-stream batch holds 501 points, not the "10k" that the source
  comment mentions. The flush fires when the counter exceeds 500.

## Model

| member | source | states |
|---|---|---|
| Base.Sub64 | pkg/exporter/main.go:161-173 | Go's `int64` subtraction: the result agrees with the true difference modulo 2^64, and it is that difference whenever the difference fits |
| Exporter.StepDuration | pkg/exporter/main.go:231-235 | a step's duration is never negative; when `stopped - started` fits in int64, it is that difference if the step stopped after it started, and 0 otherwise |
| Exporter.OrderedMetricsNonNegative | pkg/exporter/main.go:161-209 | for a build or stage whose timestamps are in lifecycle order, the wait time is non-negative and equals (start, or the last update while the start is unset) minus creation; the duration is likewise (end, or the last update while the end is unset) minus the start |
| Exporter.ProcessBuilds | pkg/exporter/main.go:148-255 | the loop emits exactly `FlattenBuilds`, build by build in list order: nothing for a running build, and otherwise its Build point followed by the points of its stages |
| Exporter.ProcessStages | pkg/exporter/main.go:194-251 | the stage loop emits, for each stage in order, its Stage point and then the points of its steps |
| Exporter.ProcessSteps | pkg/exporter/main.go:231-250 | the step loop emits one Step point per step, in step order |
| Exporter.WaitTime | pkg/exporter/main.go:161-166 | the wait time is the int64 difference, wrapping as Go's does, of the start minus creation, or of the last update minus creation while the start is 0 |
| Exporter.Duration | pkg/exporter/main.go:168-173 | the duration is the int64 difference, wrapping as Go's does, of the end minus the start, or of the last update minus the start while the end is 0 |
| Exporter.BuildPointOf | pkg/exporter/main.go:175-192 | a Build point: Time, Started, Number, Status, Source, Target, Created and Finished come from the build's detail; WaitTime and Duration are derived from the detail's timestamps; BuildId is the list summary's number; the tags are exactly DroneAddress (the CI server URL), Slug and Status (the detail's) |
| Exporter.StagePointOf | pkg/exporter/main.go:211-229 | a Stage point: Time is the stage's start; WaitTime and Duration are derived from the stage's timestamps with `Stopped` as its end; OS, Arch, Status and Name are the stage's; BuildId is the list summary's number; the tags are exactly DroneAddress, Slug, Sender (the list summary's sender), Name, OS, Arch and Status |
| Exporter.StepPointOf | pkg/exporter/main.go:236-249 | a Step point: Time is the step's start; Duration is the non-negative `StepDuration`; Name and Status are the step's; BuildId is the list summary's number; the tags are exactly DroneAddress, Slug, Sender (the list summary's sender), Name and Status |
| Exporter.FlattenBuildsCount | pkg/exporter/main.go:157-250 | a page yields Σ(1 + #stages + Σ#steps) points over its non-running builds, 0 for a running one; exactly one Build point per non-running build |
| Exporter.FlattenBuildsIdentity | pkg/exporter/main.go:175-249 | every point of a page belongs to a non-running build of it and carries: that list summary's number as BuildId; the exporter's URL and the repository slug as tags; exactly the tag keys DroneAddress, Slug and Status on a Build point; the summary's sender as the Sender tag on Stage and Step points; and a non-negative duration on a Step point |
| Exporter.FirstEmptyPage | pkg/exporter/main.go:124-145 | the page that ends pagination: it is empty, and every page from the start page up to it is non-empty |
| Exporter.FirstEmptyPageUnique | pkg/exporter/main.go:124-145 | the page where pagination stops does not depend on which later empty page bounds the search |
| Exporter.ProcessRepo | pkg/exporter/main.go:96-146 | there are two outcomes. If page 1 is empty, or its newest build is the cursor, or it is short, the result is no points and only page 1 is requested. Otherwise the result is the points of pages 1..k-1 in page order, where k is the first empty page from 2 on, and exactly pages 1..k are requested |
| Exporter.LaterPagesIgnoreCursor | pkg/exporter/main.go:124-145 | every page between 2 and the first empty page is requested and flattened in place, whatever builds it holds (the cursor is not re-checked), and the page after it is requested even if it is short |
| Exporter.ShortFirstPageDropsPoints | pkg/exporter/main.go:119-122 | on a one-build first page past the cursor, the sync returns no points although that page flattens to one point |
| Exporter.RepoUnit | pkg/exporter/main.go:78-85 | the unit reads the cursor, syncs from it, and calls `Batch` exactly when the sync produced points; the write's outcome is recorded and nothing else depends on it |
| InfluxDB.ParseInt64 | pkg/driver/influxdb/influxdb.go:64-67 | a successful parse is a sign or a digit followed only by digits, and its value is the decimal value of the digits, negated after a `-`; a bare sign is an error; a string of digits parses exactly when its value is at most the int64 maximum |
| InfluxDB.ParseFormat | pkg/driver/influxdb/influxdb.go:63-68 | every int64 written as decimal text parses back to itself |
| InfluxDB.LastBuildNumber | pkg/driver/influxdb/influxdb.go:51-72 | an error-free response with a series whose first row's id column parses yields that number, and a non-zero cursor arises only that way |
| InfluxDB.LastBuildNumberReadsStoredId | pkg/driver/influxdb/influxdb.go:62-68 | a clean reply carrying the id `x` yields `x` |
| InfluxDB.LastBuildNumberFailuresAreZero | pkg/driver/influxdb/influxdb.go:51-72 | a transport error, a response error, an empty series or an unparseable value each yield 0, the same as a stored id of 0 |
| InfluxDB.Batch | pkg/driver/influxdb/influxdb.go:74-119 | the loop, with its counter kept in 0..500 and reset at each flush, writes exactly the batches `Chunks` gives and stops at the first failure, as `BatchSpec` says |
| InfluxDB.ChunkSizes | pkg/driver/influxdb/influxdb.go:96-116 | there are n/501 + 1 batches; every batch but the last holds exactly 501 points; the last holds n mod 501 ≤ 500 points, which is 0 when n is a multiple of 501, including 0 |
| InfluxDB.ConcatChunks | pkg/driver/influxdb/influxdb.go:88-114 | the batches, laid end to end, are the input: every point once, in order |
| InfluxDB.RunChunksPrefix | pkg/driver/influxdb/influxdb.go:74-119 | what a run writes is a prefix of its batches, and the run reports no error exactly when it writes all of them |
| InfluxDB.RunChunksSucceedsIff | pkg/driver/influxdb/influxdb.go:74-119 | a run succeeds exactly when every batch is started, all its points are built, and it is written |
| InfluxDB.BatchSucceeds | pkg/driver/influxdb/influxdb.go:88-118 | `Batch` returns nil exactly when every batch goes through. It then has made n/501 + 1 writes, and their batches laid end to end are the input |
| InfluxDB.BatchFailureWritesPrefix | pkg/driver/influxdb/influxdb.go:83-110 | after an error, nothing more is written. What was written is fewer batches than the input has, each of 501 points, and laid end to end they are a prefix of the input |

## Left out

- Concurrency in the main loop (pkg/exporter/main.go:58-93) is not modelled: the goroutines, the semaphore channel, the wait group, the endless cycle and its sleep. `RepoUnit` is one sequential unit of work.
- The CI client's errors, which end the process through `logrus.Fatal`, are not modelled. The client is total, so every `BuildList` and `Build` call succeeds.
- Logging of every kind is not modelled, including the `logrus.Error` of a failed batch, since it has no effect on the result.
- Configuration is not modelled: CLI flags, YAML, `NewExporter`, the Drone OAuth client construction and the Influx client construction. The CI server URL enters as a field of `Exporter`.
- The text of the Influx query and its formatting are not modelled. `LastBuildNumber` takes the client's reply as input.
- The cursor query (pkg/driver/influxdb/influxdb.go:13, 52) matches the `DroneAddress` tag against the InfluxDB address (influxdb.go:29), while every point is tagged with the CI server URL (pkg/exporter/main.go:188, 221, 243). Unless the two URLs are equal the reply has no series, the cursor is 0 on every cycle, the page-1 cutoff never fires and each cycle exports every build again. `last()` also picks the latest point by timestamp, not the highest build number. The model takes the reply as given and does not capture which points the query selects.
- `time.Unix` is not modelled: a point's time is the raw int64 seconds.
- The driver dispatch in pkg/driver/interface.go and `Close` are not modelled; they hold no logic of their own.
- The point types live in pkg/types, which is not part of this model. `Point` carries the fields and tags that pkg/exporter/main.go sets. Measurement names and the field/tag split of `GetFields`/`GetTags` are not modelled.
- The Influx client is abstracted by `BatchEnv`, which says whether each point can be built and whether the k-th `NewBatchPoints` and the k-th `Write` call succeed. Error values are reduced to which call failed.
- InfluxDB.LastBuildNumber: requires a well-shaped reply. A reply that is error-free but has no result, or a row without an id column, makes the Go code index out of range and panic; that panic is not modelled. Neither is the panic of the `json.Number` type assertion on an id value that is not a number (a JSON null, say): `Series` holds only the text of numbers.
- InfluxDB.ParseInt64: models only base 10 with an optional sign, which is how the driver calls `strconv.ParseInt`. Error values are not modelled.
- Exporter.ProcessRepo: requires a page `bound` that comes back empty whenever pagination runs. The Go loop does not terminate against a server whose every page is non-empty, and the model does not describe that case.
- Exporter.RepoUnit: requires the same terminating `bound` as `ProcessRepo`.
- Exporter.StepDuration: the exact value is stated only when `stopped - started` fits in int64. Outside that range the function still wraps around as Go does, and the non-negative bound still holds.
- Exporter.OrderedMetricsNonNegative: states the wait time and duration only for timestamps in lifecycle order. For other timestamps, `WaitTime` and `Duration` are Go's wrapping differences and may be negative.
