# hermes logging facade, modelled in Dafny

hermes is a thin structured-logging layer over zerolog and the InfluxDB
client. A `Factory` builder collects a service name, a level, optional
database settings and a list of writer kinds (console, file, database), and
builds a `ZeroLogger`: a value holding a pointer to the zerolog engine plus
the service and scope it stamps on every event. The database writer decodes
each serialized event and turns it into one InfluxDB point whose tags and
fields are classified by key.

The model keeps that core and treats zerolog and the InfluxDB client as
opaque:

- `levels.dfy` (module `Levels`): the `Type` and `Level` enumerations as
  8-bit integers with their named constants.
- `values.dfy`, `results.dfy`: untyped values (Go `any`), option and result
  types, and `Abort`, which stands for a Go `panic` or `log.Fatal`.
- `writers.dfy` (module `Writers`): writer kinds, sinks, the log file path
  and the left-to-right construction of one sink per requested kind that
  both factories share.
- `zerolog.dfy` (module `ZeroLog`): the engine that a factory and its
  loggers share (a class, because the source shares it through a pointer),
  the `ZeroLogger` value, scope derivation, event assembly for all 22
  logging methods, and `logv`'s loop.
- `factory.dfy` (module `HermesFactory`) and `logger_factory.dfy` (module
  `LoggerFactory`): the two builders. Each `Factory` is a class whose
  `With*` methods update fields in place and return the receiver.
- `influx.dfy` (module `Influx`): the database sink. It has the key
  classification loop (`GetWritePoint`) and `Write`.

The environment becomes parameters. `opens` says which paths the file system
lets the process open. `json` is the JSON decoder. `environment` is what the
`INFLUX_*` variables hold.

Behaviour of the code worth knowing:

- `logv` appends `service` and `scope` before the caller's pairs, so a
  caller key named `service` or `scope` comes later and wins for a reader
  that keeps the last duplicate (`CallerKeysFollowServiceDetails`).
- `WithLevel` accepts any 8-bit level value. It does not reject values
  outside the named ones.
- An undecodable payload makes `Write` return `-1`.
- A later `WithLevel` or `WithStackError` on the factory changes a logger
  already built from it, because the logger points to the factory's engine
  (`LevelSharedAfterBuild`).
- `WithWriters` replaces the engine, which drops a level set before it.
- In the root package, the database writer calls `log.Fatal` unconditionally
  before any client is created. Its health check and ping are never reached.
- `Infov` and `Warnv` log at Debug level.

## Model

| member | source | states |
|---|---|---|
| `Levels.LevelNumbering` | logger.go:28-44 | Debug..Panic are 0..5 consecutively and Trace is -1 |
| `Levels.LevelsStrictlyOrdered` | logger.go:28-44 | Trace < Debug < Info < Warn < Error < Fatal < Panic |
| `Levels.OnlyZeroLoggerType` | logger.go:17-23 | ZeroLoggerType is 0 and is the only named logger type |
| `Writers.FilePath` | factory.go:156-158 | the file sink path is "logs/" + service + ".log" |
| `Writers.ServiceOfPath` | factory.go:158 | a path of the file-sink shape gives back the service it was built from |
| `Writers.FilePathRoundTrip` | logger/factory.go:140-142 | the path determines the service: parsing FilePath(s) gives s back |
| `Writers.SinkFor` | factory.go:121-167 | console gives the console sink; file gives the sink at logs/<service>.log or fails to open that same path; any kind above database panics "writer type not acceptable" |
| `Writers.CollectSinks` | factory.go:118-135 | a successful list has one sink per kind; a failed list fails with the abort of one of its kinds |
| `Writers.CollectSinksOnePerKind` | factory.go:118-135 | the writer list succeeds iff every kind does, and then has one sink per kind, in order, duplicates kept |
| `Writers.CollectSinksFirstAbort` | logger/factory.go:105-116 | the first kind that aborts decides the abort of the whole list |
| `Writers.UnknownKindAborts` | factory.go:129-130 | a kind other than console, file or database makes the list abort |
| `ZeroLog.Engine.Zero` | factory.go:42 | the zero engine has no writers, no level, no timestamp and no stack |
| `ZeroLog.Engine.Over` | factory.go:50-54 | a new engine over the sinks has one timestamp hook and no level |
| `ZeroLog.ZeroLogger.WithScope` | zerolog.go:29-35 | the copy has the new scope and the same service and engine |
| `ZeroLog.WithScopeLastWins` | zerolog.go:29-35 | deriving twice keeps only the last scope; deriving the current scope is the identity |
| `ZeroLog.ZeroLogger.AppendServiceDetails` | zerolog.go:148-152 | exactly two fields are appended, service and then scope, and nothing else changes |
| `ZeroLog.KeyValueFields` | zerolog.go:162-164 | an even list yields n/2 fields, or fails at an even position whose key is not a string |
| `ZeroLog.KeyValueFieldsPairs` | zerolog.go:162-164 | an even list yields n/2 fields (kv[2i], kv[2i+1]) in order, and fails iff some key is not a string |
| `ZeroLog.ZeroLogger.KeyValueEvent` | zerolog.go:155-167 | an odd list panics "keyValue len must be even"; an even list fails only at an even position whose key is not a string; success keeps the level and the earlier fields, adds service, scope and n/2 pairs, and sets the message |
| `ZeroLog.ZeroLogger.Logv` | zerolog.go:155-167 | the loop produces KeyValueEvent: an odd list aborts, else service, scope, then the pairs, then the message |
| `ZeroLog.KeyValueCall` | zerolog.go:154-167 | a key/value method with an odd list aborts with no event; otherwise service, scope and the n/2 pairs in order, or an abort at a non-string key |
| `ZeroLog.Call.EventLevel` | zerolog.go:37-145 | every method logs at a named level; a key/value method not at its named level logs at Debug |
| `ZeroLog.ZeroLogger.Emitted` | zerolog.go:37-145 | only key/value methods can abort, and an odd list panics; an emitted event is at the method's level, with a text message exactly for the plain and key/value methods |
| `ZeroLog.EventLevelMatchesName` | zerolog.go:67-95 | every method logs at its named level except Infov and Warnv, which log at Debug |
| `ZeroLog.EmittedCarriesServiceDetails` | zerolog.go:37-145 | every emitted event is at its method's level and carries service then scope |
| `ZeroLog.ErrShape` | zerolog.go:97-100 | Err logs at Error with the error, service and scope, and no message |
| `ZeroLog.PlainShape` | zerolog.go:37-145 | the plain methods never abort and emit service, scope and the message |
| `ZeroLog.FormattedShape` | zerolog.go:37-145 | the formatted methods never abort and emit service, scope and the format with its arguments |
| `ZeroLog.CallerKeysFollowServiceDetails` | zerolog.go:160-164 | a caller key "service" or "scope" takes precedence over the logger's own value for a last-wins reader |
| `Influx.InfluxWriter.GetWritePoint` | logger/influx.go:56-76 | the loop succeeds iff every tag value is a string, and then gives ClassifiedPoint; otherwise it aborts at a bad tag key |
| `Influx.ClassificationPartitionsKeys` | logger/influx.go:57-73 | measurement "log"; no timestamp; tags are level/caller/message with their strings; fields are all other keys, unchanged; the two are disjoint and cover the keys minus the timestamp |
| `Influx.ExampleClassification` | logger/influx.go:59-73 | {time, level: debug, message: m, custom: 42} gives tags {level, message} and field {custom} |
| `Influx.InfluxWriter.Decode` | logger/influx.go:44-53 | a decoder failure is reported with the "cannot decode event: " prefix |
| `Influx.InfluxWriter.Write` | logger/influx.go:22-41 | undecodable: -1 and the error, no point; a decodable event whose level, caller or message is not a string aborts with no point; otherwise exactly one point appended and len(p) with no error |
| `HermesFactory.Factory.New` | factory.go:38-44 | the type is recorded, every string is empty, the engine is a fresh zero engine |
| `HermesFactory.Factory.WithWriters` | factory.go:46-62 | a non-zerolog type panics; otherwise a fresh engine over the sinks replaces the old one (level dropped), or the first sink abort propagates |
| `HermesFactory.Factory.WithServiceName` | factory.go:64-69 | only the service changes; the receiver is returned |
| `HermesFactory.Factory.WithLevel` | factory.go:71-83 | a non-zerolog type panics; otherwise only the engine's level changes |
| `HermesFactory.Factory.WithStackError` | factory.go:85-94 | for the zerolog type only the engine's stack flag is set |
| `HermesFactory.Factory.WithInfluxConfig` | factory.go:96-103 | only the four connection settings change; the receiver is returned |
| `HermesFactory.Factory.Build` | factory.go:105-115 | zerolog type: a logger over the same engine with the factory's service and empty scope; otherwise nil |
| `HermesFactory.Factory.ZerologWriters` | factory.go:117-135 | the loop yields CollectSinks over this factory's kinds |
| `HermesFactory.DatabaseSink` | factory.go:169-170 | the database writer exits through log.Fatal with address, token and organization concatenated |
| `HermesFactory.SinkEnvOf` | factory.go:121-170 | in the root factory the database kind exits with the settings concatenated, and the file kind succeeds iff its log file opens |
| `HermesFactory.DatabaseKindExits` | factory.go:169-170 | a list with the database kind never yields sinks; unless an earlier kind aborts first it fails with Exit(address + authToken + organization) |
| `HermesFactory.FileSinkPath` | factory.go:126-130 | a file sink in a successful list is at logs/<service>.log; an unknown kind aborts |
| `HermesFactory.LevelDroppedByWithWriters` | factory.go:46-83 | WithLevel followed by WithWriters leaves no level set |
| `HermesFactory.LevelSharedAfterBuild` | factory.go:74-111 | WithLevel after Build changes the built logger's level |
| `HermesFactory.SampleProgram` | examples/sample.go:18-33 | the sample chain always aborts: log.Fatal when the log file opens, the open panic otherwise |
| `LoggerFactory.Factory.New` | logger/factory.go:33-39 | the type is recorded, the service is empty, the engine is a fresh zero engine |
| `LoggerFactory.Factory.WithWriters` | logger/factory.go:41-57 | a non-zerolog type panics; otherwise a fresh engine over the sinks replaces the old one, or the first sink abort propagates |
| `LoggerFactory.Factory.WithServiceName` | logger/factory.go:59-64 | only the service changes; the receiver is returned |
| `LoggerFactory.Factory.WithLevel` | logger/factory.go:66-76 | a non-zerolog type panics; otherwise only the engine's level changes |
| `LoggerFactory.Factory.WithStackError` | logger/factory.go:78-87 | for the zerolog type only the engine's stack flag is set |
| `LoggerFactory.Factory.Build` | logger/factory.go:89-99 | zerolog type: a logger over the same engine with the service and empty scope; otherwise nil |
| `LoggerFactory.Factory.ZerologWriters` | logger/factory.go:101-119 | the loop yields CollectSinks over this factory's kinds |
| `LoggerFactory.SinkEnvOf` | logger/factory.go:153-163 | the database kind gives an Influx sink with the environment's settings, and the file kind succeeds iff its log file opens |
| `LoggerFactory.DatabaseKindConnects` | logger/factory.go:153-163 | with known kinds and an openable file the list succeeds, and each database kind gets a sink with the environment's settings and no check |
| `LoggerFactory.SampleProgram` | sample.go:6-19 | the sample yields console, file and database sinks and a Debug event with service "test", scope "main" and its message, or the file-open panic |

## Left out

- zerolog internals are not modelled: the level threshold that drops events below the configured level, event serialisation, `Msgf` formatting, the console writer's time format, `MultiLevelWriter` fan-out, and what the `Timestamp()` and `Stack()` options add to an event. The engine only records how it was configured.
- zerolog ends the process after writing a Fatal event and panics after writing a Panic event. This is library behaviour and is not modelled.
- `Err` takes the error's description as a string. A nil error, which zerolog logs at Info level, is not modelled.
- The global stack marshaler set in `init` (zerolog.go:8-12) is not modelled.
- JSON decoding in `Decode` is the parameter `json`.
- The InfluxDB client is not modelled: `NewClient`, `WriteAPI`, `Health`, `Ping`, buffering, and the `Errors()` channel. `InfluxWriter.points` stands for the points handed to `WritePoint`.
- `Influx.InfluxWriter.GetWritePoint`: a field keeps its decoded value unchanged in the model. The client's own conversion of field values to its wire types happens inside `AddField` and is not modelled.
- The goroutine started on every `Write` to drain the error channel is concurrency and is not modelled.
- Opening files becomes the parameter `opens`. The console sink always succeeds. A file opened before a later kind aborts stays open in Go; that leak is not modelled.
- config/db/influx.go reads environment variables, and its getters return stored strings. It is not part of this model beyond the `environment` parameter.
- hermes.go (a print helper) is not part of this model.
- A Go `panic` is modelled as a final `Abort`. Recovering from it with `recover` is not modelled.
- The `logger` package's `Type`, `Level` and `ZeroLogger` are modelled by the same `Levels` and `ZeroLog` modules as the root package's. The root package's `influxWriter` (factory.go:188) is never reached, because `log.Fatal` comes first.
- The `Logger` interface is represented by the one implementation, `ZeroLogger`, and `Build`'s nil becomes `None`.
