# pixinsight-worker core, modelled in Dafny

pixinsight-worker is a Go service that will process astronomical sub-exposures. The code
that exists today is mostly start-up plumbing. This project models the four parts of it
that carry logic of their own:

- **Configuration validation** (`internal/config`). `Validate` checks the log level, then
  the storage type, then the application DSN, then the scheduler DSN, and returns the
  first failure. The DSN probe, which opens a database, is a parameter of the model.
  `Validate` has a value receiver in Go. Here it is a function, so it cannot change the
  configuration.
- **Listener planning and lifecycle** (`internal/server`). `NewServer` decides which HTTP
  servers exist (main always, metrics and pprof when enabled), with their timeouts and
  `bind:port` addresses. `Start` binds them in the order main, metrics, pprof and returns at
  the first failure. `Stop` sets `stopped` and asks every server to shut down. Each bind or
  shutdown outcome is an input function `Listener -> bool`.
- **Image-processing status and record** (`internal/store/models/app`). This covers the
  five status constants, `IsValid`, and the `ImageProcess` record. It also covers the
  constraints the schema declares on stored records: a unique acquired-image id and an
  optional foreign key to a pre-stacked image.
- **Target epoch** (`internal/store/models/scheduler`). The four codes mirror NINA's
  enum. `String` has an "Unknown" fallback, and `MarshalJSON` writes the name as a JSON
  string.

Files and modules follow the Go packages:

| file | module | Go source |
|---|---|---|
| types.dfy | `Types` | internal/types/types.go |
| config.dfy | `Config` | internal/config/config.go |
| server.dfy | `Server` | internal/server/server.go |
| imageprocess.dfy | `App` | internal/store/models/app/imageprocess.go |
| target.dfy | `Scheduler` | internal/store/models/scheduler/target.go |
| format.dfy | `Format` | Go's `fmt`: the `%d` verb and `"%s:%d"` addresses |
| json.dfy | `Json` | Go's `encoding/json`: how `json.Marshal` writes a string |
| wrappers.dfy | `Wrappers` | `Option` and `Result` |

Go's named string types (`LogLevel`, `StorageType`) accept any text. They are datatypes
with an `Other(raw)` case, and every comparison goes through `Name()`, so the model
compares strings exactly as Go does. `ImageProcessingStatus` is kept as a plain string,
as Go stores it, and the closed enumeration `App.Status` lists the five defined values.
`Epoch` is an `int`.

`Server` is a class. Its three server descriptors are fixed once `NewServer` has built
them. Its `stopped` flag is the only field that changes. `Start` writes no field of the
server: it reports the failed listener and the listeners left serving. Pure functions
specify both the class's constructor and its methods: `NewServers`, `BindOrder` and
`Configured`.

The code has none of the following behaviours, so the model has none either:

- When a later bind fails, `Start` does not close the listeners it already bound.
- A second `Start` is not refused.
- A second `Stop` is not a no-op: it asks every server to shut down again.
- No function moves an image-processing record from one status to another.
- Nothing guards concurrent updates of a record.

## Model

| member | source | states |
|---|---|---|
| `Types.ParseStorageType` | internal/types/types.go:3-9 | The storage type Go holds for a text keeps that text as its name. It is `Other` exactly when the text is not mysql, postgres or sqlite. |
| `Types.StorageTypeRoundTrip` | internal/types/types.go:3-9 | A storage type is read back from its name, unless an `Other` value holds one of the three backend names. |
| `Config.ParseLogLevel` | internal/config/config.go:10-17 | The log level Go holds for a text keeps that text as its name. It is `Other` exactly when the text is not debug, info, warn or error. |
| `Config.Validate` | internal/config/config.go:60-91 | Validate returns nil (None) exactly when none of the six checks fails. Otherwise it returns an error whose check fails while every earlier check passes: the first failure wins. |
| `Config.InvalidLogLevelFirst` | internal/config/config.go:61-66 | Validate returns ErrInvalidLogLevel exactly when the log level is none of debug, info, warn, error, whatever the other fields hold. |
| `Config.InvalidStorageTypeSecond` | internal/config/config.go:68-72 | With a valid log level, Validate returns ErrInvalidStorageType exactly when the storage type is none of mysql, postgres, sqlite. |
| `Config.ProbeVerdictOnNonEmptyOnly` | internal/config/config.go:74-88 | Two DSN probes that agree on success or failure for every non-empty DSN give the same result. The probe's error is dropped, and the probe is never consulted on an empty DSN. |
| `Config.ValidateSeesOnlyNames` | internal/config/config.go:60-91 | Validate compares the log level and storage type as text and hands the storage type to the DSN probe as text, so two configurations with the same names and DSNs validate alike. |
| `Config.AppDSNBeforeSchedulerDSN` | internal/config/config.go:74-88 | When the application DSN is empty or rejected, the result is an application-DSN error, and changing the scheduler DSN does not change it. |
| `Config.MessagesDistinct` | internal/config/config.go:51-58 | The six sentinel errors have pairwise different messages. |
| `Format.FormatIntRoundTrip` | internal/server/server.go:74 | The `%d` rendering of every int, negative ones included, reads back as the same int. |
| `Format.AddrRoundTrip` | internal/server/server.go:74 | Splitting `bind:port` at its last colon gives back the bind text and the port. This holds for any bind text, including one with colons such as `[::]`. |
| `Server.Configured` | internal/server/server.go:171-186 | The servers Stop shuts down are exactly the non-nil ones, each listed once, in the order main, metrics, pprof. |
| `Server.ServerFor` | internal/server/server.go:47-78 | Each server built by NewServer has a 5 s ReadHeaderTimeout. Its WriteTimeout is 60 s with pprof enabled and 5 s otherwise. It serves its own router. Its address reads back as its section's bind and port. |
| `Server.NewServers` | internal/server/server.go:31-83 | The main server always exists. The metrics server exists iff Metrics.Enabled, and the pprof server iff PProf.Enabled. The non-nil servers are the enabled ones in order main, metrics, pprof. |
| `Server.NewServersTimeoutsAndAddresses` | internal/server/server.go:36-78 | Every server NewServer builds has a 5 s ReadHeaderTimeout. All of them share one WriteTimeout: 60 s with pprof enabled, 5 s otherwise. Each serves its own router, and its address reads back as its section's bind and port. |
| `Server.Server.constructor` | internal/server/server.go:31-83 | NewServer stores the configuration and the servers NewServers plans, and `stopped` starts false. |
| `Server.Server.BindOrder` | internal/server/server.go:106-157 | Start binds only listeners whose server is non-nil. It binds main when its server is set, and metrics and pprof when their section is enabled and their server is set. |
| `Server.Server.Start` | internal/server/server.go:106-163 | Start returns nil exactly when every listener in the bind order bound. Otherwise it returns the first listener in that order whose bind failed: every listener before it bound and stays serving, and no listener after it is bound. |
| `Server.Server.Stop` | internal/server/server.go:165-189 | Stop sets `stopped`, after which serve-loop errors are not logged. It attempts shutdown on every non-nil server without short-circuiting. It returns nil exactly when every shutdown succeeded, and otherwise the error of a server whose shutdown failed. |
| `Server.NewServerBindsAndStopsEnabled` | internal/server/server.go:44-82 | On a server built by NewServer, Start binds and Stop shuts down exactly the enabled servers, in the order main, metrics, pprof. |
| `App.IsValid` | internal/store/models/app/imageprocess.go:15-22 | IsValid holds exactly for the strings that name one of the five defined statuses. |
| `App.ParseStatus` | internal/store/models/app/imageprocess.go:8-12 | A string names a defined status exactly when IsValid holds, and that status's name is the string itself. |
| `App.StatusRoundTrip` | internal/store/models/app/imageprocess.go:8-12 | Every defined status is read back from its name, so the five constants are pairwise distinct. |
| `App.FiveValidStatuses` | internal/store/models/app/imageprocess.go:8-21 | The valid domain is exactly {pending, downloaded, processing, stacked, failed}, a set of five members. |
| `App.NearMissesInvalid` | internal/store/models/app/imageprocess.go:15-21 | Matching is exact: "", "Pending", "PENDING" and "pending " are all invalid. |
| `App.Insert` | internal/store/models/app/imageprocess.go:24-35 | Inserting a record is accepted exactly when no stored record has its AcquiredImageID and its PreStackedImageID, when present, names an existing PreStackedImage. An accepted insert adds the record under a fresh auto-increment ID and keeps both constraints. A rejected insert names a constraint the record really violates. |
| `Scheduler.EpochString` | internal/store/models/scheduler/target.go:16-28 | Code k in 0..3 is named as at index k of NINA's enum (JNOW, B1950, J2000, J2050). Every other code, negatives included, is "Unknown", and "Unknown" names no defined code. |
| `Scheduler.EpochNameRoundTrip` | internal/store/models/scheduler/target.go:16-28 | A defined code is read back from its name, and "Unknown" reads back as no code. |
| `Scheduler.EpochStringInjective` | internal/store/models/scheduler/target.go:18-27 | String is injective on the four defined codes. |
| `Scheduler.EpochNamePlain` | internal/store/models/scheduler/target.go:30-32 | No epoch name has a character that json.Marshal escapes. |
| `Scheduler.MarshalJSON` | internal/store/models/scheduler/target.go:30-32 | MarshalJSON never fails. Its output is a double quote, the epoch's name and a double quote, never the numeric code, and it decodes back to the name. |
| `Json.Escape` | internal/store/models/scheduler/target.go:31 | json.Marshal copies text without escapable characters unchanged, and the escaped text is never shorter than the input. |
| `Json.Marshal` | internal/store/models/scheduler/target.go:31 | json.Marshal of a string always gives a JSON string literal, enclosed in double quotes, that decodes back to the original string. |

## Left out

- Goroutines, `sync.WaitGroup`, `errgroup` and the detached waiter goroutine in Start and Stop are concurrency. Stop is a sequential loop over the servers.
- Sockets, `http.Server.Serve` and `Shutdown`, and the 5-second shutdown deadline are network I/O. The outcome of each bind and of each shutdown is an input function.
- Server.Server.Stop: `errgroup` returns whichever shutdown error happens first in time. The contract promises only that the error belongs to a server whose shutdown failed. The loop itself reports the first failure in the order main, metrics, pprof.
- Server.Server.Start: the bind error is reported as the listener that failed, not as the `net.Listen` error value.
- Server.Server: Go keeps a pointer to the configuration, and Start reads `Metrics.Enabled` and `PProf.Enabled` again when it runs. The model keeps a copy taken by NewServer, so a change made to the configuration after NewServer is not seen. cmd/root.go does not change the configuration after NewServer.
- The log lines that Start and the serve loops write are left out. Stop models the `stopped` flag's one effect, which is to silence serve-loop errors.
- gin routing and middleware (`applyMiddleware`, routes.go, middleware/di.go) are web-framework plumbing. A server's handler is reduced to the listener whose router it serves.
- `utils.TestDSN` opens a database. It is the `probe` parameter of `Config.Validate`, and like TestDSN it receives the storage type as text.
- The GORM and driver wrappers (store.go, gorm/gorm.go, utils/utils.go), including AutoMigrate, wrap libraries and have no logic of their own to model.
- cmd/root.go is process plumbing: it loads the configuration, builds the logger and handles OS signals.
- `PreStackedImage` has no behaviour. The model keeps only its primary keys, as the target of the foreign key.
- App.Insert: the model assumes the database enforces the foreign key. SQLite does so only when the DSN turns on the `foreign_keys` pragma; the default DSNs do (internal/config/config.go:47-48), but a configured DSN may not.
- App.Insert: IDs follow SQLite, whose AUTOINCREMENT counter is rolled back when an insert is rejected, so a rejected insert leaves `nextID` unchanged. Postgres sequences and MySQL's InnoDB counter use up a value on a rejected insert, so on those backends the next accepted row may get a higher ID than the model gives.
- App.Insert: the ID always comes from auto-increment. GORM would use an explicit non-zero ID as given, and the model does not cover that case.
- No code in the repository defines a record-update or delete operation, so neither is modelled.
- The schema does not check that a stored status is valid, and the model does not add that check.
- The `Target` record is left out. Its float fields (RA, Dec, Rotation, RegionOfInterest) are floating point, and its only behaviour is through `Epoch`.
- `time.Time` values are opaque integers, and only their presence matters.
- `MarshalJSON` produces bytes in Go. The model produces characters. Every epoch name is ASCII, so the two agree.
- Json.Marshal: the model's strings hold Unicode scalar values, so it covers valid UTF-8 text only. A Go string is a sequence of bytes, and Marshal writes each invalid UTF-8 byte as `\ufffd`, so for such strings Go's output does not decode back to the input.
- The JSON escaping follows Go 1.22 and later, which write `\b` and `\f` in short form.
- Go's `int` is 64-bit. No arithmetic is done on ports or epoch codes, so the model uses unbounded integers.
