/**
 * Configuration shapes and the start-up validation (internal/config).
 * Validate is a value-receiver method in Go; here it is a function of the configuration,
 * so it cannot change it.
 */
module Config {
  import opened Wrappers
  import Types

  /** The logging level; Go accepts any string, `Other` keeps one that names no level. */
  datatype LogLevel = Debug | Info | Warn | Error | Other(raw: string) {

    function Name(): string {
      match this
      case Debug => "debug"
      case Info => "info"
      case Warn => "warn"
      case Error => "error"
      case Other(raw) => raw
    }
  }

  const LogLevelNames: set<string> := {"debug", "info", "warn", "error"}

  /** The value a configuration loader produces from the text s. */
  function ParseLogLevel(s: string): (l: LogLevel)
    ensures l.Name() == s
    ensures l.Other? <==> s !in LogLevelNames
  {
    if s == "debug" then Debug
    else if s == "info" then Info
    else if s == "warn" then Warn
    else if s == "error" then Error
    else Other(s)
  }

  datatype HTTP = HTTP(bind: string, port: int, trustedProxies: seq<string>)

  datatype Metrics = Metrics(enabled: bool, bind: string, port: int)

  datatype PProf = PProf(enabled: bool, bind: string, port: int)

  datatype Storage = Storage(storageType: Types.StorageType, dsnApp: string, dsnSchedulerDB: string)

  datatype Config = Config(logLevel: LogLevel, http: HTTP, metrics: Metrics, pprof: PProf, storage: Storage)

  /** The six sentinel errors, listed in the order Validate checks for them. */
  datatype ConfigError =
    | InvalidLogLevel
    | InvalidStorageType
    | EmptyStorageDSNApp
    | InvalidStorageDSNApp
    | EmptyStorageDSNSchedulerDB
    | InvalidStorageDSNSchedulerDB

  /** The text of each sentinel error. */
  function Message(e: ConfigError): string {
    match e
    case InvalidLogLevel => "invalid log level provided"
    case InvalidStorageType => "invalid storage type provided"
    case EmptyStorageDSNApp => "application storage DSN cannot be empty"
    case EmptyStorageDSNSchedulerDB => "scheduler database DSN cannot be empty"
    case InvalidStorageDSNApp => "invalid application storage DSN provided"
    case InvalidStorageDSNSchedulerDB => "invalid scheduler database DSN provided"
  }

  /**
   * The DSN probe (it opens a database): None when it succeeds, Some(reason) when it fails.
   * Like TestDSN it receives the storage type as its text, then the DSN. Its behaviour is
   * not part of this model, so it is a parameter.
   */
  type DSNProbe = (string, string) -> Option<string>

  /** The position of each check in Validate's sequence. */
  function CheckOrder(e: ConfigError): nat {
    match e
    case InvalidLogLevel => 0
    case InvalidStorageType => 1
    case EmptyStorageDSNApp => 2
    case InvalidStorageDSNApp => 3
    case EmptyStorageDSNSchedulerDB => 4
    case InvalidStorageDSNSchedulerDB => 5
  }

  /** The condition each error reports, taken on its own. */
  predicate Violates(c: Config, probe: DSNProbe, e: ConfigError) {
    match e
    case InvalidLogLevel => c.logLevel.Name() !in LogLevelNames
    case InvalidStorageType => c.storage.storageType.Name() !in Types.StorageTypeNames
    case EmptyStorageDSNApp => c.storage.dsnApp == ""
    case InvalidStorageDSNApp => probe(c.storage.storageType.Name(), c.storage.dsnApp).Some?
    case EmptyStorageDSNSchedulerDB => c.storage.dsnSchedulerDB == ""
    case InvalidStorageDSNSchedulerDB => probe(c.storage.storageType.Name(), c.storage.dsnSchedulerDB).Some?
  }

  /**
   * Config.Validate: None stands for a nil error. The first failing check wins:
   * the result is None exactly when no check fails, and otherwise it is a failing check
   * that every earlier check passed.
   */
  function Validate(c: Config, probe: DSNProbe): (r: Option<ConfigError>)
    ensures r.None? <==> forall e :: !Violates(c, probe, e)
    ensures r.Some? ==> Violates(c, probe, r.value)
    ensures r.Some? ==> forall e :: CheckOrder(e) < CheckOrder(r.value) ==> !Violates(c, probe, e)
  {
    if c.logLevel.Name() != Debug.Name() && c.logLevel.Name() != Info.Name()
       && c.logLevel.Name() != Warn.Name() && c.logLevel.Name() != Error.Name() then
      assert Violates(c, probe, InvalidLogLevel);
      Some(InvalidLogLevel)
    else if c.storage.storageType.Name() != Types.StorageType.MySQL.Name()
            && c.storage.storageType.Name() != Types.StorageType.Postgres.Name()
            && c.storage.storageType.Name() != Types.StorageType.SQLite.Name() then
      assert Violates(c, probe, InvalidStorageType);
      Some(InvalidStorageType)
    else if c.storage.dsnApp == "" then
      assert Violates(c, probe, EmptyStorageDSNApp);
      Some(EmptyStorageDSNApp)
    else if probe(c.storage.storageType.Name(), c.storage.dsnApp).Some? then
      assert Violates(c, probe, InvalidStorageDSNApp);
      Some(InvalidStorageDSNApp)
    else if c.storage.dsnSchedulerDB == "" then
      assert Violates(c, probe, EmptyStorageDSNSchedulerDB);
      Some(EmptyStorageDSNSchedulerDB)
    else if probe(c.storage.storageType.Name(), c.storage.dsnSchedulerDB).Some? then
      assert Violates(c, probe, InvalidStorageDSNSchedulerDB);
      Some(InvalidStorageDSNSchedulerDB)
    else
      None
  }

  /** A log level outside debug/info/warn/error is reported first, whatever the other fields hold. */
  lemma InvalidLogLevelFirst(c: Config, probe: DSNProbe)
    ensures Validate(c, probe) == Some(InvalidLogLevel) <==> c.logLevel.Name() !in LogLevelNames
  {
  }

  /** With a good log level, a storage type outside mysql/postgres/sqlite is reported. */
  lemma InvalidStorageTypeSecond(c: Config, probe: DSNProbe)
    requires c.logLevel.Name() in LogLevelNames
    ensures Validate(c, probe) == Some(InvalidStorageType) <==> c.storage.storageType.Name() !in Types.StorageTypeNames
  {
  }

  /**
   * Only the probe's verdict on non-empty DSNs matters: its reason is dropped,
   * and it is never asked about an empty DSN.
   */
  lemma ProbeVerdictOnNonEmptyOnly(c: Config, p1: DSNProbe, p2: DSNProbe)
    requires forall t, dsn :: dsn != "" ==> (p1(t, dsn).Some? <==> p2(t, dsn).Some?)
    ensures Validate(c, p1) == Validate(c, p2)
  {
  }

  /**
   * Validate sees the log level and the storage type only as text: two configurations
   * whose levels and storage types have the same names, and whose DSNs agree, validate alike.
   */
  lemma ValidateSeesOnlyNames(c1: Config, c2: Config, probe: DSNProbe)
    requires c1.logLevel.Name() == c2.logLevel.Name()
    requires c1.storage.storageType.Name() == c2.storage.storageType.Name()
    requires c1.storage.dsnApp == c2.storage.dsnApp && c1.storage.dsnSchedulerDB == c2.storage.dsnSchedulerDB
    ensures Validate(c1, probe) == Validate(c2, probe)
  {
  }

  /**
   * Every failure of the application DSN, empty or rejected, is reported in place of
   * any failure of the scheduler DSN: changing the scheduler DSN changes nothing.
   */
  lemma AppDSNBeforeSchedulerDSN(c: Config, probe: DSNProbe, otherSchedulerDSN: string)
    requires c.logLevel.Name() in LogLevelNames && c.storage.storageType.Name() in Types.StorageTypeNames
    requires c.storage.dsnApp == "" || probe(c.storage.storageType.Name(), c.storage.dsnApp).Some?
    ensures Validate(c, probe) in {Some(EmptyStorageDSNApp), Some(InvalidStorageDSNApp)}
    ensures Validate(c.(storage := c.storage.(dsnSchedulerDB := otherSchedulerDSN)), probe) == Validate(c, probe)
  {
  }

  /** The sentinel errors are told apart by their text as well as by identity. */
  lemma MessagesDistinct(a: ConfigError, b: ConfigError)
    requires a != b
    ensures Message(a) != Message(b)
  {
  }
}
