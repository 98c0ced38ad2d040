/**
 * The storage backend kind (internal/types). In Go it is a named string type, so a
 * configuration may hold any text; `Other` keeps the text that names no backend.
 */
module Types {

  datatype StorageType = MySQL | Postgres | SQLite | Other(raw: string) {

    /** The string Go holds for this value. */
    function Name(): string {
      match this
      case MySQL => "mysql"
      case Postgres => "postgres"
      case SQLite => "sqlite"
      case Other(raw) => raw
    }
  }

  const StorageTypeNames: set<string> := {"mysql", "postgres", "sqlite"}

  /** The value a configuration loader produces from the text s. */
  function ParseStorageType(s: string): (t: StorageType)
    ensures t.Name() == s
    ensures t.Other? <==> s !in StorageTypeNames
  {
    if s == "mysql" then MySQL
    else if s == "postgres" then Postgres
    else if s == "sqlite" then SQLite
    else Other(s)
  }

  /** Reading back the name of a value gives the value, unless `Other` holds a backend's own name. */
  lemma StorageTypeRoundTrip(t: StorageType)
    requires t.Other? ==> t.raw !in StorageTypeNames
    ensures ParseStorageType(t.Name()) == t
  {
  }
}
