/**
 * The per-team OpenAI configuration store: the `openai_configs` table
 * (`team_id TEXT PRIMARY KEY, config JSONB NOT NULL`) reached through the
 * connection parameters decomposed from `DATABASE_URL`. Every operation
 * re-derives the parameters; `setup_database` raises on failure, while
 * save, get and delete swallow every failure and answer `False`/`None`.
 * There is no in-memory fallback.
 */
module Store {
  import opened Wrappers
  import opened PyValues
  import opened DatabaseUrl

  /** The rows of `openai_configs`: at most one configuration per team. */
  type Table = map<string, Config>

  /** Why `setup_database` raised. */
  datatype SetupError =
    | UrlNotSet        // "DATABASE_URL environment variable is required"
    | UrlIndexError    // a subscript of the URL decomposition was out of range
    | ConnectFailed    // the driver could not connect or run the statement

  datatype SetupOutcome = Completed | Raised(error: SetupError)

  /** `INSERT ... ON CONFLICT (team_id) DO UPDATE SET config = ...`: insert or replace one row. */
  function Upserted(t: Table, team: string, config: Config): (r: Table)
    ensures r.Keys == t.Keys + {team}
    ensures r[team] == config
    ensures forall other :: other in t && other != team ==> r[other] == t[other]
  {
    t[team := config]
  }

  /** `DELETE ... WHERE team_id = %s`; a `None` team id compares as SQL NULL and matches no row. */
  function RowsWithout(t: Table, team: Option<string>): (r: Table)
    ensures team.Some? ==> r.Keys == t.Keys - {team.value}
    ensures team.None? ==> r.Keys == t.Keys
    ensures forall other :: other in r ==> r[other] == t[other]
  {
    if team.Some? then t - {team.value} else t
  }

  /** `SELECT config ... WHERE team_id = %s` followed by `fetchone()`. */
  function Select(t: Table, team: Option<string>): (r: Option<Config>)
    ensures r.Some? <==> team.Some? && team.value in t
    ensures r.Some? ==> r.value == t[team.value]
  {
    if team.Some? && team.value in t then Some(t[team.value]) else None
  }

  /** After a successful save, the team's row is the saved configuration. */
  lemma SaveThenGet(t: Table, team: string, config: Config)
    ensures Select(Upserted(t, team, config), Some(team)) == Some(config)
  {
  }

  /** A save touches no other team's row. */
  lemma SaveKeepsOthers(t: Table, team: string, config: Config, other: Option<string>)
    requires other != Some(team)
    ensures Select(Upserted(t, team, config), other) == Select(t, other)
  {
  }

  /** Saving the same configuration twice leaves the table as saving it once. */
  lemma SaveIdempotent(t: Table, team: string, config: Config)
    ensures Upserted(Upserted(t, team, config), team, config) == Upserted(t, team, config)
  {
  }

  /** After a delete, the team has no row. */
  lemma DeleteThenGet(t: Table, team: Option<string>)
    ensures Select(RowsWithout(t, team), team) == None
  {
  }

  /** A delete touches no other team's row. */
  lemma DeleteKeepsOthers(t: Table, team: Option<string>, other: Option<string>)
    requires other != team
    ensures Select(RowsWithout(t, team), other) == Select(t, other)
  {
  }

  /** Deleting a team that has no row changes nothing. */
  lemma DeleteAbsent(t: Table, team: Option<string>)
    requires team.None? || team.value !in t
    ensures RowsWithout(t, team) == t
  {
  }

  class ConfigStore {
    /** `DATABASE_URL`, read once from the environment when the module is loaded. */
    const databaseUrl: Option<string>
    /** The rows of `openai_configs` on the database server. */
    var table: Table
    /** Whether `CREATE TABLE IF NOT EXISTS openai_configs` has taken effect. */
    var tableCreated: bool

    constructor (databaseUrl: Option<string>, table: Table, tableCreated: bool)
      ensures this.databaseUrl == databaseUrl && this.table == table && this.tableCreated == tableCreated
    {
      this.databaseUrl := databaseUrl;
      this.table := table;
      this.tableCreated := tableCreated;
    }

    /** `not DATABASE_URL`: unset, or set to the empty string. */
    predicate UrlUnset() {
      databaseUrl.None? || databaseUrl.value == ""
    }

    /** The connection parameters each operation builds, or `None` if the URL is unset or malformed. */
    function Params(): Option<ConnParams> {
      if UrlUnset() then None else ParseDatabaseUrl(databaseUrl.value)
    }

    /**
     * A statement against `openai_configs` completes: the URL is set and
     * decomposes, the server accepts the connection (`dbUp`), and the table
     * exists.
     */
    predicate Reachable(dbUp: bool)
      reads this
    {
      Params().Some? && dbUp && tableCreated
    }

    /** `setup_database`: create the table if needed, raising on every failure. */
    method SetupDatabase(dbUp: bool) returns (r: SetupOutcome)
      modifies this`tableCreated
      ensures r == Completed <==> Params().Some? && dbUp
      ensures r == Raised(UrlNotSet) <==> UrlUnset()
      ensures r == Raised(UrlIndexError) <==> !UrlUnset() && Params().None?
      ensures r == Raised(ConnectFailed) <==> Params().Some? && !dbUp
      ensures tableCreated == (old(tableCreated) || r == Completed)
    {
      if UrlUnset() {
        return Raised(UrlNotSet);
      }
      var params := ParseDatabaseUrl(databaseUrl.value);
      if params.None? {
        return Raised(UrlIndexError);
      }
      if !dbUp {
        return Raised(ConnectFailed);
      }
      tableCreated := true;
      r := Completed;
    }

    /**
     * `save_openai_config`: upsert the team's row and answer `True`; answer
     * `False` with the table untouched when the URL is unset or malformed,
     * the server is down, the table is missing, or the team id is `None`
     * (a NULL primary key is rejected).
     */
    method Save(team: Option<string>, config: Config, dbUp: bool) returns (ok: bool)
      modifies this`table
      ensures ok <==> Reachable(dbUp) && team.Some?
      ensures table == if ok then Upserted(old(table), team.value, config) else old(table)
    {
      if UrlUnset() {
        return false;
      }
      var params := ParseDatabaseUrl(databaseUrl.value);
      if params.None? || !dbUp || !tableCreated || team.None? {
        return false;
      }
      table := Upserted(table, team.value, config);
      ok := true;
    }

    /**
     * `get_openai_config`: the team's stored configuration, or `None` when
     * there is no row or any failure occurred.
     */
    method Get(team: Option<string>, dbUp: bool) returns (r: Option<Config>)
      ensures r == Fetched(this, team, dbUp)
      ensures r.Some? <==> Reachable(dbUp) && team.Some? && team.value in table
      ensures r.Some? ==> r.value == table[team.value]
    {
      if UrlUnset() {
        return None;
      }
      var params := ParseDatabaseUrl(databaseUrl.value);
      if params.None? || !dbUp || !tableCreated {
        return None;
      }
      r := Select(table, team);
    }

    /**
     * `delete_openai_config`: remove the team's row and answer `True`, also
     * when there was no row; answer `False` with the table untouched on any
     * failure.
     */
    method Delete(team: Option<string>, dbUp: bool) returns (ok: bool)
      modifies this`table
      ensures ok <==> Reachable(dbUp)
      ensures table == if ok then RowsWithout(old(table), team) else old(table)
    {
      if UrlUnset() {
        return false;
      }
      var params := ParseDatabaseUrl(databaseUrl.value);
      if params.None? || !dbUp || !tableCreated {
        return false;
      }
      table := RowsWithout(table, team);
      ok := true;
    }
  }

  /** What `get_openai_config` answers for a given table and availability. */
  function Fetched(store: ConfigStore, team: Option<string>, dbUp: bool): (r: Option<Config>)
    reads store
    ensures r.Some? <==> store.Reachable(dbUp) && team.Some? && team.value in store.table
  {
    if store.Reachable(dbUp) then Select(store.table, team) else None
  }
}
