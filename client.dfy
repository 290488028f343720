/**
 * The adapter: each metastore read operation as the REST call it issues and the
 * translation of what comes back; every write and partition operation refuses.
 */
module Client {
  import opened Wrappers
  import opened JavaLang
  import opened Messages
  import opened Hive
  import opened Translation
  import opened Remote

  /** What the client is constructed with (the bearer token only goes into headers). */
  datatype Config = Config(defaultCatalog: string, endpoint: string)

  // ---------------------------------------------------------------- requests

  /** `String.format("%s.%s.%s", catalog, db, table)`. */
  function QualifiedTableName(catalog: string, db: string, table: string): string
  {
    catalog + "." + db + "." + table
  }

  function SchemaUri(cfg: Config, db: string): string
  {
    cfg.endpoint + "/schemas/" + cfg.defaultCatalog + "." + db
  }

  function TableUri(cfg: Config, db: string, table: string): string
  {
    cfg.endpoint + "/tables" + "/" + QualifiedTableName(cfg.defaultCatalog, db, table)
  }

  /** `{"catalog_name":"<catalog>"}`, built by three appends (no JSON escaping). */
  function ListSchemasBody(catalog: string): string
  {
    "{" + "\"catalog_name\":\"" + catalog + "\"" + "}"
  }

  /** `{"catalog_name":"<catalog>","schema_name":"<db>"}`, built by four appends. */
  function ListTablesBody(catalog: string, db: string): string
  {
    "{" + "\"catalog_name\":\"" + catalog + "\"," + "\"schema_name\":\"" + db + "\"" + "}"
  }

  function SchemaRequest(cfg: Config, db: string): Request
  {
    Request(SchemaUri(cfg, db), None)
  }

  function TableRequest(cfg: Config, db: string, table: string): Request
  {
    Request(TableUri(cfg, db, table), None)
  }

  function ListSchemasRequest(cfg: Config): Request
  {
    Request(cfg.endpoint + "/schemas", Some(ListSchemasBody(cfg.defaultCatalog)))
  }

  function ListTablesRequest(cfg: Config, db: string): Request
  {
    Request(cfg.endpoint + "/tables", Some(ListTablesBody(cfg.defaultCatalog, db)))
  }

  /** The table listing body is the schema listing body with the schema name added last. */
  lemma ListTablesBodyExtendsListSchemasBody(catalog: string, db: string)
    ensures var s := ListSchemasBody(catalog);
      ListTablesBody(catalog, db) == s[..|s| - 1] + ",\"schema_name\":\"" + db + "\"}"
  {
    var s := ListSchemasBody(catalog);
    assert s[..|s| - 1] == "{" + "\"catalog_name\":\"" + catalog + "\"";
  }

  /** Distinct schema names give distinct schema URIs. */
  lemma SchemaUriInjective(cfg: Config, db1: string, db2: string)
    requires SchemaUri(cfg, db1) == SchemaUri(cfg, db2)
    ensures db1 == db2
  {
    var p := cfg.endpoint + "/schemas/" + cfg.defaultCatalog + ".";
    assert SchemaUri(cfg, db1) == p + db1 && SchemaUri(cfg, db2) == p + db2;
    assert db1 == (p + db1)[|p|..];
    assert db2 == (p + db2)[|p|..];
  }

  // ---------------------------------------------------------------- databases

  /** `getDatabase(String)`: errors from the status check pass as they are; an
      `IOException` from the exchange or the decoder is converted. */
  function GetDatabase(cfg: Config, env: Env, db: string): Result<Database, Failure>
  {
    match Read(Fetch(env, SchemaRequest(cfg, db)), env.schemaBody)
    case Err(f) => Err(f)
    case Ok(s) => Ok(DatabaseOf(s))
  }

  /** When `getDatabase` succeeds, fails with not-found, or fails otherwise. */
  lemma GetDatabaseOutcomes(cfg: Config, env: Env, db: string)
    ensures var resp := env.exchange(SchemaRequest(cfg, db));
      && (GetDatabase(cfg, env, db).Ok? <==>
            resp.Reply? && resp.status == 200 && env.schemaBody(resp.body).Decoded?)
      && (GetDatabase(cfg, env, db).Ok? ==>
            GetDatabase(cfg, env, db).value == DatabaseOf(env.schemaBody(resp.body).value))
      && ((GetDatabase(cfg, env, db).Err? && GetDatabase(cfg, env, db).error.NoSuchObject?) <==>
            resp.Reply? && resp.status == 404 && env.errorBody(resp.body).Decoded?
            && env.errorBody(resp.body).value.errorCode in NotFoundCodes)
      && (resp.Reply? && resp.status == 404 && env.errorBody(resp.body).Decoded?
          && env.errorBody(resp.body).value.errorCode !in NotFoundCodes ==>
            GetDatabase(cfg, env, db) == Err(TException(env.errorBody(resp.body).value.message)))
      && (resp.Reply? && resp.status != 200 && resp.status != 404 && env.errorBody(resp.body).Decoded? ==>
            GetDatabase(cfg, env, db) == Err(TException(
              env.errorBody(resp.body).value.errorCode + ":" + env.errorBody(resp.body).value.message)))
      && (resp.TransportFailure? ==> GetDatabase(cfg, env, db) == Err(Converted(resp.message)))
      && (resp.Reply? && resp.status != 200 && env.errorBody(resp.body).Malformed? ==>
            GetDatabase(cfg, env, db) == Err(Converted(env.errorBody(resp.body).message)))
      && (resp.Reply? && resp.status == 200 && env.schemaBody(resp.body).Malformed? ==>
            GetDatabase(cfg, env, db) == Err(Converted(env.schemaBody(resp.body).message)))
  {
  }

  /** `dbExists`: true on success, false exactly on not-found, any other failure propagates. */
  function DbExists(cfg: Config, env: Env, db: string): (r: Result<bool, Failure>)
    ensures r == Ok(true) <==> GetDatabase(cfg, env, db).Ok?
    ensures r == Ok(false) <==> GetDatabase(cfg, env, db).Err? && GetDatabase(cfg, env, db).error.NoSuchObject?
    ensures r.Err? ==> r.error.TException? && GetDatabase(cfg, env, db) == Err(r.error)
  {
    match GetDatabase(cfg, env, db)
    case Ok(_) => Ok(true)
    case Err(NoSuchObject(_)) => Ok(false)
    case Err(e) => Err(e)
  }

  /** `getSchemaInfos` as a value, the listing every schema operation starts from. */
  function SchemaListing(cfg: Config, env: Env): Result<seq<SchemaInfo>, Failure>
  {
    match Read(Fetch(env, ListSchemasRequest(cfg)), env.schemaListBody)
    case Err(f) => Err(f)
    case Ok(schemas) => Ok(if schemas.None? then [] else schemas.value)
  }

  /** `getSchemaInfos`: decode into a `ListSchemas` envelope and copy its array out; the
      filter is not used. */
  method GetSchemaInfos(cfg: Config, env: Env, filter: string) returns (r: Result<seq<SchemaInfo>, Failure>)
    ensures r == SchemaListing(cfg, env)
  {
    var fetched := Fetch(env, ListSchemasRequest(cfg));
    if fetched.Err? {
      return Err(fetched.error);
    }
    var decoded := env.schemaListBody(fetched.value);
    if decoded.Malformed? {
      return Err(Converted(decoded.message));
    }
    var envelope := new ListSchemas();
    var schemas: array?<SchemaInfo> := null;
    if decoded.value.Some? {
      var s := decoded.value.value;
      schemas := new SchemaInfo[|s|](i requires 0 <= i < |s| => s[i]);
      assert schemas[..] == s;
    }
    envelope.SetSchemas(schemas);
    var list := envelope.GetSchemaInfos();
    r := Ok(list);
  }

  /** `getDatabaseNames`: the set of the listed schemas' names; the filter is not used. */
  method GetDatabaseNames(cfg: Config, env: Env, filter: string) returns (r: Result<set<string>, Failure>)
    ensures SchemaListing(cfg, env).Err? ==> r == Err(SchemaListing(cfg, env).error)
    ensures SchemaListing(cfg, env).Ok? ==> r.Ok?
    ensures SchemaListing(cfg, env).Ok? && r.Ok? ==>
      forall n :: n in r.value <==> exists s :: s in SchemaListing(cfg, env).value && s.name == n
  {
    var listing := GetSchemaInfos(cfg, env, filter);
    if listing.Err? {
      return Err(listing.error);
    }
    var infos := listing.value;
    var names: set<string> := {};
    for i := 0 to |infos|
      invariant forall n :: n in names <==> exists k :: 0 <= k < i && infos[k].name == n
    {
      names := names + {infos[i].name};
    }
    r := Ok(names);
  }

  /** `getDatabases`: every listed schema projected, in listing order; the filter is not used. */
  method GetDatabases(cfg: Config, env: Env, filter: string) returns (r: Result<seq<Database>, Failure>)
    ensures SchemaListing(cfg, env).Err? ==> r == Err(SchemaListing(cfg, env).error)
    ensures SchemaListing(cfg, env).Ok? ==> r.Ok? && |r.value| == |SchemaListing(cfg, env).value|
    ensures SchemaListing(cfg, env).Ok? && r.Ok? ==>
      forall i :: 0 <= i < |r.value| && i < |SchemaListing(cfg, env).value| ==>
        r.value[i] == DatabaseOf(SchemaListing(cfg, env).value[i])
  {
    var listing := GetSchemaInfos(cfg, env, filter);
    if listing.Err? {
      return Err(listing.error);
    }
    var infos := listing.value;
    var databases: seq<Database> := [];
    for i := 0 to |infos|
      invariant |databases| == i
      invariant forall k :: 0 <= k < i ==> databases[k] == DatabaseOf(infos[k])
    {
      databases := databases + [DatabaseOf(infos[i])];
    }
    r := Ok(databases);
  }

  /** `getDatabasesByNames`: one lookup per name in order; the first failure aborts the call. */
  method GetDatabasesByNames(cfg: Config, env: Env, names: seq<string>) returns (r: Result<seq<Database>, Failure>)
    ensures r.Ok? <==> forall i :: 0 <= i < |names| ==> GetDatabase(cfg, env, names[i]).Ok?
    ensures r.Ok? ==> |r.value| == |names|
    ensures r.Ok? ==> forall i :: 0 <= i < |names| && i < |r.value| ==> GetDatabase(cfg, env, names[i]) == Ok(r.value[i])
    ensures r.Err? ==>
      exists k :: (0 <= k < |names| && GetDatabase(cfg, env, names[k]) == Err(r.error) &&
        forall i :: 0 <= i < k ==> GetDatabase(cfg, env, names[i]).Ok?)
  {
    var databases: seq<Database> := [];
    for i := 0 to |names|
      invariant |databases| == i
      invariant forall k :: 0 <= k < i ==> GetDatabase(cfg, env, names[k]) == Ok(databases[k])
    {
      var d := GetDatabase(cfg, env, names[i]);
      if d.Err? {
        return Err(d.error);
      }
      databases := databases + [d.value];
    }
    r := Ok(databases);
  }

  // ---------------------------------------------------------------- tables

  /** `getTableInfo`: the record of `catalog.db.table`. */
  function GetTableInfo(cfg: Config, env: Env, db: string, table: string): Result<TableInfo, Failure>
  {
    Read(Fetch(env, TableRequest(cfg, db, table)), env.tableBody)
  }

  /** `getTable(String, String)`: not-found passes unchanged; every other failure, the
      projection's included, becomes a generic error with the conversion prefix. */
  function GetTable(cfg: Config, env: Env, db: string, table: string): (r: Result<Table, Failure>)
    ensures r.Ok? <==> GetTableInfo(cfg, env, db, table).Ok? && TableOf(GetTableInfo(cfg, env, db, table).value).Ok?
    ensures r.Ok? ==> r.value == TableOf(GetTableInfo(cfg, env, db, table).value).value
    ensures (r.Err? && r.error.NoSuchObject?) <==>
      GetTableInfo(cfg, env, db, table).Err? && GetTableInfo(cfg, env, db, table).error.NoSuchObject?
    ensures r.Err? && r.error.NoSuchObject? ==> r.error == GetTableInfo(cfg, env, db, table).error
    ensures GetTableInfo(cfg, env, db, table).Err? && GetTableInfo(cfg, env, db, table).error.TException? ==>
      r == Err(Converted(GetTableInfo(cfg, env, db, table).error.message))
    ensures GetTableInfo(cfg, env, db, table).Ok? && TableOf(GetTableInfo(cfg, env, db, table).value).Err? ==>
      r == Err(Converted(TableOf(GetTableInfo(cfg, env, db, table).value).error))
  {
    match GetTableInfo(cfg, env, db, table)
    case Err(NoSuchObject(m)) => Err(NoSuchObject(m))
    case Err(TException(m)) => Err(Converted(m))
    case Ok(info) =>
      match TableOf(info)
      case Ok(t) => Ok(t)
      case Err(m) => Err(Converted(m))
  }

  /** `getDatabase` lets a remote error through as it is; `getTable` wraps the same error. */
  lemma RemoteErrorWrapping(cfg: Config, env: Env, db: string, table: string, code: string, message: string)
    requires env.exchange(SchemaRequest(cfg, db)) == Reply(500, "e")
    requires env.exchange(TableRequest(cfg, db, table)) == Reply(500, "e")
    requires env.errorBody("e") == Decoded(ErrorResponse(code, message))
    ensures GetDatabase(cfg, env, db) == Err(TException(code + ":" + message))
    ensures GetTable(cfg, env, db, table) == Err(TException(ConvertPrefix + code + ":" + message))
  {
    assert ConvertPrefix + (code + ":" + message) == ConvertPrefix + code + ":" + message;
  }

  /** An error the lookup already converted (a transport failure, an undecodable error body
      or an undecodable table body) is converted again, so its message carries the prefix twice. */
  lemma ConvertedLookupErrorIsPrefixedTwice(cfg: Config, env: Env, db: string, table: string)
    ensures var resp := env.exchange(TableRequest(cfg, db, table));
      && (resp.TransportFailure? ==>
            GetTable(cfg, env, db, table) == Err(TException(ConvertPrefix + ConvertPrefix + resp.message)))
      && (resp.Reply? && resp.status == 200 && env.tableBody(resp.body).Malformed? ==>
            GetTable(cfg, env, db, table) ==
              Err(TException(ConvertPrefix + ConvertPrefix + env.tableBody(resp.body).message)))
      && (resp.Reply? && resp.status != 200 && env.errorBody(resp.body).Malformed? ==>
            GetTable(cfg, env, db, table) ==
              Err(TException(ConvertPrefix + ConvertPrefix + env.errorBody(resp.body).message)))
  {
    var resp := env.exchange(TableRequest(cfg, db, table));
    if resp.TransportFailure? {
      assert ConvertPrefix + (ConvertPrefix + resp.message) == ConvertPrefix + ConvertPrefix + resp.message;
    }
    if resp.Reply? && resp.status == 200 && env.tableBody(resp.body).Malformed? {
      var m := env.tableBody(resp.body).message;
      assert ConvertPrefix + (ConvertPrefix + m) == ConvertPrefix + ConvertPrefix + m;
    }
    if resp.Reply? && resp.status != 200 && env.errorBody(resp.body).Malformed? {
      var m := env.errorBody(resp.body).message;
      assert ConvertPrefix + (ConvertPrefix + m) == ConvertPrefix + ConvertPrefix + m;
    }
  }

  /** When the decoder normalises column types, every column type of a table read from the
      service is lower case, as `setTypeName` leaves it. */
  lemma GetTableColumnTypesAreLowerCase(cfg: Config, env: Env, db: string, table: string)
    requires DecodesNormalised(env)
    ensures GetTable(cfg, env, db, table).Ok? ==>
      var cols := GetTable(cfg, env, db, table).value.sd.cols;
      cols.Some? ==> forall i :: 0 <= i < |cols.value| && cols.value[i].typ.Some? ==> IsLower(cols.value[i].typ.value)
  {
    if GetTable(cfg, env, db, table).Ok? {
      var info := GetTableInfo(cfg, env, db, table).value;
      var resp := env.exchange(TableRequest(cfg, db, table));
      assert env.tableBody(resp.body).Decoded? && info == env.tableBody(resp.body).value;
      TableOfFixedFields(info);
      ColumnsOfKeepsLowerCase(info.columns);
    }
  }

  /** A malformed full name in a 200 reply is a generic error, never not-found. */
  lemma MalformedFullNameIsGenericError(cfg: Config, env: Env, db: string, table: string)
    requires GetTableInfo(cfg, env, db, table).Ok?
    requires |Split(GetTableInfo(cfg, env, db, table).value.fullName)| < 3
    ensures GetTable(cfg, env, db, table).Err? && GetTable(cfg, env, db, table).error.TException?
  {
    TableOfFailures(GetTableInfo(cfg, env, db, table).value);
  }

  /** When the service describes the table that was asked for, the metastore table
      carries the asked names. */
  lemma GetTableKeepsNames(cfg: Config, env: Env, db: string, table: string)
    requires '.' !in cfg.defaultCatalog && '.' !in db && '.' !in table && table != ""
    requires GetTableInfo(cfg, env, db, table).Ok?
    requires GetTableInfo(cfg, env, db, table).value.fullName == QualifiedTableName(cfg.defaultCatalog, db, table)
    ensures GetTable(cfg, env, db, table).Ok? ==>
      GetTable(cfg, env, db, table).value.dbName == db && GetTable(cfg, env, db, table).value.tableName == table
  {
    TableOfNames(GetTableInfo(cfg, env, db, table).value, cfg.defaultCatalog, db, table);
  }

  /** `tableExists`: true on success, false exactly on not-found, any other failure propagates. */
  function TableExists(cfg: Config, env: Env, db: string, table: string): (r: Result<bool, Failure>)
    ensures r == Ok(true) <==> GetTable(cfg, env, db, table).Ok?
    ensures r == Ok(false) <==>
      GetTable(cfg, env, db, table).Err? && GetTable(cfg, env, db, table).error.NoSuchObject?
    ensures r.Err? ==> r.error.TException? && GetTable(cfg, env, db, table) == Err(r.error)
  {
    match GetTable(cfg, env, db, table)
    case Ok(_) => Ok(true)
    case Err(NoSuchObject(_)) => Ok(false)
    case Err(e) => Err(e)
  }

  /** `getTableInfos` as a value, the listing the table-name operation starts from. */
  function TableListing(cfg: Config, env: Env, db: string): Result<seq<TableInfo>, Failure>
  {
    match Read(Fetch(env, ListTablesRequest(cfg, db)), env.tableListBody)
    case Err(f) => Err(f)
    case Ok(tables) => Ok(if tables.None? then [] else tables.value)
  }

  /** `getTableInfos`: decode into a `ListTables` envelope and copy its array out. */
  method GetTableInfos(cfg: Config, env: Env, db: string) returns (r: Result<seq<TableInfo>, Failure>)
    ensures r == TableListing(cfg, env, db)
  {
    var fetched := Fetch(env, ListTablesRequest(cfg, db));
    if fetched.Err? {
      return Err(fetched.error);
    }
    var decoded := env.tableListBody(fetched.value);
    if decoded.Malformed? {
      return Err(Converted(decoded.message));
    }
    var envelope := new ListTables();
    var tables: array?<TableInfo> := null;
    if decoded.value.Some? {
      var s := decoded.value.value;
      tables := new TableInfo[|s|](i requires 0 <= i < |s| => s[i]);
      assert tables[..] == s;
    }
    envelope.SetTables(tables);
    var list := envelope.GetTableInfos();
    r := Ok(list);
  }

  /** `getTableNames`: the lower-cased names of the listed tables; the filter is not used. */
  method GetTableNames(cfg: Config, env: Env, db: string, filter: string) returns (r: Result<set<string>, Failure>)
    ensures TableListing(cfg, env, db).Err? ==> r == Err(TableListing(cfg, env, db).error)
    ensures TableListing(cfg, env, db).Ok? ==> r.Ok?
    ensures TableListing(cfg, env, db).Ok? && r.Ok? ==>
      forall n :: n in r.value <==> exists t :: t in TableListing(cfg, env, db).value && Lower(t.name) == n
  {
    var listing := GetTableInfos(cfg, env, db);
    if listing.Err? {
      return Err(listing.error);
    }
    var infos := listing.value;
    var names: set<string> := {};
    for i := 0 to |infos|
      invariant forall n :: n in names <==> exists k :: 0 <= k < i && Lower(infos[k].name) == n
    {
      names := names + {Lower(infos[i].name)};
    }
    r := Ok(names);
  }

  /** `getTablesByNames`: one lookup per name in order; the first failure aborts the call. */
  method GetTablesByNames(cfg: Config, env: Env, db: string, names: seq<string>) returns (r: Result<seq<Table>, Failure>)
    ensures r.Ok? <==> forall i :: 0 <= i < |names| ==> GetTable(cfg, env, db, names[i]).Ok?
    ensures r.Ok? ==> |r.value| == |names|
    ensures r.Ok? ==> forall i :: 0 <= i < |names| && i < |r.value| ==> GetTable(cfg, env, db, names[i]) == Ok(r.value[i])
    ensures r.Err? ==>
      exists k :: (0 <= k < |names| && GetTable(cfg, env, db, names[k]) == Err(r.error) &&
        forall i :: 0 <= i < k ==> GetTable(cfg, env, db, names[i]).Ok?)
  {
    var tables: seq<Table> := [];
    for i := 0 to |names|
      invariant |tables| == i
      invariant forall k :: 0 <= k < i ==> GetTable(cfg, env, db, names[k]) == Ok(tables[k])
    {
      var t := GetTable(cfg, env, db, names[i]);
      if t.Err? {
        return Err(t.error);
      }
      tables := tables + [t.value];
    }
    r := Ok(tables);
  }

  // ---------------------------------------------------------------- unsupported

  /** The write and partition operations of the metastore interface, with their arguments. */
  datatype UnsupportedOp =
    | CreateDatabase(name: string)
    | CreateDatabaseWithDetails(name: string, description: string, location: string, params: map<string, string>)
    | CreateDatabaseFromRecord(database: Database)
    | DropDatabase(dbName: string)
    | CreateTable(table: Table)
    | DropTable(dbName: string, tableName: string)
    | CreatePartition(partitionTable: Table, values: seq<string>)
    | AddPartition(partition: Partition)
    | AddPartitions(partitions: seq<Partition>)
    | GetPartitionNames(dbName: string, tableName: string, maxSize: Short)
    | DropPartition(dbName: string, tableName: string, arguments: seq<string>)
    | GetPartitions(dbName: string, tableName: string, maxSize: Short)
    | DropPartitions(dbName: string, tableName: string, partNames: seq<string>)
    | GetPartitionsByNames(dbName: string, tableName: string, names: seq<string>)
    | AlterTable(dbName: string, tableName: string, newTable: Table)
    | AlterPartition(dbName: string, tableName: string, partition: Partition)
    | AlterPartitions(dbName: string, tableName: string, partitions: seq<Partition>)
    | AppendPartition(dbName: string, tableName: string, partitionValues: seq<string>)

  const NotImplemented := "method not implemented"

  /** Every one of them throws the same generic error, whatever its arguments, without
      any request being made. */
  function Unsupported(op: UnsupportedOp): (r: Result<(), Failure>)
    ensures r == Err(TException(NotImplemented))
  {
    Err(TException(NotImplemented))
  }
}
