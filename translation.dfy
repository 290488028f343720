/**
 * The projection of catalog records onto metastore records: the table-type and
 * storage-format vocabularies, the database copy, the column list and the table.
 */
module Translation {
  import opened Wrappers
  import opened JavaLang
  import opened Messages
  import opened Hive
  import opened ColumnOrder

  // ---------------------------------------------------------------- table type

  /** The catalog's table types and the metastore's names for them. */
  const HiveTableTypes: map<string, string> :=
    map["EXTERNAL" := "EXTERNAL_TABLE", "MANAGED" := "MANAGED_TABLE", "VIEW" := "VIRTUAL_VIEW"]

  /** An exact (case-sensitive) match; anything else throws. */
  function TableTypeOf(t: string): (r: Result<string, string>)
    ensures r.Ok? <==> t in HiveTableTypes
    ensures r.Ok? ==> r.value == HiveTableTypes[t]
    ensures r.Err? ==> r.error == "Unrecognized table type " + t
  {
    match t
    case "EXTERNAL" => Ok("EXTERNAL_TABLE")
    case "MANAGED" => Ok("MANAGED_TABLE")
    case "VIEW" => Ok("VIRTUAL_VIEW")
    case _ => Err("Unrecognized table type " + t)
  }

  /** Different catalog table types never land on the same metastore table type. */
  lemma TableTypeOfInjective(t1: string, t2: string)
    requires TableTypeOf(t1).Ok? && TableTypeOf(t2).Ok? && t1 != t2
    ensures TableTypeOf(t1).value != TableTypeOf(t2).value
  {
  }

  // ---------------------------------------------------------------- storage format

  /** Input format, output format and serde class of a storage format. */
  datatype IoFormat = IoFormat(inputFormat: string, outputFormat: string, serde: string)

  const ParquetFormat := IoFormat(
    "org.apache.hadoop.hive.ql.io.parquet.MapredParquetInputFormat",
    "org.apache.hadoop.hive.ql.io.parquet.MapredParquetOutputFormat",
    "org.apache.hadoop.hive.ql.io.parquet.serde.ParquetHiveSerDe")

  /** Parquet, in any letter case, is the only supported format; anything else throws. */
  function FormatOf(provider: string): (r: Result<IoFormat, string>)
    ensures r.Ok? <==> Lower(provider) == "parquet"
    ensures r.Ok? ==> r.value == ParquetFormat
    ensures r.Err? ==> r.error == "Unsupported provider " + provider
  {
    if Lower(provider) == "parquet" then Ok(ParquetFormat)
    else Err("Unsupported provider " + provider)
  }

  /** The match ignores letter case: spellings that lower-case alike are treated alike. */
  lemma FormatOfIgnoresCase(p: string, q: string)
    requires Lower(p) == Lower(q)
    ensures FormatOf(p).Ok? <==> FormatOf(q).Ok?
    ensures FormatOf(p).Ok? ==> FormatOf(p) == FormatOf(q)
  {
  }

  lemma UpperCaseParquetIsSupported()
    ensures FormatOf("PARQUET") == Ok(ParquetFormat)
    ensures FormatOf("Parquet") == Ok(ParquetFormat)
    ensures FormatOf("delta").Err?
  {
    assert Lower("PARQUET") == "parquet";
    assert Lower("Parquet") == "parquet";
    assert Lower("delta")[0] == 'd';
  }

  // ---------------------------------------------------------------- database

  function DatabaseOf(s: SchemaInfo): (d: Database)
    ensures d.name == s.name && d.parameters == s.properties
    ensures d.description == s.comment && d.ownerName == s.owner
  {
    Database(s.name, s.properties, s.comment, s.owner)
  }

  /** The copy loses nothing: different schemas give different databases. */
  lemma DatabaseOfIsLossless(s1: SchemaInfo, s2: SchemaInfo)
    requires DatabaseOf(s1) == DatabaseOf(s2)
    ensures s1 == s2
  {
  }

  // ---------------------------------------------------------------- columns

  function FieldSchemaOf(c: Column): FieldSchema
  {
    FieldSchema(c.name, c.typeName)
  }

  /** A metastore column per catalog column, in the same order. */
  function Projected(cols: seq<Column>): (fs: seq<FieldSchema>)
  {
    seq(|cols|, i requires 0 <= i < |cols| => FieldSchemaOf(cols[i]))
  }

  /** The metastore columns of a table: its columns stably sorted by position, projected. */
  function ColumnsOf(columns: seq<Column>): seq<FieldSchema>
  {
    Projected(SortByPosition(columns))
  }

  /** The column list is the projection of an ordering of the very same columns
      that is ascending by position and keeps input order among equal positions. */
  lemma ColumnsFollowPositionOrder(columns: seq<Column>)
    ensures |ColumnsOf(columns)| == |columns|
    ensures exists t: seq<Column> ::
      && multiset(t) == multiset(columns)
      && Sorted(t)
      && Stable(columns, t)
      && ColumnsOf(columns) == Projected(t)
  {
    var t := SortByPosition(columns);
    SortIsPermutation(columns);
    SortIsSorted(columns);
    SortIsStable(columns);
    assert ColumnsOf(columns) == Projected(t);
  }

  /** Columns whose type names are lower case give lower-case field types: the projection
      copies each type name unchanged, and the sort only rearranges the columns. */
  lemma ColumnsOfKeepsLowerCase(columns: seq<Column>)
    requires forall i :: 0 <= i < |columns| ==> Normalised(columns[i])
    ensures forall i :: 0 <= i < |ColumnsOf(columns)| && ColumnsOf(columns)[i].typ.Some? ==>
      IsLower(ColumnsOf(columns)[i].typ.value)
  {
    var t := SortByPosition(columns);
    SortIsPermutation(columns);
    forall i | 0 <= i < |t|
      ensures Normalised(t[i])
    {
      assert t[i] in multiset(t);
      assert t[i] in columns;
    }
  }

  /** `getFieldSchema`: copy the columns, sort the copy, project it in a loop. */
  method FieldSchemaList(columns: seq<Column>) returns (fields: seq<FieldSchema>)
    ensures fields == ColumnsOf(columns)
  {
    var a := new Column[|columns|](i requires 0 <= i < |columns| => columns[i]);
    assert a[..] == columns;
    SortInPlace(a);
    fields := [];
    for i := 0 to a.Length
      invariant |fields| == i
      invariant forall k :: 0 <= k < i ==> fields[k] == FieldSchemaOf(a[k])
    {
      fields := fields + [FieldSchemaOf(a[i])];
    }
  }

  // ---------------------------------------------------------------- table

  /** `(int) (createdAt / 1000)`: milliseconds to seconds, then narrowed to 32 bits. */
  function CreateTime(createdAt: Long): Int32
  {
    NarrowToInt(DivTruncated(createdAt, 1000))
  }

  /** Up to 2^31 seconds after the epoch the result is the whole number of seconds. */
  lemma CreateTimeIsSeconds(createdAt: Long)
    requires 0 <= createdAt < 0x8000_0000 * 1000
    ensures CreateTime(createdAt) * 1000 <= createdAt < CreateTime(createdAt) * 1000 + 1000
    ensures CreateTime(createdAt) == createdAt / 1000
  {
    var q := DivTruncated(createdAt, 1000);
    assert q == createdAt / 1000;
    assert 0 <= q < 0x8000_0000;
  }

  /** Hadoop wants `s3a:`: the first `s3:` of the location is rewritten. */
  function S3aLocation(location: string): string
  {
    ReplaceFirst(location, "s3:", "s3a:")
  }

  lemma S3aLocationRewritesFirstOnly(location: string)
    ensures (forall i :: !OccursAt(location, "s3:", i)) ==> S3aLocation(location) == location
    ensures forall i: nat ::
      (OccursAt(location, "s3:", i) && (forall j :: 0 <= j < i ==> !OccursAt(location, "s3:", j)))
      ==> S3aLocation(location) == location[..i] + "s3a:" + location[i + 3..]
  {
    if forall i :: !OccursAt(location, "s3:", i) {
      ReplaceFirstNoMatch(location, "s3:", "s3a:");
    }
    forall i: nat | OccursAt(location, "s3:", i) && (forall j :: 0 <= j < i ==> !OccursAt(location, "s3:", j))
      ensures S3aLocation(location) == location[..i] + "s3a:" + location[i + 3..]
    {
      ReplaceFirstAtFirstMatch(location, "s3:", "s3a:", i);
    }
  }

  lemma S3aLocationOfS3Uri(rest: string)
    ensures S3aLocation("s3:" + rest) == "s3a:" + rest
  {
    assert ("s3:" + rest)[..3] == "s3:";
    assert ("s3:" + rest)[3..] == rest;
  }

  /** The message of the `ArrayIndexOutOfBoundsException` thrown by `fullName[index]`. */
  function IndexMessage(index: nat, length: nat): string
  {
    "Index " + NatToString(index) + " out of bounds for length " + NatToString(length)
  }

  /** The descriptor's column list after `addToCols` of each field in turn: the list is
      created by the first call, so it stays unset (null) when there is no field. */
  function AddedToCols(fields: seq<FieldSchema>): Option<seq<FieldSchema>>
  {
    if fields == [] then None else Some(fields)
  }

  const SerDeParameters: map<string, string> := map["serialization.format" := "1"]

  /** `getTable(TableInfo)`; on failure, the message of the exception it throws. */
  function TableOf(info: TableInfo): Result<Table, string>
  {
    var fullName := Split(info.fullName);
    if |fullName| < 2 then Err(IndexMessage(1, |fullName|))
    else if |fullName| < 3 then Err(IndexMessage(2, |fullName|))
    else
      var tableType := TableTypeOf(info.tableType);
      if tableType.Err? then Err(tableType.error)
      else
        var io := FormatOf(info.dataSourceFormat);
        if io.Err? then Err(io.error)
        else
          Ok(Table(
            fullName[1], fullName[2], info.deltaRuntimeProperties, info.owner,
            CreateTime(info.createdAt), tableType.value, [],
            StorageDescriptor(
              S3aLocation(info.storageLocation), io.value.inputFormat, io.value.outputFormat,
              AddedToCols(ColumnsOf(info.columns)), -1, false, map[],
              SerDeInfo(io.value.serde, SerDeParameters))))
  }

  /** The projection fails exactly for a short full name, an unknown table type or an
      unsupported format, and reports the first of these in that order. */
  lemma TableOfFailures(info: TableInfo)
    ensures TableOf(info).Ok? <==>
      |Split(info.fullName)| >= 3 && info.tableType in HiveTableTypes && Lower(info.dataSourceFormat) == "parquet"
    ensures |Split(info.fullName)| < 2 ==> TableOf(info) == Err(IndexMessage(1, |Split(info.fullName)|))
    ensures |Split(info.fullName)| == 2 ==> TableOf(info) == Err(IndexMessage(2, 2))
    ensures |Split(info.fullName)| >= 3 && info.tableType !in HiveTableTypes ==>
      TableOf(info) == Err("Unrecognized table type " + info.tableType)
    ensures |Split(info.fullName)| >= 3 && info.tableType in HiveTableTypes && Lower(info.dataSourceFormat) != "parquet" ==>
      TableOf(info) == Err("Unsupported provider " + info.dataSourceFormat)
  {
  }

  /** The database and table names are segments 1 and 2 of the full name; the catalog
      segment is dropped. For a full name `cat.db.tbl` they are `db` and `tbl`. */
  lemma TableOfNames(info: TableInfo, cat: string, db: string, tbl: string)
    ensures TableOf(info).Ok? ==>
      TableOf(info).value.dbName == Split(info.fullName)[1] && TableOf(info).value.tableName == Split(info.fullName)[2]
    ensures info.fullName == cat + "." + db + "." + tbl && '.' !in cat && '.' !in db && '.' !in tbl && tbl != "" ==>
      |Split(info.fullName)| == 3 &&
      (TableOf(info).Ok? ==> TableOf(info).value.dbName == db && TableOf(info).value.tableName == tbl)
  {
    if info.fullName == cat + "." + db + "." + tbl && '.' !in cat && '.' !in db && '.' !in tbl && tbl != "" {
      QualifiedNameSplits(cat, db, tbl);
    }
  }

  /** What a successful projection fixes regardless of the record. */
  lemma TableOfFixedFields(info: TableInfo)
    requires TableOf(info).Ok?
    ensures var t := TableOf(info).value;
      && t.partitionKeys == []
      && t.tableType in HiveTableTypes.Values
      && t.sd.numBuckets == -1 && !t.sd.compressed && t.sd.parameters == map[]
      && t.sd.inputFormat == ParquetFormat.inputFormat
      && t.sd.outputFormat == ParquetFormat.outputFormat
      && t.sd.serdeInfo == SerDeInfo(ParquetFormat.serde, map["serialization.format" := "1"])
      && t.parameters == info.deltaRuntimeProperties && t.owner == info.owner
      && t.createTime == CreateTime(info.createdAt)
      && t.sd.location == S3aLocation(info.storageLocation)
      && (info.columns == [] ==> t.sd.cols.None?)
      && (info.columns != [] ==> t.sd.cols == Some(ColumnsOf(info.columns)))
  {
    SortIsPermutation(info.columns);
    assert info.tableType in HiveTableTypes;
    assert HiveTableTypes[info.tableType] in HiveTableTypes.Values;
  }

  /** The expected names the tests split: `syncdb.p_table1` is `syncdb` then `p_table1`. */
  lemma SampleFullName()
    ensures Split("syncdb.p_table1") == ["syncdb", "p_table1"]
  {
    var parts := ["syncdb", "p_table1"];
    assert Join(parts[1..]) == "p_table1";
    assert Join(parts) == "syncdb.p_table1";
    SplitJoin(parts);
    assert "syncdb.p_table1"[6] == '.';
  }

  /** The table the tests read: full name `cat.syncdb.p_table1` (split as
      `QualifiedNameSplits` shows), external, parquet, stored at `s3://bucket/path`. */
  lemma SampleTable(info: TableInfo)
    requires Split(info.fullName) == ["cat", "syncdb", "p_table1"]
    requires info.tableType == "EXTERNAL" && info.dataSourceFormat == "PARQUET"
    requires info.storageLocation == "s3://bucket/path"
    ensures TableOf(info).Ok?
    ensures TableOf(info).value.dbName == "syncdb" && TableOf(info).value.tableName == "p_table1"
    ensures TableOf(info).value.tableType == "EXTERNAL_TABLE"
    ensures TableOf(info).value.sd.location == "s3a://bucket/path"
  {
    assert Lower("PARQUET") == "parquet";
    assert info.storageLocation == "s3:" + "//bucket/path";
    S3aLocationOfS3Uri("//bucket/path");
  }

  /** Columns `c2` at position 1 and `c1` at position 0 come out as `c1, c2`. */
  lemma SampleColumns(c1: Column, c2: Column)
    requires c1.position == 0 && c2.position == 1
    ensures ColumnsOf([c2, c1]) == [FieldSchemaOf(c1), FieldSchemaOf(c2)]
  {
    assert [c2, c1][..1] == [c2];
    assert SortByPosition([c2]) == [c2];
    assert Insert([c2], c1) == Insert([], c1) + [c2];
  }

  /** `getTable(TableInfo)` as written: successive setters and an `addToCols` loop. */
  method BuildTable(info: TableInfo) returns (r: Result<Table, string>)
    ensures r == TableOf(info)
  {
    var fullName := Split(info.fullName);
    if |fullName| < 2 {
      return Err(IndexMessage(1, |fullName|));
    }
    var dbName := fullName[1];
    if |fullName| < 3 {
      return Err(IndexMessage(2, |fullName|));
    }
    var tableName := fullName[2];
    var parameters := info.deltaRuntimeProperties;
    var owner := info.owner;
    var createTime := CreateTime(info.createdAt);
    var tableType := TableTypeOf(info.tableType);
    if tableType.Err? {
      return Err(tableType.error);
    }
    var location := S3aLocation(info.storageLocation);
    var ioformat := FormatOf(info.dataSourceFormat);
    if ioformat.Err? {
      return Err(ioformat.error);
    }
    var fields := FieldSchemaList(info.columns);
    var cols: Option<seq<FieldSchema>> := None;
    for i := 0 to |fields|
      invariant cols == AddedToCols(fields[..i])
    {
      var list := if cols.None? then [] else cols.value;
      assert fields[..i + 1] == fields[..i] + [fields[i]];
      cols := Some(list + [fields[i]]);
    }
    var serdeParameters: map<string, string> := map[];
    serdeParameters := serdeParameters["serialization.format" := "1"];
    var serDeInfo := SerDeInfo(ioformat.value.serde, serdeParameters);
    var sd := StorageDescriptor(
      location, ioformat.value.inputFormat, ioformat.value.outputFormat,
      cols, -1, false, map[], serDeInfo);
    r := Ok(Table(dbName, tableName, parameters, owner, createTime, tableType.value, [], sd));
    assert fields[..|fields|] == fields;
  }
}
