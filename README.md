# Unity Catalog metastore adapter: a verified model

The adapter lets an engine that speaks the Hive Metastore interface read tables from a
Unity Catalog service. Each single read operation (`getDatabase`, `getTable`, the name
listings and the existence checks) sends one REST request to the catalog service; the
"by names" lookups send one request per name, in order. The adapter turns the reply into a Hive `Database`/`Table`, a
`NoSuchObjectException` or a generic `TException`. Every write and partition operation
refuses with a fixed error.

The model has these modules:

- `Wrappers`: `Option`, `Result`.
- `JavaLang`: the Java behaviour the adapter relies on, written out:
  - `String.split("\\.")`, which drops trailing empty segments;
  - the first-occurrence `replaceFirst`;
  - `long` division, which truncates toward zero;
  - the `(int)` narrowing;
  - ASCII `toLowerCase`.
- `Messages`: the decoded catalog records. `SchemaInfo`, `ErrorResponse`, `TableInfo` and
  the `Column` value are datatypes. The mutable records are classes: `ColumnInfo`, and the
  `ListSchemas`/`ListTables` envelopes, which hold a nullable array.
- `Hive`: the metastore records the adapter produces.
- `ColumnOrder`: the stable sort of columns by position.
  - `SortByPosition` is the specification.
  - `SortInPlace` is an in-place array insertion sort proved equal to it.
  - `StableSortIsUnique` proves that every stable sort gives this result, so the model
    agrees with Java's `List.sort`.
- `Translation`: the table-type and storage-format vocabularies and the database
  projection. It also has the column projection (`FieldSchemaList`, imperative, against
  `ColumnsOf`) and the table projection (`BuildTable`, imperative, against `TableOf`).
- `Remote`: the service boundary.
  - The HTTP exchange and the JSON decoder are inputs, held in an `Env` of functions.
  - `HandleErrorResponse` classifies a status and an error body.
  - `Converted` is `convertToTException`.
- `Client`: the operations, with request composition (URIs and the list-request bodies)
  and every unsupported operation.

Exceptions are values. `Failure` is either `NoSuchObject(message)` or
`TException(message)`, because `NoSuchObjectException` is a `TException` that callers
catch on its own. Projection errors are plain messages: they are the `java.lang.Exception`
thrown by `getTableType`/`getInputOutputFormat`, or the `ArrayIndexOutOfBoundsException`
of a short full name. `getTable(db, tbl)` re-wraps exactly these, and every generic error
from the lookup, with the conversion prefix.

Some of the code's behaviour is easy to misread; the model follows the code as written:

- The location rewrite replaces the first `s3:` anywhere in the location, not only a
  leading one.
- A full name with fewer than three segments is not undefined behaviour. It throws an
  index exception, which `getTable(db, tbl)` turns into a generic error with the prefix.
  `MalformedFullNameIsGenericError` states this.
- In `getTable(db, tbl)`, a generic error that the lookup already converted is prefixed a
  second time. This happens for a transport failure, an error body that does not decode and
  a table body that does not decode; `ConvertedLookupErrorIsPrefixedTwice` states it. An
  error the status check built from a decoded error envelope carries no prefix yet, so it
  gets exactly one (`RemoteErrorWrapping`).
- `createTime` has no range precondition. The division truncates toward zero and the
  result wraps to 32 bits as Java's cast does. `CreateTimeIsSeconds` gives the plain
  reading for timestamps up to 2^31 seconds.

## Model

| member | source | states |
|---|---|---|
| JavaLang.DivTruncated | hms-lambda-handler/src/main/java/com/databricks/unity/UnityCatalogClient.java:347 | `long` division by a positive divisor truncates toward zero: the remainder has the dividend's sign and is smaller than the divisor |
| JavaLang.NarrowToInt | hms-lambda-handler/src/main/java/com/databricks/unity/UnityCatalogClient.java:347 | the `(int)` cast keeps the value modulo 2^32 in the signed 32-bit range, and is the identity on values already in range |
| JavaLang.LowerIsLower | hms-lambda-handler/src/main/java/com/databricks/unity/messages/ColumnInfo.java:59-61 | lower-casing yields a lower-case string of the same length |
| JavaLang.LowerKeepsLower | hms-lambda-handler/src/main/java/com/databricks/unity/messages/ColumnInfo.java:59-61 | lower-casing an already lower-case string leaves it unchanged |
| JavaLang.LowerIdempotent | hms-lambda-handler/src/main/java/com/databricks/unity/messages/ColumnInfo.java:59-61 | lower-casing twice is lower-casing once |
| JavaLang.SplitAll | hms-lambda-handler/src/main/java/com/databricks/unity/UnityCatalogClient.java:342 | splitting on `.` gives at least one segment, and no segment contains a dot |
| JavaLang.DropTrailingEmpty | hms-lambda-handler/src/main/java/com/databricks/unity/UnityCatalogClient.java:342 | `split` keeps a prefix of the segments: what it drops is empty, and a non-empty result does not end in an empty segment |
| JavaLang.SplitAllNoDot | hms-lambda-handler/src/main/java/com/databricks/unity/UnityCatalogClient.java:342 | a string without a dot splits into itself |
| JavaLang.SplitAllSeparated | hms-lambda-handler/src/main/java/com/databricks/unity/UnityCatalogClient.java:342 | splitting `a.b`, with `a` dot-free, gives `a` followed by the segments of `b` |
| JavaLang.SplitJoin | hms-lambda-handler/src/main/java/com/databricks/unity/UnityCatalogClient.java:342 | joining dot-free segments with dots and splitting again gives the segments back |
| JavaLang.JoinSplit | hms-lambda-handler/src/main/java/com/databricks/unity/UnityCatalogClient.java:342 | splitting and joining with dots gives the string back |
| JavaLang.QualifiedNameSplits | hms-lambda-handler/src/main/java/com/databricks/unity/UnityCatalogClient.java:342-344 | `cat.db.tbl` with dot-free parts and a non-empty table splits into exactly `[cat, db, tbl]` |
| JavaLang.ReplaceFirstNoMatch | hms-lambda-handler/src/main/java/com/databricks/unity/UnityCatalogClient.java:354 | with no occurrence of the pattern, `replaceFirst` returns the string unchanged |
| JavaLang.ReplaceFirstAtFirstMatch | hms-lambda-handler/src/main/java/com/databricks/unity/UnityCatalogClient.java:354 | with the first occurrence at `i`, only that occurrence is replaced; the text before and after it is kept |
| Messages.ColumnInfo.constructor | hms-lambda-handler/src/main/java/com/databricks/unity/messages/ColumnInfo.java:28-45 | a new record has null names, false and zeros, and satisfies the lower-case invariant |
| Messages.ColumnInfo.SetName | hms-lambda-handler/src/main/java/com/databricks/unity/messages/ColumnInfo.java:47-53 | the getter returns what was set and every other field is unchanged |
| Messages.ColumnInfo.SetTypeName | hms-lambda-handler/src/main/java/com/databricks/unity/messages/ColumnInfo.java:55-61 | the getter returns the lower-cased argument, an already lower-case argument is stored unchanged, only the type name changes, and the invariant holds afterwards |
| Messages.ColumnInfo.SetNullable | hms-lambda-handler/src/main/java/com/databricks/unity/messages/ColumnInfo.java:63-69 | the getter returns what was set and every other field is unchanged |
| Messages.ColumnInfo.SetPosition | hms-lambda-handler/src/main/java/com/databricks/unity/messages/ColumnInfo.java:71-77 | `getPosition` returns the position set (the sort key) and every other field is unchanged |
| Messages.ColumnInfo.SetTypePrecision | hms-lambda-handler/src/main/java/com/databricks/unity/messages/ColumnInfo.java:79-85 | the getter returns what was set and every other field is unchanged |
| Messages.ColumnInfo.SetTypeScale | hms-lambda-handler/src/main/java/com/databricks/unity/messages/ColumnInfo.java:87-93 | the getter returns what was set and every other field is unchanged |
| Messages.ListSchemas.constructor | hms-lambda-handler/src/main/java/com/databricks/unity/messages/ListSchemas.java:30-34 | a new envelope holds a null array |
| Messages.ListSchemas.SetSchemas | hms-lambda-handler/src/main/java/com/databricks/unity/messages/ListSchemas.java:36-42 | `getSchemas` returns the very array that was set |
| Messages.ListSchemas.GetSchemaInfos | hms-lambda-handler/src/main/java/com/databricks/unity/messages/ListSchemas.java:44-51 | a null array gives the empty list, otherwise the array's elements in order; the envelope is not changed |
| Messages.ListTables.constructor | hms-lambda-handler/src/main/java/com/databricks/unity/messages/ListTables.java:30-34 | a new envelope holds a null array |
| Messages.ListTables.SetTables | hms-lambda-handler/src/main/java/com/databricks/unity/messages/ListTables.java:36-42 | `getTables` returns the very array that was set |
| Messages.ListTables.GetTableInfos | hms-lambda-handler/src/main/java/com/databricks/unity/messages/ListTables.java:44-51 | a null array gives the empty list, otherwise the array's elements in order; the envelope is not changed |
| ColumnOrder.InsertElements | hms-lambda-handler/src/main/java/com/databricks/unity/UnityCatalogClient.java:329 | one insertion step adds exactly the inserted column |
| ColumnOrder.InsertSorted | hms-lambda-handler/src/main/java/com/databricks/unity/UnityCatalogClient.java:329 | inserting into a position-sorted list keeps it sorted |
| ColumnOrder.InsertAtPosition | hms-lambda-handler/src/main/java/com/databricks/unity/UnityCatalogClient.java:329 | inserting behind every column of its position or lower appends the column to those of its position |
| ColumnOrder.SortIsPermutation | hms-lambda-handler/src/main/java/com/databricks/unity/UnityCatalogClient.java:328-329 | the sorted list holds exactly the input columns (multiset equality), so it has the same length |
| ColumnOrder.SortIsSorted | hms-lambda-handler/src/main/java/com/databricks/unity/UnityCatalogClient.java:329 | the sorted list ascends by position |
| ColumnOrder.SortIsStable | hms-lambda-handler/src/main/java/com/databricks/unity/UnityCatalogClient.java:329 | for every position, the columns holding it come out in their input order |
| ColumnOrder.SortedAndStableDetermine | hms-lambda-handler/src/main/java/com/databricks/unity/UnityCatalogClient.java:329 | two position-sorted lists with the same columns in the same order at each position are equal |
| ColumnOrder.StableSortIsUnique | hms-lambda-handler/src/main/java/com/databricks/unity/UnityCatalogClient.java:329 | any sorted, stable rearrangement of the columns is `SortByPosition` of them, so the stable library sort gives the modelled order |
| ColumnOrder.InsertInPlace | hms-lambda-handler/src/main/java/com/databricks/unity/UnityCatalogClient.java:329 | shifting larger columns right and writing the new one stores the insertion of that column into the sorted prefix; the rest of the array is untouched |
| ColumnOrder.SortInPlace | hms-lambda-handler/src/main/java/com/databricks/unity/UnityCatalogClient.java:328-329 | sorting the array in place leaves in it the stable position order of its old contents |
| Translation.TableTypeOf | hms-lambda-handler/src/main/java/com/databricks/unity/UnityCatalogClient.java:301-312 | succeeds exactly for EXTERNAL, MANAGED and VIEW (case-sensitive), mapping them to EXTERNAL_TABLE, MANAGED_TABLE and VIRTUAL_VIEW; any other type fails with "Unrecognized table type " followed by the type |
| Translation.TableTypeOfInjective | hms-lambda-handler/src/main/java/com/databricks/unity/UnityCatalogClient.java:301-312 | distinct recognised types map to distinct metastore types |
| Translation.FormatOf | hms-lambda-handler/src/main/java/com/databricks/unity/UnityCatalogClient.java:314-325 | succeeds exactly when the lower-cased provider is `parquet`, giving the three fixed Parquet class names; any other provider fails with "Unsupported provider " followed by the provider as given |
| Translation.FormatOfIgnoresCase | hms-lambda-handler/src/main/java/com/databricks/unity/UnityCatalogClient.java:315 | providers that lower-case alike are treated alike |
| Translation.UpperCaseParquetIsSupported | hms-lambda-handler/src/main/java/com/databricks/unity/UnityCatalogClient.java:314-323 | `PARQUET` and `Parquet` are accepted, and `delta` is refused |
| Translation.DatabaseOf | hms-lambda-handler/src/main/java/com/databricks/unity/UnityCatalogClient.java:140-147 | the database name, parameters, description and owner are the schema's name, properties, comment and owner |
| Translation.DatabaseOfIsLossless | hms-lambda-handler/src/main/java/com/databricks/unity/UnityCatalogClient.java:140-147 | the copy is injective: different schemas give different databases |
| Translation.ColumnsFollowPositionOrder | hms-lambda-handler/src/main/java/com/databricks/unity/UnityCatalogClient.java:327-338 | the field list has one entry per column and is the name/type projection of a permutation of the columns that is sorted by position and stable |
| Translation.ColumnsOfKeepsLowerCase | hms-lambda-handler/src/main/java/com/databricks/unity/UnityCatalogClient.java:327-338 | if every column's type name is lower case, so is every projected field type: the sort only rearranges and the projection copies type names unchanged (line 334) |
| Translation.FieldSchemaList | hms-lambda-handler/src/main/java/com/databricks/unity/UnityCatalogClient.java:327-338 | copying into an array, sorting it in place and projecting in a loop yields `ColumnsOf` of the columns |
| Translation.CreateTimeIsSeconds | hms-lambda-handler/src/main/java/com/databricks/unity/UnityCatalogClient.java:347 | for a creation time below 2^31 seconds the create time is the whole number of seconds in the milliseconds |
| Translation.S3aLocationRewritesFirstOnly | hms-lambda-handler/src/main/java/com/databricks/unity/UnityCatalogClient.java:353-355 | a location without `s3:` is unchanged; otherwise only its first `s3:` becomes `s3a:` |
| Translation.S3aLocationOfS3Uri | hms-lambda-handler/src/main/java/com/databricks/unity/UnityCatalogClient.java:353-355 | a location starting `s3:` becomes the same location starting `s3a:` |
| Translation.TableOfFailures | hms-lambda-handler/src/main/java/com/databricks/unity/UnityCatalogClient.java:340-374 | the projection succeeds exactly when the full name splits into at least three segments, the table type is recognised and the format is Parquet; on failure it reports the first of these checks to fail, in that order, with its message: the index exception for index 1 or 2 of the short split, "Unrecognized table type " plus the type, or "Unsupported provider " plus the provider |
| Translation.TableOfNames | hms-lambda-handler/src/main/java/com/databricks/unity/UnityCatalogClient.java:342-344 | database and table names are segments 1 and 2 of the split full name; for `cat.db.tbl` they are `db` and `tbl`, and the catalog is dropped |
| Translation.TableOfFixedFields | hms-lambda-handler/src/main/java/com/databricks/unity/UnityCatalogClient.java:345-371 | a projected table has no partition keys, and its parameters and owner come from the record. Its create time and location are `CreateTime` and `S3aLocation` of the record. Its column list is unset (null) when the record has no columns, because `addToCols` creates it on its first call (lines 351, 361-363), and is `ColumnsOf` of the record otherwise. Buckets are -1, it is uncompressed, and its descriptor parameters are empty. It uses the Parquet formats and serde with `serialization.format=1` |
| Translation.SampleFullName | hms-lambda-handler/src/test/java/com/databricks/unity/TestUnityCatalogClient.java:84-88 | the expected name `syncdb.p_table1` the test passes (line 118) splits into `syncdb` and `p_table1` |
| Translation.SampleTable | hms-lambda-handler/src/test/java/com/databricks/unity/TestUnityCatalogClient.java:94-112 | the test's external Parquet table at an `s3:` location projects to db `syncdb`, table `p_table1`, EXTERNAL_TABLE and an `s3a:` location |
| Translation.SampleColumns | hms-lambda-handler/src/main/java/com/databricks/unity/UnityCatalogClient.java:327-338 | columns listed out of position order come out in position order |
| Translation.BuildTable | hms-lambda-handler/src/main/java/com/databricks/unity/UnityCatalogClient.java:340-374 | the setter-by-setter construction gives exactly `TableOf` of the record, failures included. Its `addToCols` loop leaves the column list unset until the first column arrives |
| Remote.Converted | hms-lambda-handler/src/main/java/com/databricks/unity/UnityCatalogClient.java:190-193 | a generic error whose message is the fixed prefix followed by the cause's message |
| Remote.HandleErrorResponse | hms-lambda-handler/src/main/java/com/databricks/unity/UnityCatalogClient.java:112-138 | status 200 goes on. A 404 with one of the three not-found codes is not-found with the message. Any other 404 is a generic error with the message. Any other status is a generic error with `code:message`. An undecodable error body is a converted error |
| Remote.Fetch | hms-lambda-handler/src/main/java/com/databricks/unity/UnityCatalogClient.java:97-102 | gives the body exactly on a 200 reply. Any other reply fails with `handleErrorResponse`'s classification of its status and error body. A transport `IOException` is converted |
| Remote.Read | hms-lambda-handler/src/main/java/com/databricks/unity/UnityCatalogClient.java:102-108 | a fetch failure passes unchanged. Otherwise it succeeds exactly when the body decodes, giving the decoded record, and a decoding `IOException` is converted |
| Client.ListTablesBodyExtendsListSchemasBody | hms-lambda-handler/src/main/java/com/databricks/unity/UnityCatalogClient.java:163-166 | the table-listing body is the schema-listing body with `"schema_name":"<db>"` added as the last member (lines 218-222) |
| Client.SchemaUriInjective | hms-lambda-handler/src/main/java/com/databricks/unity/UnityCatalogClient.java:98 | different schema names are requested at different URIs |
| Client.GetDatabaseOutcomes | hms-lambda-handler/src/main/java/com/databricks/unity/UnityCatalogClient.java:95-110 | success exactly on a 200 reply with a decodable body, giving `DatabaseOf` of it. Not-found exactly on a 404 with a not-found code. The status check's errors pass unwrapped: any other 404 gives the bare message, any other status `code:message`. Only the `IOException`s get the prefix: a transport failure, an undecodable error body and an undecodable schema body |
| Client.DbExists | hms-lambda-handler/src/main/java/com/databricks/unity/UnityCatalogClient.java:75-83 | true exactly when `getDatabase` succeeds, false exactly when it fails with not-found; any other failure propagates unchanged |
| Client.GetSchemaInfos | hms-lambda-handler/src/main/java/com/databricks/unity/UnityCatalogClient.java:159-178 | decoding into the envelope and copying its array gives the schema listing, with a null array read as empty |
| Client.GetDatabaseNames | hms-lambda-handler/src/main/java/com/databricks/unity/UnityCatalogClient.java:180-188 | on success, a name is in the set exactly when some listed schema has it; a listing failure propagates |
| Client.GetDatabases | hms-lambda-handler/src/main/java/com/databricks/unity/UnityCatalogClient.java:195-203 | one database per listed schema, in listing order, each its `DatabaseOf`; a listing failure propagates |
| Client.GetDatabasesByNames | hms-lambda-handler/src/main/java/com/databricks/unity/UnityCatalogClient.java:205-212 | success exactly when every lookup succeeds, with one entry per name in order. Otherwise the error is that of the first failing lookup, and every earlier lookup succeeded |
| Client.GetTable | hms-lambda-handler/src/main/java/com/databricks/unity/UnityCatalogClient.java:376-386 | success exactly when the lookup and the projection succeed, giving the projection. Not-found passes through unchanged, and only a not-found lookup gives not-found. A generic lookup error and a projection error are converted with the prefix |
| Client.RemoteErrorWrapping | hms-lambda-handler/src/main/java/com/databricks/unity/UnityCatalogClient.java:376-386 | the same 500 reply is `code:message` from `getDatabase` but prefix plus `code:message` from `getTable` (lines 95-110 and 137) |
| Client.ConvertedLookupErrorIsPrefixedTwice | hms-lambda-handler/src/main/java/com/databricks/unity/UnityCatalogClient.java:376-386 | a transport failure, an undecodable error body (converted at lines 123-124) or an undecodable table body (lines 296-297), already converted by the lookup, is converted again, so the message carries the prefix twice |
| Client.GetTableColumnTypesAreLowerCase | hms-lambda-handler/src/main/java/com/databricks/unity/UnityCatalogClient.java:327-338 | when every decoded column went through `setTypeName` (ColumnInfo.java:59-61), every column type of a table read by `getTable` is lower case |
| Client.MalformedFullNameIsGenericError | hms-lambda-handler/src/main/java/com/databricks/unity/UnityCatalogClient.java:342-344 | a full name with fewer than three segments makes `getTable` fail with a generic error, never not-found (lines 383-384) |
| Client.GetTableKeepsNames | hms-lambda-handler/src/main/java/com/databricks/unity/UnityCatalogClient.java:285-299 | when the service answers with the table asked for, the metastore table carries the requested database and table names (lines 340-344) |
| Client.TableExists | hms-lambda-handler/src/main/java/com/databricks/unity/UnityCatalogClient.java:85-93 | true exactly when `getTable` succeeds, false exactly when it fails with not-found; any other failure propagates unchanged |
| Client.GetTableInfos | hms-lambda-handler/src/main/java/com/databricks/unity/UnityCatalogClient.java:214-234 | decoding into the envelope and copying its array gives the table listing, with a null array read as empty |
| Client.GetTableNames | hms-lambda-handler/src/main/java/com/databricks/unity/UnityCatalogClient.java:236-244 | on success, a name is in the set exactly when it is the lower-cased name of some listed table; a listing failure propagates |
| Client.GetTablesByNames | hms-lambda-handler/src/main/java/com/databricks/unity/UnityCatalogClient.java:246-253 | success exactly when every `getTable` succeeds, with one table per name in order. Otherwise the error is that of the first failing lookup, and every earlier lookup succeeded |
| Client.Unsupported | hms-lambda-handler/src/main/java/com/databricks/unity/UnityCatalogClient.java:255-283 | every create, drop, alter, append and partition operation fails with "method not implemented", whatever its arguments (also lines 388-446) |

## Left out

- HTTP and transport are not modelled: client creation, headers and the bearer token,
  `HttpGetWithEntity`, and reading the stream. The exchange is a deterministic function
  from request to reply, or to an `IOException` message.
- `Client.GetDatabase`, `Client.DbExists`, `Client.GetDatabasesByNames`, `Client.GetTable`,
  `Client.TableExists`, `Client.GetTablesByNames`: a request URI that cannot be built is not
  modelled. A database or table name that is illegal in a URI path (a space, a stray `%`)
  makes `new HttpGet` throw `IllegalArgumentException` (lines 98 and 288).
  - `getDatabase` does not catch it, so it escapes `getDatabase`, `dbExists` and
    `getDatabasesByNames` as an unchecked exception.
  - `getTable(db, tbl)` converts it once.
  - The model's exchange always yields a reply or an `IOException` message, so neither
    outcome is in these contracts. They hold for names that form a valid URI.
- `URI.create` on the endpoint is not modelled, and neither is how `URI` concatenation
  renders. The endpoint is a string.
- Jackson decoding is not modelled. The decoders are input functions that give a record or
  an exception message, and the `@JsonProperty` names are not modelled. That Jackson fills
  each column through `setTypeName` is the assumption `Remote.DecodesNormalised`; only
  `GetTableColumnTypesAreLowerCase` relies on it, and the other contracts hold for any decoder.
- Null fields in decoded records and the `NullPointerException`s they would cause are not
  modelled. This covers a null full name, table type, format, location or column array, a
  null `errorCode` in a `switch`, and a JSON `null` body. Decoded strings are non-null
  values; only the names in `ColumnInfo` are `Option`.
- The logging in `convertToTException` is a side effect and is not modelled; only the
  message it builds is.
- `Lower`, `LowerChar`: lower-casing is ASCII only. `Locale.ROOT` and the default locale
  also map non-ASCII letters, which the model does not.
- `ColumnOrder.SortByPosition`: Java sorts with TimSort; the model uses an insertion sort.
  `StableSortIsUnique` proves that any stable sort by position gives the same list, so only
  the algorithm differs, not the result.
- `ArrayList` and `HashSet` are `seq` and `set` values. Identity, aliasing of the returned
  lists and iteration order of the sets are not modelled.
- The `filter` arguments of `getSchemaInfos`, `getDatabaseNames`, `getDatabases` and
  `getTableNames` are accepted and ignored, as in the source.
- The message of the index exception is the text of current JDKs
  ("Index i out of bounds for length n").
- The Lambda handler classes and Thrift serialisation are not modelled: they dispatch and
  log. `TableInfo.java`'s getters and setters become the fields of the `TableInfo` datatype.
- The list-request bodies are built by string concatenation without JSON escaping, as in
  the source. A catalog or schema name containing `"` yields a different JSON document.
  The model keeps this behaviour but proves nothing about it.
