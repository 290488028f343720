/** The Hive Metastore records the adapter hands back to its callers. */
module Hive {
  import opened Wrappers
  import opened JavaLang

  datatype Database = Database(
    name: string,
    parameters: map<string, string>,
    description: string,
    ownerName: string)

  /** A column of a table as the metastore sees it (no comment is ever set). */
  datatype FieldSchema = FieldSchema(name: Option<string>, typ: Option<string>)

  datatype SerDeInfo = SerDeInfo(serializationLib: string, parameters: map<string, string>)

  datatype StorageDescriptor = StorageDescriptor(
    location: string,
    inputFormat: string,
    outputFormat: string,
    cols: Option<seq<FieldSchema>>,
    numBuckets: Int32,
    compressed: bool,
    parameters: map<string, string>,
    serdeInfo: SerDeInfo)

  datatype Table = Table(
    dbName: string,
    tableName: string,
    parameters: map<string, string>,
    owner: string,
    createTime: Int32,
    tableType: string,
    partitionKeys: seq<FieldSchema>,
    sd: StorageDescriptor)

  /** The partition record taken by the partition operations (which all refuse). */
  datatype Partition = Partition(dbName: string, tableName: string, values: seq<string>)
}
