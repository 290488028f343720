/**
 * The records the catalog service sends back, as the adapter sees them once decoded:
 * schemas, tables, columns, error envelopes and the two list envelopes.
 */
module Messages {
  import opened Wrappers
  import opened JavaLang

  /** One schema (a metastore database). */
  datatype SchemaInfo = SchemaInfo(
    name: string,
    properties: map<string, string>,
    comment: string,
    owner: string)

  /** The body of a non-200 reply. */
  datatype ErrorResponse = ErrorResponse(errorCode: string, message: string)

  /** The value held by a `ColumnInfo` object; `None` stands for a field still null. */
  datatype Column = Column(
    name: Option<string>,
    typeName: Option<string>,
    nullable: bool,
    position: Int32,
    typePrecision: Int32,
    typeScale: Int32)

  /** A column whose type name went through `setTypeName` is lower case. */
  predicate Normalised(c: Column)
  {
    c.typeName.Some? ==> IsLower(c.typeName.value)
  }

  /** One table, with every field the service sends. */
  datatype TableInfo = TableInfo(
    name: string,
    catalogName: string,
    schemaName: string,
    tableType: string,
    dataSourceFormat: string,
    columns: seq<Column>,
    storageLocation: string,
    owner: string,
    generation: Int32,
    metastoreId: string,
    fullName: string,
    createdAt: Long,
    updatedAt: Long,
    createdBy: string,
    updatedBy: string,
    deltaRuntimeProperties: map<string, string>)

  /** The mutable column record the decoder fills in through its setters. */
  class ColumnInfo {
    var name: Option<string>
    var typeName: Option<string>
    var nullable: bool
    var position: Int32
    var typePrecision: Int32
    var typeScale: Int32

    function Value(): Column
      reads this
    {
      Column(name, typeName, nullable, position, typePrecision, typeScale)
    }

    /** The type name, once set, is stored lower case. */
    predicate Valid()
      reads this
    {
      Normalised(Value())
    }

    /** A fresh record: both names null, the primitives at Java's defaults. */
    constructor ()
      ensures Value() == Column(None, None, false, 0, 0, 0)
      ensures Valid()
    {
      name, typeName, nullable := None, None, false;
      position, typePrecision, typeScale := 0, 0, 0;
    }

    function GetName(): Option<string>
      reads this
    {
      name
    }

    method SetName(n: Option<string>)
      modifies this
      ensures GetName() == n
      ensures Value() == old(Value()).(name := n)
      ensures old(Valid()) ==> Valid()
    {
      name := n;
    }

    function GetTypeName(): Option<string>
      reads this
    {
      typeName
    }

    /** The argument must not be null (it is dereferenced); it is stored lower-cased. */
    method SetTypeName(t: string)
      modifies this
      ensures GetTypeName() == Some(Lower(t))
      ensures IsLower(t) ==> GetTypeName() == Some(t)
      ensures Value() == old(Value()).(typeName := Some(Lower(t)))
      ensures Valid()
    {
      typeName := Some(Lower(t));
      LowerIsLower(t);
      if IsLower(t) {
        LowerKeepsLower(t);
      }
    }

    function IsNullable(): bool
      reads this
    {
      nullable
    }

    method SetNullable(b: bool)
      modifies this
      ensures IsNullable() == b
      ensures Value() == old(Value()).(nullable := b)
      ensures old(Valid()) ==> Valid()
    {
      nullable := b;
    }

    /** The sort key of the column projection. */
    function GetPosition(): Int32
      reads this
    {
      position
    }

    method SetPosition(p: Int32)
      modifies this
      ensures GetPosition() == p
      ensures Value() == old(Value()).(position := p)
      ensures old(Valid()) ==> Valid()
    {
      position := p;
    }

    function GetTypePrecision(): Int32
      reads this
    {
      typePrecision
    }

    method SetTypePrecision(p: Int32)
      modifies this
      ensures GetTypePrecision() == p
      ensures Value() == old(Value()).(typePrecision := p)
      ensures old(Valid()) ==> Valid()
    {
      typePrecision := p;
    }

    function GetTypeScale(): Int32
      reads this
    {
      typeScale
    }

    method SetTypeScale(s: Int32)
      modifies this
      ensures GetTypeScale() == s
      ensures Value() == old(Value()).(typeScale := s)
      ensures old(Valid()) ==> Valid()
    {
      typeScale := s;
    }
  }

  /** The `{"schemas": [...]}` envelope; the array is null when the field is absent. */
  class ListSchemas {
    var schemas: array?<SchemaInfo>

    constructor ()
      ensures schemas == null
    {
      schemas := null;
    }

    function GetSchemas(): array?<SchemaInfo>
      reads this
    {
      schemas
    }

    method SetSchemas(a: array?<SchemaInfo>)
      modifies this
      ensures GetSchemas() == a
    {
      schemas := a;
    }

    /** A new list holding the array's elements in order; empty for a null array. */
    method GetSchemaInfos() returns (list: seq<SchemaInfo>)
      ensures schemas == null ==> list == []
      ensures schemas != null ==> list == schemas[..]
    {
      list := [];
      if schemas == null {
        return;
      }
      for i := 0 to schemas.Length
        invariant list == schemas[..i]
      {
        list := list + [schemas[i]];
      }
    }
  }

  /** The `{"tables": [...]}` envelope; the array is null when the field is absent. */
  class ListTables {
    var tables: array?<TableInfo>

    constructor ()
      ensures tables == null
    {
      tables := null;
    }

    function GetTables(): array?<TableInfo>
      reads this
    {
      tables
    }

    method SetTables(a: array?<TableInfo>)
      modifies this
      ensures GetTables() == a
    {
      tables := a;
    }

    /** A new list holding the array's elements in order; empty for a null array. */
    method GetTableInfos() returns (list: seq<TableInfo>)
      ensures tables == null ==> list == []
      ensures tables != null ==> list == tables[..]
    {
      list := [];
      if tables == null {
        return;
      }
      for i := 0 to tables.Length
        invariant list == tables[..i]
      {
        list := list + [tables[i]];
      }
    }
  }
}
