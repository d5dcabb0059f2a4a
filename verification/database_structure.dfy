/**
 * The in-memory logic of the workspace-health `DatabaseStructureService`:
 * decoding the rows of the column-introspection query into typed column
 * descriptors, naming the physical Postgres type a field is stored in, and
 * serialising a field's default value into the default the health check
 * compares with the column default Postgres reports.
 *
 * The helpers the service imports but that are not part of this model
 * (the field-type-to-column-type mapping, the default-value expression
 * serialiser and the TypeORM driver's two normalisation routines) are
 * passed in as a `Collaborators` value; every property below holds for
 * every choice of them.
 */
module DatabaseStructure {
  import opened Wrappers
  import opened JsNumbers

  // ---------------------------------------------------------------------
  // Values crossing the service's boundary
  // ---------------------------------------------------------------------

  /** A JavaScript value as it can appear inside a field's default value. */
  datatype JsValue =
    | JsNull
    | JsUndefined
    | JsBool(b: bool)
    | JsNumber(n: SafeInteger)
    | JsString(s: string)
    | JsArray(items: seq<JsValue>)
    | JsObject(props: map<string, JsValue>)

  /**
   * A field's default value (`FieldMetadataDefaultValue`): a plain object,
   * given by its own properties. An expression default has a `type`
   * property (`{type: 'uuid'}`), a literal one a `value` property
   * (`{value: 42}`); composite defaults have neither.
   */
  type DefaultValueObject = map<string, JsValue>

  /** A TypeORM column type name (`'enum'`, `'uuid'`, `'text'`, ...). */
  type ColumnType = string

  /** A `string | null | undefined` result. */
  datatype NullableText = Text(text: string) | Null | Undefined

  /** An error thrown by one of the helpers. */
  datatype Exception = Exception(message: string)

  /**
   * The partial column descriptor the service hands to the driver's
   * `normalizeDefault`: only `type`, `default` and `isArray` are set.
   */
  datatype NormalizeDefaultInput = NormalizeDefaultInput(columnType: ColumnType, default: JsValue, isArray: bool)

  /**
   * The imported helpers, over the field-metadata type `F`:
   * `columnTypeOf` is `fieldMetadataTypeToColumnType` (it may throw for an
   * unmapped type), `serializeTypeDefault` is `serializeTypeDefaultValue`
   * (it may throw for an unknown expression), `normalizeType` and
   * `normalizeDefault` are the main data source's driver routines.
   */
  datatype Collaborators<-F> = Collaborators(
    columnTypeOf: F -> Result<ColumnType, Exception>,
    serializeTypeDefault: DefaultValueObject -> Result<NullableText, Exception>,
    normalizeType: ColumnType -> string,
    normalizeDefault: NormalizeDefaultInput -> NullableText)

  // ---------------------------------------------------------------------
  // getWorkspaceTableColumns: decoding the introspection rows
  // ---------------------------------------------------------------------

  /**
   * One row of the introspection query (`WorkspaceTableStructureResult`):
   * the flags come back as the strings Postgres produces.
   */
  datatype WorkspaceTableStructureResult = WorkspaceTableStructureResult(
    tableSchema: string,
    tableName: string,
    columnName: string,
    dataType: string,
    isNullable: string,
    columnDefault: Option<string>,
    isPrimaryKey: string,
    isForeignKey: string,
    isUnique: string)

  /** One column of a live table (`WorkspaceTableStructure`). */
  datatype WorkspaceTableStructure = WorkspaceTableStructure(
    tableSchema: string,
    tableName: string,
    columnName: string,
    dataType: string,
    isNullable: bool,
    columnDefault: Option<string>,
    isPrimaryKey: bool,
    isForeignKey: bool,
    isUnique: bool)

  /** The descriptor carries the row's identifying and textual fields unchanged. */
  predicate SameColumn(item: WorkspaceTableStructureResult, column: WorkspaceTableStructure) {
    && column.tableSchema == item.tableSchema
    && column.tableName == item.tableName
    && column.columnName == item.columnName
    && column.dataType == item.dataType
    && column.columnDefault == item.columnDefault
  }

  /** The descriptor's flags are exactly the row's `'YES'` / `'TRUE'` markers. */
  predicate FlagsDecoded(item: WorkspaceTableStructureResult, column: WorkspaceTableStructure) {
    && (column.isNullable <==> item.isNullable == "YES")
    && (column.isPrimaryKey <==> item.isPrimaryKey == "TRUE")
    && (column.isForeignKey <==> item.isForeignKey == "TRUE")
    && (column.isUnique <==> item.isUnique == "TRUE")
  }

  /** The mapping applied to each row: spread the row, then decode the four flags. */
  function ToTableStructure(item: WorkspaceTableStructureResult): (column: WorkspaceTableStructure)
    ensures SameColumn(item, column) && FlagsDecoded(item, column)
  {
    WorkspaceTableStructure(
      item.tableSchema, item.tableName, item.columnName, item.dataType,
      item.isNullable == "YES",
      item.columnDefault,
      item.isPrimaryKey == "TRUE",
      item.isForeignKey == "TRUE",
      item.isUnique == "TRUE")
  }

  /**
   * `getWorkspaceTableColumns` once the query has answered: `results` is
   * `None` when the driver returned nothing at all.
   */
  function GetWorkspaceTableColumns(results: Option<seq<WorkspaceTableStructureResult>>): (columns: seq<WorkspaceTableStructure>)
    ensures results.None? ==> columns == []
    ensures results.Some? ==> |columns| == |results.value|
    ensures results.Some? ==>
      forall i :: 0 <= i < |columns| ==> SameColumn(results.value[i], columns[i]) && FlagsDecoded(results.value[i], columns[i])
  {
    if results.None? || |results.value| == 0 then []
    else
      var rows := results.value;
      seq(|rows|, i requires 0 <= i < |rows| => ToTableStructure(rows[i]))
  }

  /** The rows Postgres can produce: `is_nullable` is `YES`/`NO`, the computed flags `TRUE`/`FALSE`. */
  predicate WellFormedRow(item: WorkspaceTableStructureResult) {
    && item.isNullable in {"YES", "NO"}
    && item.isPrimaryKey in {"TRUE", "FALSE"}
    && item.isForeignKey in {"TRUE", "FALSE"}
    && item.isUnique in {"TRUE", "FALSE"}
  }

  function FlagText(b: bool): string {
    if b then "TRUE" else "FALSE"
  }

  /**
   * A row carrying a given column descriptor, with the flags written as the
   * query writes them: the inverse of the decoding.
   */
  function ToResultRow(column: WorkspaceTableStructure): (item: WorkspaceTableStructureResult)
    ensures WellFormedRow(item)
  {
    WorkspaceTableStructureResult(
      column.tableSchema, column.tableName, column.columnName, column.dataType,
      if column.isNullable then "YES" else "NO",
      column.columnDefault,
      FlagText(column.isPrimaryKey),
      FlagText(column.isForeignKey),
      FlagText(column.isUnique))
  }

  /** Decoding the row written for a descriptor gives that descriptor back. */
  lemma DecodeEncodedRow(column: WorkspaceTableStructure)
    ensures ToTableStructure(ToResultRow(column)) == column
  {
  }

  /** On well-formed rows the decoding loses nothing: the row can be rebuilt from its descriptor. */
  lemma EncodeDecodedRow(item: WorkspaceTableStructureResult)
    requires WellFormedRow(item)
    ensures ToResultRow(ToTableStructure(item)) == item
  {
  }

  /** Decoding a whole result set of well-formed rows loses nothing either. */
  lemma TableColumnsLossless(rows: seq<WorkspaceTableStructureResult>)
    requires forall i :: 0 <= i < |rows| ==> WellFormedRow(rows[i])
    ensures |GetWorkspaceTableColumns(Some(rows))| == |rows|
    ensures forall i :: 0 <= i < |rows| ==> ToResultRow(GetWorkspaceTableColumns(Some(rows))[i]) == rows[i]
  {
    var columns := GetWorkspaceTableColumns(Some(rows));
    forall i | 0 <= i < |rows| ensures ToResultRow(columns[i]) == rows[i] {
      EncodeDecodedRow(rows[i]);
    }
  }

  /** The result set of two row batches is the two result sets one after the other. */
  lemma TableColumnsConcat(a: seq<WorkspaceTableStructureResult>, b: seq<WorkspaceTableStructureResult>)
    ensures GetWorkspaceTableColumns(Some(a + b)) == GetWorkspaceTableColumns(Some(a)) + GetWorkspaceTableColumns(Some(b))
  {
    var whole := GetWorkspaceTableColumns(Some(a + b));
    var parts := GetWorkspaceTableColumns(Some(a)) + GetWorkspaceTableColumns(Some(b));
    forall i | 0 <= i < |whole| ensures whole[i] == parts[i] {
      if i < |a| {
        assert (a + b)[i] == a[i];
      } else {
        assert (a + b)[i] == b[i - |a|];
      }
    }
  }

  // ---------------------------------------------------------------------
  // getPostgresDataType: the physical type of a field
  // ---------------------------------------------------------------------

  const EnumSuffix: string := "_enum"

  /** The name of the Postgres enum type created for an enum field: `<object>_<field>_enum`. */
  function EnumTypeName(objectMetadataNameSingular: string, fieldMetadataName: string): string {
    objectMetadataNameSingular + "_" + fieldMetadataName + EnumSuffix
  }

  /** Index of the first `_` in `s`, if any. */
  function FirstUnderscore(s: string): (k: Option<nat>)
    ensures k.Some? ==> k.value < |s| && s[k.value] == '_' && '_' !in s[..k.value]
    ensures k.None? ==> '_' !in s
  {
    if s == [] then None
    else if s[0] == '_' then Some(0)
    else match FirstUnderscore(s[1..])
      case None => None
      case Some(j) =>
        assert s[..j + 1] == [s[0]] + s[1..][..j];
        Some(j + 1)
  }

  /**
   * Reads the object and field names back out of an enum type name: the
   * object name is everything before the first `_`, the field name
   * everything between it and the trailing `_enum`.
   */
  function SplitEnumTypeName(name: string): (parts: Option<(string, string)>)
    ensures parts.Some? ==> EnumTypeName(parts.value.0, parts.value.1) == name && '_' !in parts.value.0
  {
    if |name| < |EnumSuffix| || name[|name| - |EnumSuffix|..] != EnumSuffix then None
    else
      var stem := name[..|name| - |EnumSuffix|];
      match FirstUnderscore(stem)
      case None => None
      case Some(k) =>
        assert stem == stem[..k] + "_" + stem[k + 1..];
        assert name == stem + EnumSuffix;
        Some((stem[..k], stem[k + 1..]))
  }

  /**
   * When the object name has no `_` (object names are camel-case), the
   * enum type name determines the object and field it was built from.
   */
  lemma EnumTypeNameRoundTrip(objectMetadataNameSingular: string, fieldMetadataName: string)
    requires '_' !in objectMetadataNameSingular
    ensures SplitEnumTypeName(EnumTypeName(objectMetadataNameSingular, fieldMetadataName))
         == Some((objectMetadataNameSingular, fieldMetadataName))
  {
    var o, f := objectMetadataNameSingular, fieldMetadataName;
    var name := EnumTypeName(o, f);
    var stem := o + "_" + f;
    assert name == stem + EnumSuffix;
    assert name[|name| - |EnumSuffix|..] == EnumSuffix;
    assert name[..|name| - |EnumSuffix|] == stem;
    UnderscoreAfterPrefix(o, f);
    assert stem[..|o|] == o && stem[|o| + 1..] == f;
  }

  lemma {:induction false} UnderscoreAfterPrefix(o: string, f: string)
    requires '_' !in o
    ensures FirstUnderscore(o + "_" + f) == Some(|o|)
    decreases |o|
  {
    if o != [] {
      assert (o + "_" + f)[1..] == o[1..] + "_" + f;
      assert o[0] in o;
      UnderscoreAfterPrefix(o[1..], f);
    } else {
      assert o + "_" + f == "_" + f;
    }
  }

  /** Two enum fields of underscore-free objects share a type name only if they are the same field. */
  lemma EnumTypeNameInjective(o1: string, f1: string, o2: string, f2: string)
    requires '_' !in o1 && '_' !in o2
    requires EnumTypeName(o1, f1) == EnumTypeName(o2, f2)
    ensures o1 == o2 && f1 == f2
  {
    EnumTypeNameRoundTrip(o1, f1);
    EnumTypeNameRoundTrip(o2, f2);
  }

  /** Without that condition the naming collides: `a_b`.`c` and `a`.`b_c` share a type. */
  lemma EnumTypeNameCollision()
    ensures EnumTypeName("a_b", "c") == EnumTypeName("a", "b_c")
  {
  }

  /**
   * `getPostgresDataType`: an enum field lives in its own named enum type;
   * every other field in the driver's normalised name for its column type.
   */
  function GetPostgresDataType<F>(
    c: Collaborators<F>, fieldMetadataType: F, fieldMetadataName: string, objectMetadataNameSingular: string
  ): (r: Result<string, Exception>)
    ensures c.columnTypeOf(fieldMetadataType).Failure? ==> r == Failure(c.columnTypeOf(fieldMetadataType).error)
    ensures c.columnTypeOf(fieldMetadataType) == Success("enum") ==>
      r == Success(EnumTypeName(objectMetadataNameSingular, fieldMetadataName))
    ensures c.columnTypeOf(fieldMetadataType).Success? && c.columnTypeOf(fieldMetadataType).value != "enum" ==>
      r == Success(c.normalizeType(c.columnTypeOf(fieldMetadataType).value))
  {
    var typeORMType :- c.columnTypeOf(fieldMetadataType);
    if typeORMType == "enum" then
      Success(EnumTypeName(objectMetadataNameSingular, fieldMetadataName))
    else
      Success(c.normalizeType(typeORMType))
  }

  /** Parsing the enum type of an enum field of an underscore-free object gives back its object and field. */
  lemma EnumDataTypeNamesField<F>(
    c: Collaborators<F>, fieldMetadataType: F, fieldMetadataName: string, objectMetadataNameSingular: string)
    requires c.columnTypeOf(fieldMetadataType) == Success("enum")
    requires '_' !in objectMetadataNameSingular
    ensures var r := GetPostgresDataType(c, fieldMetadataType, fieldMetadataName, objectMetadataNameSingular);
      r.Success? && SplitEnumTypeName(r.value) == Some((objectMetadataNameSingular, fieldMetadataName))
  {
    EnumTypeNameRoundTrip(objectMetadataNameSingular, fieldMetadataName);
  }

  // ---------------------------------------------------------------------
  // getPostgresDefault: the default the health check expects for a field
  // ---------------------------------------------------------------------

  /** What the expression serialiser produces for a `{type: 'uuid'}` default. */
  const QualifiedUuidCall: string := "public.uuid_generate_v4()"

  /** How Postgres reports that default in `column_default`. */
  const UuidCall: string := "uuid_generate_v4()"

  /** The one rewrite applied to a serialised expression: drop the `public.` schema from the UUID call. */
  function UnqualifyUuidCall(serialized: NullableText): (r: NullableText)
    ensures r != Text(QualifiedUuidCall)
    ensures serialized == Text(QualifiedUuidCall) ==> r == Text(UuidCall)
    ensures serialized != Text(QualifiedUuidCall) ==> r == serialized
  {
    if serialized == Text(QualifiedUuidCall) then Text(UuidCall) else serialized
  }

  /** An expression default: present, and carrying a `type` property. */
  predicate IsExpressionDefault(defaultValue: Option<DefaultValueObject>) {
    defaultValue.Some? && "type" in defaultValue.value
  }

  /** The literal the service extracts: the `value` property if there is one, `null` otherwise. */
  function LiteralValue(defaultValue: Option<DefaultValueObject>): JsValue
  {
    if defaultValue.Some? && "value" in defaultValue.value then defaultValue.value["value"] else JsNull
  }

  /**
   * `getPostgresDefault`. The column type is looked up first, so an
   * unmapped field type fails the call whatever the default is. Then an
   * expression default wins over any `value`; a numeric literal becomes
   * its decimal numeral without the driver; everything else, `null`
   * included, is normalised by the driver as a non-array column default.
   */
  function GetPostgresDefault<F>(
    c: Collaborators<F>, fieldMetadataType: F, defaultValue: Option<DefaultValueObject>
  ): (r: Result<NullableText, Exception>)
    ensures c.columnTypeOf(fieldMetadataType).Failure? ==> r == Failure(c.columnTypeOf(fieldMetadataType).error)
    // an expression default, whatever its `value`
    ensures c.columnTypeOf(fieldMetadataType).Success? && defaultValue.Some? && "type" in defaultValue.value ==>
      var serialized := c.serializeTypeDefault(defaultValue.value);
      && (serialized.Failure? ==> r == Failure(serialized.error))
      && (serialized.Success? ==> r == Success(UnqualifyUuidCall(serialized.value)))
    // a numeric literal
    ensures c.columnTypeOf(fieldMetadataType).Success? && defaultValue.Some? && "type" !in defaultValue.value
            && "value" in defaultValue.value && defaultValue.value["value"].JsNumber? ==>
      && r == Success(Text(DecimalString(defaultValue.value["value"].n)))
      && ParseDecimal(r.value.text) == Some(defaultValue.value["value"].n as int)
    // any other literal
    ensures c.columnTypeOf(fieldMetadataType).Success? && defaultValue.Some? && "type" !in defaultValue.value
            && "value" in defaultValue.value && !defaultValue.value["value"].JsNumber? ==>
      r == Success(c.normalizeDefault(
             NormalizeDefaultInput(c.columnTypeOf(fieldMetadataType).value, defaultValue.value["value"], false)))
    // a default with neither `type` nor `value`
    ensures c.columnTypeOf(fieldMetadataType).Success? && defaultValue.Some? && "type" !in defaultValue.value
            && "value" !in defaultValue.value ==>
      r == Success(c.normalizeDefault(NormalizeDefaultInput(c.columnTypeOf(fieldMetadataType).value, JsNull, false)))
    // no default at all
    ensures c.columnTypeOf(fieldMetadataType).Success? && defaultValue.None? ==>
      r == Success(c.normalizeDefault(NormalizeDefaultInput(c.columnTypeOf(fieldMetadataType).value, JsNull, false)))
  {
    var typeORMType :- c.columnTypeOf(fieldMetadataType);
    if IsExpressionDefault(defaultValue) then
      var serialized :- c.serializeTypeDefault(defaultValue.value);
      Success(UnqualifyUuidCall(serialized))
    else
      var value := LiteralValue(defaultValue);
      if value.JsNumber? then
        DecimalRoundTrip(value.n);
        Success(Text(DecimalString(value.n)))
      else
        Success(c.normalizeDefault(NormalizeDefaultInput(typeORMType, value, false)))
  }

  /** Two numeric defaults give the same column default only if they are the same number. */
  lemma NumericDefaultsDistinct<F>(c: Collaborators<F>, fieldMetadataType: F, m: SafeInteger, n: SafeInteger)
    requires c.columnTypeOf(fieldMetadataType).Success?
    requires GetPostgresDefault(c, fieldMetadataType, Some(map["value" := JsNumber(m)]))
          == GetPostgresDefault(c, fieldMetadataType, Some(map["value" := JsNumber(n)]))
    ensures m == n
  {
  }

  /**
   * A missing default is not short-circuited to `null`: it reaches the
   * driver as `default: null`, exactly like a default object with neither
   * `type` nor `value`.
   */
  lemma NullDefaultReachesDriver<F>(c: Collaborators<F>, fieldMetadataType: F, m: DefaultValueObject)
    requires "type" !in m && "value" !in m
    ensures c.columnTypeOf(fieldMetadataType).Success? ==>
      GetPostgresDefault(c, fieldMetadataType, None)
        == Success(c.normalizeDefault(NormalizeDefaultInput(c.columnTypeOf(fieldMetadataType).value, JsNull, false)))
    ensures GetPostgresDefault(c, fieldMetadataType, None) == GetPostgresDefault(c, fieldMetadataType, Some(m))
  {
  }
}
