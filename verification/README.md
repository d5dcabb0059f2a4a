# Database structure service (workspace health)

A Dafny model of the in-memory logic of `DatabaseStructureService`. This is
the workspace-health service that compares a workspace's declared field
metadata with the live Postgres schema. It does three things:

- **Decoding the introspection rows** (`getWorkspaceTableColumns`). The
  column-introspection query returns at least one row per column. Each of
  its three LEFT JOINs (lines 86-106) repeats a column once per match, so a
  column can come back several times with different flags. The rows carry
  the string flags Postgres produces (`is_nullable` is `YES`/`NO`; the
  computed key flags are `TRUE`/`FALSE`). The service turns each row into a typed
  column descriptor with boolean flags and leaves every other field as it
  is. The decoding works row by row, so duplicate rows for a column stay
  duplicates. In the model the query result is an input:
  `Option<seq<WorkspaceTableStructureResult>>`, where `None` stands for a
  driver that returned nothing at all.
- **Naming the physical type of a field** (`getPostgresDataType`). An
  enum field lives in its own Postgres enum type named
  `<objectSingular>_<field>_enum`. Every other field lives in the driver's
  normalised name for its TypeORM column type.
- **Serialising a field's default value** (`getPostgresDefault`). This
  produces the default the health check compares with the column default
  Postgres reports. An expression default (`{type: ...}`) goes through the expression serialiser, and
  `public.uuid_generate_v4()` is rewritten to `uuid_generate_v4()`. A
  numeric literal becomes its decimal numeral. Anything else goes to the
  driver's `normalizeDefault` as a non-array column default, and that
  includes a `null` default.

The service imports four helpers whose code is not part of this model:
`fieldMetadataTypeToColumnType`, `serializeTypeDefaultValue`, and the TypeORM
driver's `normalizeType` and `normalizeDefault`. They are fields of a
`Collaborators<F>` value that is passed to every operation. `F` is the
field-metadata type enum. The first two helpers may throw (an unmapped field
type, an unknown expression), so they return a `Result`. Every property
below holds for every choice of the four helpers.

Files:

- `wrappers.dfy`: `Option` and `Result`.
- `js_numbers.dfy`: JavaScript safe integers and `Number.prototype.toString()`
  on them (`DecimalString`), with the parser `ParseDecimal` as its inverse.
- `database_structure.dfy`: the service.

## Behaviour to note

- A `null` default is not short-circuited to `null`. It reaches
  `normalizeDefault` with `default: null`.
- The enum type name uses the two names as given, joined by `_`.
- The field type is mapped to a column type before the default is looked
  at. If that mapping throws, `getPostgresDefault` throws too, even for an
  expression default.

## Model

| member | source | states |
|---|---|---|
| `DatabaseStructure.ToTableStructure` | packages/twenty-server/src/workspace/workspace-health/services/database-structure.service.ts:116-122 | The descriptor of a row has the row's schema, table, column, data type and column default. `isNullable` is true iff the raw flag is exactly `YES`. `isPrimaryKey`, `isForeignKey` and `isUnique` are each true iff their raw flag is exactly `TRUE`. |
| `DatabaseStructure.GetWorkspaceTableColumns` | packages/twenty-server/src/workspace/workspace-health/services/database-structure.service.ts:112-122 | No result set gives the empty list. Otherwise there is exactly one descriptor per row, in row order, and each one copies its row's fields and decodes its flags as above. |
| `DatabaseStructure.ToResultRow` | packages/twenty-server/src/workspace/workspace-health/services/database-structure.service.ts:70-83 | The row written for a descriptor is well formed, with the flags spelled as the query spells them: `YES`/`NO` nullability and `TRUE`/`FALSE` key flags. |
| `DatabaseStructure.DecodeEncodedRow` | packages/twenty-server/src/workspace/workspace-health/services/database-structure.service.ts:116-122 | Decoding the row written for a descriptor gives that descriptor back. |
| `DatabaseStructure.EncodeDecodedRow` | packages/twenty-server/src/workspace/workspace-health/services/database-structure.service.ts:70-83 | On a well-formed row the decoding loses nothing: re-encoding the descriptor gives back the row. |
| `DatabaseStructure.TableColumnsLossless` | packages/twenty-server/src/workspace/workspace-health/services/database-structure.service.ts:116-122 | For a result set of well-formed rows, the descriptors are one per row and each re-encodes to its row. |
| `DatabaseStructure.TableColumnsConcat` | packages/twenty-server/src/workspace/workspace-health/services/database-structure.service.ts:116-122 | Decoding is row by row and keeps order: the descriptors of two concatenated batches are the descriptors of each batch, one after the other. |
| `DatabaseStructure.SplitEnumTypeName` | packages/twenty-server/src/workspace/workspace-health/services/database-structure.service.ts:135 | Every name it splits is the enum type name of the object and field it returns, and that object name has no `_`. |
| `DatabaseStructure.EnumTypeNameRoundTrip` | packages/twenty-server/src/workspace/workspace-health/services/database-structure.service.ts:135 | When the object name has no `_`, the enum type name `<object>_<field>_enum` splits back into that object and field. |
| `DatabaseStructure.EnumTypeNameInjective` | packages/twenty-server/src/workspace/workspace-health/services/database-structure.service.ts:135 | For objects without `_`, two enum fields share a type name only if they have the same object and field. |
| `DatabaseStructure.EnumTypeNameCollision` | packages/twenty-server/src/workspace/workspace-health/services/database-structure.service.ts:135 | The no-`_` condition is needed: object `a_b` with field `c` and object `a` with field `b_c` get the same type name. |
| `DatabaseStructure.GetPostgresDataType` | packages/twenty-server/src/workspace/workspace-health/services/database-structure.service.ts:125-141 | If the type mapping throws, so does the call. If the mapped type is `enum`, the result is `<objectSingular>_<field>_enum` and the driver plays no part. For any other mapped type, the result is the driver's `normalizeType` of that type. |
| `DatabaseStructure.EnumDataTypeNamesField` | packages/twenty-server/src/workspace/workspace-health/services/database-structure.service.ts:130-136 | The physical type of an enum field of an underscore-free object identifies that object and field. |
| `DatabaseStructure.UnqualifyUuidCall` | packages/twenty-server/src/workspace/workspace-health/services/database-structure.service.ts:155-160 | Exactly `public.uuid_generate_v4()` becomes `uuid_generate_v4()`, and every other serialised value passes unchanged. The result is never the schema-qualified call. |
| `DatabaseStructure.GetPostgresDefault` | packages/twenty-server/src/workspace/workspace-health/services/database-structure.service.ts:143-176 | A failing type mapping fails every branch. Otherwise: an expression default (one with `type`) yields the serialiser's result with the UUID rewrite, or its exception, whatever `value` holds. A numeric literal yields its decimal numeral, which parses back to the number, and the driver is not used. A literal whose `value` is not a number yields `normalizeDefault({type: mapped type, default: value, isArray: false})`. A default that is absent, or has neither `type` nor `value`, yields the same call with `default: null`. |
| `DatabaseStructure.NullDefaultReachesDriver` | packages/twenty-server/src/workspace/workspace-health/services/database-structure.service.ts:163-175 | A missing default is not short-circuited to `null`. It yields `normalizeDefault({type: mapped type, default: null, isArray: false})`, the same result as a default object with neither `type` nor `value`. |
| `DatabaseStructure.NumericDefaultsDistinct` | packages/twenty-server/src/workspace/workspace-health/services/database-structure.service.ts:166-168 | Two different numeric literal defaults never serialise to the same column default. |
| `JsNumbers.DecimalString` | packages/twenty-server/src/workspace/workspace-health/services/database-structure.service.ts:167 | `toString()` of a safe integer is a decimal numeral with no leading zeros and no `-0`, and it starts with `-` exactly when the number is negative. |
| `JsNumbers.DecimalRoundTrip` | packages/twenty-server/src/workspace/workspace-health/services/database-structure.service.ts:167 | Parsing the decimal string of a number gives back that number. |
| `JsNumbers.DecimalStringInjective` | packages/twenty-server/src/workspace/workspace-health/services/database-structure.service.ts:167 | Different numbers have different decimal strings. |

## Left out

- The introspection SQL query (lines 25-110) is left out. It runs inside
  Postgres and needs a database round trip. Its rows are an input to the
  model. This includes the joins and the reporting of `USER-DEFINED` columns
  by their `udt_name`.
- The query's row multiplicity is left out. It returns at least one row
  per column, but each of its three LEFT JOINs repeats a column once per
  match: `constraint_column_usage` on the column alone (lines 86-90), the
  `foreign_keys` rows (lines 97-101) and the `unique_constraints` rows
  (lines 102-106). So a column can come back several times, possibly with
  different flags. For example, a primary key that another table's foreign
  key references comes back once with `isPrimaryKey` `TRUE` and once with
  `FALSE`. The model takes whatever rows arrive and promises nothing about
  how many there are per column.
- The schema and table names are interpolated into that query unescaped.
  That is a hazard of the query text, not a property of the logic modelled.
- `fieldMetadataTypeToColumnType`, `serializeTypeDefaultValue` and the TypeORM
  driver's `normalizeType` and `normalizeDefault` are not part of this model.
  They are arbitrary functions supplied in `Collaborators`. The driver
  routines are taken never to throw.
- `getMainDataSource()` is left out. It only fetches the connection whose
  driver is used.
- `JsNumbers.DecimalString`: numbers are restricted to safe integers
  (magnitude at most 2^53 - 1). For those, `toString()` is exactly the
  decimal numeral. Fractions, `NaN`, the infinities and larger magnitudes,
  where JavaScript prints digits or an exponent from its floating-point
  formatting, are not modelled.
- Default values are plain objects whose properties hold JSON-like values.
  Other JavaScript values, such as `Date` objects, are not distinguished.
