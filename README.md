# sql-utils in Dafny

A model of `SqlUtils`, a thin accessor over a PostgreSQL driver. It offers seven
operations on one table at a time: point lookup (`getSingleObj`), filtered list
(`getAllObjs`), paginated list (`getAllObjsPaginated`), one-column update
(`updateSingleColumn`), many-column update (`updateData`), delete (`deleteSingleRow`)
and insert (`insertData`). Every operation returns a tagged `Result` and never lets a
driver fault escape.

The model covers two layers:

- **Statement assembly.** Each operation builds a statement out of three kinds of
  fragment: fixed keyword text (`Kw`), identifiers the driver escapes (`Ident`) and
  bound parameters (`Param`). Statements are plain `seq<Frag>` values. The optional
  clauses, the SET list and the parallel column and value lists are proved against
  decoders that read the caller's input back out of the statement. These are
  `ParseList`, `ParseUpdate`, `DecodeSetList`, `SplitCommas` and `Holes`.
- **Pagination arithmetic and result normalisation.** Page defaults, the row offset and
  the page count are proved as integer facts. Each operation maps the driver's answer
  to a `Result` in its own way.

The driver is an oracle, `exec: Statement -> Outcome<Row>`, where
`Outcome = Fault(message) | Rows(rows)`. Rows are opaque. The driver's `count` of a
result is the number of rows in it.

`updateData` and `insertData` build their lists in a `for...in` loop. They are methods
whose loop invariants tie the arrays built so far to the functional specifications
`SetClauses` and `InsertScan`. Both functions are in turn proved equal to reference
definitions (`AssignmentList`, `CommaJoin`) over the object's own properties. The other
five operations are functions.

Files:

- `results.dfy` holds `Option` and `Result`.
- `fragments.dfy` holds values, fragments, `Safe`, `Holes`, `Flatten`, driver outcomes and the text of values in messages.
- `pagination.dfy` holds page defaults, offsets and the page count.
- `statements.dfy` holds the statement builders and their decoders.
- `sql_utils.dfy` holds the seven operations and their error messages.

## Model

| member | source | states |
|---|---|---|
| `Statements.GetSingleObjStatement` | src/index.ts:24-26 | The point lookup holds only the source's keywords. It binds exactly the table and the column as identifiers and the value as the one parameter. |
| `SqlUtils.GetSingleObj` | src/index.ts:23-41 | Success holds exactly when the lookup returned a row, and it carries the first row, also when several rows match (src/index.ts:28-29). No row gives failure "No data". A fault gives failure with a message that depends only on the table and the value, never on the fault. |
| `SqlUtils.GetSingleObjError` | src/index.ts:34 | The fault message of getSingleObj names the table and the looked-up value. |
| `SqlUtils.FirstRow` | src/index.ts:28-32 | Success holds exactly when a row came back, and it carries the first row. Otherwise the result is the given absence error. |
| `Statements.Filter` | src/index.ts:57-61 | The WHERE filter is present exactly when queryParam is a non-empty string. It pairs that column with queryValue, or with `undefined` when the value is absent. |
| `Statements.ListClauses` | src/index.ts:56-70 | The clauses follow JS truthiness. The filter is as in Filter. "DESC" gives a descending order. Any other non-empty order gives ascending. An absent or empty order gives none. A non-zero limit gives that limit. |
| `Statements.ParseListStatement` | src/index.ts:54-71 | A list statement decodes back to its table and its clauses. So each clause appears whole or not at all, and no clause can be read as another. |
| `Statements.GetAllObjsStatement` | src/index.ts:54-71 | The getAllObjs statement holds only the source's keywords. It decodes to exactly the clauses its options ask for. |
| `Statements.ListStatementKeywords` | src/index.ts:56-70 | Each clause keyword appears in a list statement exactly when its clause is present. A LIMIT clause binds its number as a parameter. |
| `Statements.GetAllObjsClauses` | src/index.ts:56-70 | WHERE appears iff queryParam is non-empty. ORDER BY id DESC appears iff order is "DESC". ORDER BY id ASC appears iff order is another non-empty string. LIMIT appears iff limit is non-zero. |
| `SqlUtils.GetAllObjs` | src/index.ts:53-82 | Any row set, the empty one included, is success carrying all rows. A fault gives failure with the list message. |
| `SqlUtils.ListError` | src/index.ts:78 | The list fault message names the table and the filter value (`undefined` when absent) and ends with the fault's text. |
| `Pagination.PageNumber` | src/index.ts:95 | The page used is never zero. It is the caller's page when that is a non-zero number, and 1 when the page is absent or 0. |
| `Pagination.PageSize` | src/index.ts:96 | The page size used is never zero. It is the caller's size when that is a non-zero number, and 10 when the size is absent or 0. |
| `Pagination.OffsetsTile` | src/index.ts:97 | Page 1 has offset 0. Positive pages never have a negative offset. Each page starts where the previous one ends. |
| `Pagination.PageCountIsCeiling` | src/index.ts:111 | For any non-zero size, the page count is the ceiling of total / pageSize. For a positive size, (c-1)*size < total <= c*size. For a negative size the bounds are reversed. |
| `Pagination.PageCountOfTotal` | src/index.ts:111 | For pageSize >= 1, a total of 0 gives 0 pages and a positive total gives at least 1 page. |
| `Pagination.PageCountUnique` | src/index.ts:111 | No other whole number meets the ceiling bounds. |
| `Pagination.RowLiesOnPage` | src/index.ts:97-111 | Every row index below the total lies inside the offset window of a page numbered from 1 to the page count. |
| `Statements.CountStatement` | src/index.ts:100-108 | The COUNT statement holds only the source's keywords. |
| `Statements.PageStatement` | src/index.ts:114-124 | The page statement holds only the source's keywords. |
| `Statements.CountAndPageShareFilter` | src/index.ts:100-124 | The COUNT and the SELECT carry the same optional WHERE. The SELECT always ends with ORDER BY id, LIMIT pageSize and OFFSET offset. |
| `SqlUtils.GetAllObjsPaginated` | src/index.ts:94-139 | Success holds iff the count returned a row and the page statement did not fault. It carries the page's rows and the count row's total. Its page count satisfies the ceiling bounds. A count fault, a count without a row, or a page fault gives failure with the list message. |
| `Statements.UpdateSingleColumnStatement` | src/index.ts:150-156 | The one-column update holds only the source's keywords. It binds table, column, value, key column and key value in that order. |
| `Statements.SingleColumnIsOneFieldUpdate` | src/index.ts:150-156 | The one-column update has the same SET list, ending in updated_at = now(), and the same bindings as updateData for that one own property. |
| `SqlUtils.IdColumn` | src/index.ts:147 | The key column is "id" when the caller leaves it undefined, and the caller's column otherwise. |
| `SqlUtils.UpdateSingleColumn` | src/index.ts:149-168 | Success holds exactly when a row came back, and it carries the first updated row. No row gives "No data". A fault gives failure naming the table and the column. |
| `SqlUtils.UpdateColumnError` | src/index.ts:164 | The message names the table and the column and ends with the fault's text. |
| `Statements.SetClausesAreOwnFields` | src/index.ts:178-185 | The loop pushes exactly one `column = value,` per own property, in visiting order, and skips inherited ones. |
| `Statements.UpdateDataStatementMeaning` | src/index.ts:178-192 | An updateData statement decodes to its table, then the own properties in visiting order, then updated_at = now(), then the key column bound to the key value. |
| `Statements.UpdateDataStatementSafe` | src/index.ts:187-192 | The updateData statement holds only the source's keywords. |
| `Statements.NoFieldsSetOnlyTimestamp` | src/index.ts:187-192 | An input with no own property gives a SET list of `updated_at = now()` alone. |
| `SqlUtils.UpdateDataResult` | src/index.ts:194-203 | Success holds exactly when a row came back, and it carries the first row. No row gives "No data". A fault gives failure naming the table. |
| `SqlUtils.UpdateData` | src/index.ts:171-204 | The loop builds the SET list the specification gives. The method runs that statement and returns UpdateDataResult of the driver's answer. |
| `SqlUtils.UpdateError` | src/index.ts:200 | The message names the table and ends with the fault's text. |
| `Statements.DeleteStatement` | src/index.ts:211 | The delete holds only the source's keywords. It keys on the literal column id and binds only the table and the id. |
| `SqlUtils.DeleteSingleRow` | src/index.ts:210-219 | Success holds whenever no fault occurs, whether or not a row was deleted. A fault gives failure naming the table and the id. |
| `SqlUtils.DeleteError` | src/index.ts:215 | The message names the table and the id and ends with the fault's text. |
| `Statements.InsertScanPairs` | src/index.ts:227-242 | After the loop, columns and values have one element per own property. columns[i] names the property whose value values[i] binds. Element 0 has no comma and every later element has one. isFirst stays true only when there is no own property. |
| `Statements.InsertListsAreCommaJoins` | src/index.ts:227-246 | The spliced column list is the comma-join of the own column names. The spliced value list is the comma-join of the own values, in the same order. |
| `Statements.InsertListsSplit` | src/index.ts:244-248 | Both spliced lists split back, at their commas, into the own column names and the own values. |
| `Statements.InsertDataStatementHoles` | src/index.ts:244-248 | The insert binds the table, then every own column, then every own value. So the i-th column receives the i-th value. |
| `Statements.InsertDataStatementSafe` | src/index.ts:244-248 | The insert statement holds only the source's keywords. |
| `Statements.InsertWithoutFields` | src/index.ts:244-248 | An input with no own property gives empty parentheses in both lists. |
| `SqlUtils.InsertDataResult` | src/index.ts:250-259 | Success holds exactly when a row came back, and it carries the first row. No row gives "No data returned". A fault gives failure naming the table. |
| `SqlUtils.InsertData` | src/index.ts:222-260 | The loop builds the column and value lists the specification gives. The method runs that statement and returns InsertDataResult of the driver's answer. |
| `SqlUtils.InsertError` | src/index.ts:256 | The message names the table and ends with the fault's text. |

## Left out

- The constructor and the connection pool (`postgres(connectionString, { max: 10 })`) are not modelled. Running a statement is the `exec` oracle.
- The driver's identifier escaping is not modelled. An identifier is the opaque `Ident` fragment, and rendering a statement to SQL text with placeholders is the driver's job.
- The model splices an empty array of fragments (`${setClauses}` or `${columns}` with no own property) as nothing. How the driver renders an empty array is not modelled. So whether an update or insert with no own property faults is for the oracle to decide. The model only proves what statement is built (`NoFieldsSetOnlyTimestamp`, `InsertWithoutFields`).
- `async`/`await` and concurrent use of the shared pool are not modelled. Each operation is one sequential computation.
- The `console.error` logging is left out. It writes the same string the failure result carries.
- Numbers are integers. `Math.ceil(total / pageSize)` is exact integer ceiling division for any non-zero size. Non-integer, NaN and floating-point page values are not modelled.
- `Number(count[0].count)` is the caller-supplied `countOf: Row -> nat`. A count row that does not convert to a number is not modelled.
- A count statement with no row makes `count[0].count` throw. The model gives the failure with a fixed TypeError text, `MissingCountRow`. The engine's exact wording is not modelled.
- Rows are an opaque type parameter, so the unchecked `as T` casts have no content.
- That a page holds at most pageSize rows, and what the store does with a statement, are properties of the database. They are not part of this model.
- `options` absent is modelled as an option bag whose fields are all absent. `options?.x` gives the same `undefined` in both cases.
- `src/index.d.ts`, `dist/index.d.ts` and `dist/index.js` are declarations and an older build output. They are not part of this model.
