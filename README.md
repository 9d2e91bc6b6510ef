# cop-data-api query builders in Dafny

cop-data-api is a thin HTTP layer over PostgreSQL. Each request is turned into one SQL
statement by a family of builders in `app/db/utils`. This project models those builders and
proves what they produce.

- **filters (`Filters`, `QueryParams`).** A v1 query string is split on `&`. One trailing `,` is
  dropped from each segment, and `select=` segments are taken apart from filter segments. A
  filter `col=op.value` uses one of `eq gt gte lt lte in`.
  - `eq.null` becomes `col IS NULL`.
  - A value made only of digits stays unquoted.
  - Any other value is percent-decoded and single-quoted.
  - `in.(a,b)` becomes `col IN ('a', 'b')`.
  - Conditions keep their order and are joined by ` AND ` after ` WHERE `.
- **selectQueryBuilder (`Select`).** It builds `SELECT <columns> FROM <target>[ WHERE …];`.
  - The `select=` list is re-joined with `, `. Without one the columns are `*`.
  - An empty `select=` is rejected.
  - For a function view, the body is rendered as `key=>literal` arguments inside `name(...)`. The target is that call, and the WHERE comes after `)`.
- **insertQueryBuilder (`Insert`).** It returns `{queryString, values}`.
  - The columns are the first row's keys.
  - One placeholder counter `$1, $2, …` runs across the whole batch.
  - A null field is written `NULL` and takes neither a number nor a value.
  - Arrays are sent as their JSON text.
  - ` RETURNING *` is appended when `prefer` is `return=representation`.
  - The builder is an imperative method with counter-carrying loops. It is proved equal to a specification function, and the promised properties are proved about that function.
- **updateQueryBuilder (`Update`).** It builds `UPDATE <name> SET k=v,… WHERE …;`.
  - In the SET list, null is `NULL`, scalars are quoted (numbers too) and arrays are unquoted JSON.
  - An `id` wins over any filter string: the WHERE is then exactly `id = '<id>'`.
- **deleteQueryBuilder (`Delete`).** It builds `DELETE FROM <name> WHERE …;`, using the select filter grammar.
- **selectQueryBuilderV2 (`SelectV2`).** The query parameters arrive already parsed by Express.
  - Filters become `$k` placeholders with a parallel `values` list.
  - `sort=col.dir,…` becomes `ORDER BY col DIR, …`.
  - `LIMIT n` comes last, with no `;`.
  - A `select` or `limit` given as a list gives `{queryString: '', values: []}`.

The source signals a rejected request with a falsy value: `''`, or an object with an empty query
string. The model uses `Result` (`Outcomes`) instead, with a `Reason` for each way to fail.
`Outcomes.SourceText` and `Outcomes.SourceObject` map a result back to the source's value. The
`*RejectedIffInvalid` lemmas prove that the source's falsy value appears exactly when the model
says `Invalid`.

The route guards in `app/routes/index.js` become `Invalid` results:
- an empty insert body gives `EmptyBody`;
- an empty update body without both an id and a query string gives `EmptyBody`;
- a delete without a query string gives `MissingFilter`.

Every case in `test/app/db/utils.test.js` is proved as a concrete lemma. Those lemmas are in the
modules `SelectExamples`, `SelectMoreExamples`, `InsertExamples`, `WriteExamples` and
`SelectV2Examples`.

Supporting modules:
- `Text`: split and join, percent-coding, and digits.
- `Json`: values and `JSON.stringify`.
- `SqlValues`: how a body value is written into SQL.
- `Wrappers`: `Option`.
- `Outcomes`: `Result`, the `Reason` for a rejection, and the source's falsy values.

`app/db/utils.js` is not part of this model. The builders are reconstructed from the test file,
which is their contract, and from the route guards.

## Model

| member | source | states |
|---|---|---|
| Select.SelectAll | test/app/db/utils.test.js:41-48 | with no query parameters the statement is exactly `SELECT * FROM <name>;` |
| Select.ParseNoParams | test/app/db/utils.test.js:41-48 | an absent or empty query string parses to columns `*` and no filters |
| Select.EmptySelectInvalid | test/app/db/utils.test.js:32-39 | `select=` with nothing after it is rejected, with or without a function-view body |
| Select.ParseEmptySelect | test/app/db/utils.test.js:32-39 | parsing a lone `select=` fails with EmptySelect |
| Select.SelectColumns | test/app/db/utils.test.js:14-30 | `select=a,b,c` yields `SELECT a, b, c FROM <name>;`, in the original order |
| Select.ColumnsOfJoin | test/app/db/utils.test.js:14-30 | a comma-separated column list is re-emitted with `, ` separators, in the same order |
| Select.ParseColumnList | test/app/db/utils.test.js:14-30 | a query string with only a column list parses to exactly that list and no filters |
| Select.OnlyColumns | test/app/db/utils.test.js:14-30 | a lone non-empty `select=` segment parses to its columns and no filters |
| Select.OnlySegment | test/app/db/utils.test.js:14-30 | a column list holds no `&`, so it is one segment |
| Select.SelectSegment | test/app/db/utils.test.js:14-30 | a `select=` segment contributes its list and no filter |
| Select.ColumnListSegment | test/app/db/utils.test.js:14-30 | a column list is a plain segment, so splitting leaves it as it is |
| Select.SelectFilters | test/app/db/utils.test.js:50-75 | filter segments yield `SELECT * FROM <name> WHERE c1 AND c2 …;`, one condition per segment, in order |
| Select.ParseFilterSegments | test/app/db/utils.test.js:95-102 | filter-only query strings parse to clauses whose conditions are the segments' conditions, in order |
| Select.SelectSegments | test/app/db/utils.test.js:77-93 | a leading `select=` segment gives the column list, and all later segments are filters |
| Select.ColumnsAndFilters | test/app/db/utils.test.js:104-111 | a column list followed by filter parts splits into the list segment and the stripped filter segments |
| Select.ParseColumnsFilters | test/app/db/utils.test.js:104-111 | columns plus filters parse to the re-joined columns and the filters' conditions |
| Select.SelectColumnsFilters | test/app/db/utils.test.js:104-138 | columns and filters give `SELECT a, b FROM <target> WHERE …;`, where for a function view the WHERE follows the call |
| Select.RpcIsSelectFromCall | test/app/db/utils.test.js:275-312 | a function-view select is the plain select from the target `name(args)`, so columns come before FROM and WHERE after `)` |
| Select.RpcArgumentsAppend | test/app/db/utils.test.js:285-292 | arguments follow body key order and are joined by `,` with no spaces |
| Select.NoSeparatorInJoin | test/app/db/utils.test.js:77-93 | joining comma-free columns with another separator introduces no comma |
| Select.JoinEndsWithLast | test/app/db/utils.test.js:14-30 | a joined list ends with its last element |
| Select.SelectRejectedIffInvalid | app/routes/index.js:71-78 | the select builder yields the route's falsy `''` exactly when the result is Invalid |
| QueryParams.StripComma | test/app/db/utils.test.js:95-102 | at most one trailing `,` is removed and nothing else changes |
| QueryParams.Segments | test/app/db/utils.test.js:41-48 | an absent or empty query string has no segments; otherwise there is one segment per `&` part |
| QueryParams.SegmentsOfJoin | test/app/db/utils.test.js:50-75 | plain segments joined by `&` split back into the same segments |
| QueryParams.SegmentsOfParts | test/app/db/utils.test.js:95-138 | parts joined by `&`, each with an optional trailing `,`, split back into the parts without the comma |
| QueryParams.RawSegmentStrip | test/app/db/utils.test.js:95-102 | a raw part holds no `&` and strips to its segment |
| QueryParams.NoSelect | test/app/db/utils.test.js:50-75 | without a `select=` segment there is no column list and every segment is a filter, in order |
| Filters.ParseOperator | test/app/db/utils.test.js:50-138 | a parsed operator's name is the text it was parsed from |
| Filters.ParseOperatorName | test/app/db/utils.test.js:50-138 | every operator (`eq gt gte lt lte in`) parses back from its name |
| Filters.ParseValue | test/app/db/utils.test.js:50-93 | a parsed value is well formed for its operator: only `in` takes a list, only `eq` takes null |
| Filters.ClauseParts | test/app/db/utils.test.js:50-138 | a segment that splits is exactly `col=op.raw`, with no `=` in the column and no `.` in the operator |
| Filters.ClausePartsOf | test/app/db/utils.test.js:50-138 | `col=op.raw` splits back into its three parts |
| Filters.BuildClause | test/app/db/utils.test.js:50-138 | a built clause is well formed and keeps its column |
| Filters.ParseClause | test/app/db/utils.test.js:50-138 | a parsed clause is well formed and its column holds no `=` |
| Filters.ParseClauseOf | test/app/db/utils.test.js:50-138 | parsing `col=op.raw` is building from those parts |
| Filters.ParseClauses | test/app/db/utils.test.js:95-138 | a list of segments parses clause by clause, in order, and fails exactly when one of them fails |
| Filters.ParseValueSource | test/app/db/utils.test.js:50-93 | a value's source text parses back to that value |
| Filters.ParseClauseSource | test/app/db/utils.test.js:50-93 | a well-formed clause's source segment parses back to that clause |
| Filters.ValueSourceOfParsed | test/app/db/utils.test.js:50-93 | a parsed value's source text is the text it came from |
| Filters.SourceOfParsed | test/app/db/utils.test.js:50-93 | a parsed segment is recovered from its clause |
| Filters.ParseEqNull | test/app/db/utils.test.js:68-75 | `col=eq.null` parses to a null comparison |
| Filters.BuildNull | test/app/db/utils.test.js:68-75 | `eq` with the text `null` builds a null comparison |
| Filters.ParseEqNullParts | test/app/db/utils.test.js:68-75 | `col=eq.null` is built from its parts |
| Filters.EqNullIsNull | test/app/db/utils.test.js:68-75 | `col=eq.null` renders as `col IS NULL` |
| Filters.ParseDigits | test/app/db/utils.test.js:95-102 | a digit-only value parses to a number |
| Filters.DigitsUnquoted | test/app/db/utils.test.js:95-102 | a digit-only value renders unquoted (`id = 3`) for every scalar operator |
| Filters.ParseText | test/app/db/utils.test.js:50-66 | any other value parses to its percent-decoded text |
| Filters.TextQuoted | test/app/db/utils.test.js:50-66 | any other value renders percent-decoded and single-quoted (`'Tilbury 2'`) |
| Filters.ParseList | test/app/db/utils.test.js:77-93 | `in.%28a,b%29` decodes to the list of its elements |
| Filters.ParseListParts | test/app/db/utils.test.js:77-93 | an `in` segment is built from its parts |
| Filters.InListQuoted | test/app/db/utils.test.js:77-93 | `in` lists render as `col IN ('a', 'b')`, each element quoted even when numeric |
| Filters.ConditionsAppend | test/app/db/utils.test.js:95-138 | the conditions of two clause lists are the two lists of conditions, in order |
| Filters.WhereAppend | test/app/db/utils.test.js:122-138 | clause order is kept: the WHERE of `a + b` is the WHERE of `a`, then ` AND `, then `b`'s conditions |
| Insert.InsertQuery | app/routes/index.js:97-99 | rejected with EmptyBody exactly when the route's guard fires (`{}` or `[]`); rejected with NoColumns exactly when the guard passes but the first row has no keys; when accepted, every row has exactly the first row's columns |
| Insert.BuildInsert | test/app/db/utils.test.js:142-204 | the imperative builder computes exactly the specification result |
| Insert.BuildTuples | test/app/db/utils.test.js:174-204 | the batch loop yields the tuples and values of the batch, with one counter running across all rows |
| Insert.BuildTuple | test/app/db/utils.test.js:189-204 | the row loop yields the row's tuple from a given start number, its values, and the next free number |
| Insert.CheckColumns | test/app/db/utils.test.js:174-204 | the check accepts exactly when every row has exactly the first row's columns (none missing, none extra) |
| Insert.BatchStep | test/app/db/utils.test.js:189-204 | adding a row continues the counter from the non-null count of the earlier rows |
| Insert.ParamValuesCount | test/app/db/utils.test.js:189-204 | the number of values equals the number of non-null fields |
| Insert.ParamValuesAppend | test/app/db/utils.test.js:174-204 | values and non-null counts of consecutive fields add up |
| Insert.ParamValuesAt | test/app/db/utils.test.js:189-204 | a non-null field's value is at the position given by the non-null fields before it |
| Insert.CellsAt | test/app/db/utils.test.js:189-204 | a null field is `NULL`; any other field is `$(start + non-null fields before it)` |
| Insert.NumbersOfCells | test/app/db/utils.test.js:174-204 | placeholder numbers are contiguous from the start, one per non-null field |
| Insert.CellsAppend | test/app/db/utils.test.js:174-204 | the second part of a batch continues numbering where the first part stopped |
| Insert.BatchCellsFlatten | test/app/db/utils.test.js:174-204 | numbering row by row is numbering the whole batch from `$1` |
| Insert.CellsAligned | test/app/db/utils.test.js:142-204 | the k-th placeholder stands for the k-th value, and the value of a field is the field with arrays stringified |
| Insert.InsertPlaceholders | test/app/db/utils.test.js:142-204 | in an accepted insert, the placeholders line up with the returned values |
| Insert.SingleAccepted | test/app/db/utils.test.js:161-172 | a single non-empty object is accepted |
| Insert.OwnColumns | test/app/db/utils.test.js:142-159 | a row read over its own keys gives its values in key order |
| Insert.LookupAt | test/app/db/utils.test.js:142-159 | the first field with a key supplies that key's value |
| Insert.UniformRows | test/app/db/utils.test.js:174-204 | for rows with the first row's keys, the result is the statement over those columns with the batch tuples and values |
| Insert.ReturningSuffix | test/app/db/utils.test.js:161-172 | ` RETURNING *` is appended exactly for `return=representation`, and values and acceptance are unchanged |
| Insert.BatchSnoc | test/app/db/utils.test.js:174-204 | a batch's rows are read in order |
| Insert.TupleTextsSnoc | test/app/db/utils.test.js:174-204 | tuples follow row order |
| Update.UpdateQuery | app/routes/index.js:119-121 | rejected with EmptyBody exactly when the body is empty and the id or query string is missing; a filter error is possible only without an id |
| Update.IdWins | test/app/db/utils.test.js:241-252 | with an id, any filter string is ignored and the WHERE is exactly `id = '<id>'` |
| Update.EmptyBodyWithBoth | app/routes/index.js:119-121 | an empty body with both an id and a query string gets past the guard and is built |
| Update.SetItemValues | test/app/db/utils.test.js:208-252 | in SET, null is `NULL`, a scalar is quoted (`'34'`) and an array is its unquoted JSON text |
| Update.SetListAppend | test/app/db/utils.test.js:208-227 | SET items follow body key order, joined by `,` with no spaces |
| Update.StatementReturning | test/app/db/utils.test.js:218-227 | ` RETURNING *` comes right before the final `;` |
| Update.ReturningBeforeSemicolon | test/app/db/utils.test.js:218-227 | over the whole builder, `return=representation` only inserts ` RETURNING *` before the `;` |
| Update.UpdateFilters | test/app/db/utils.test.js:229-239 | without an id, filters give the same conditions as select, in order |
| Update.UpdateRejectedIffInvalid | app/routes/index.js:119-121 | the source's falsy `''` appears exactly when the result is Invalid |
| Delete.DeleteQuery | app/routes/index.js:139-141 | rejected with MissingFilter exactly when there is no query string; otherwise only a malformed filter is rejected |
| Delete.DeleteAlwaysFiltered | app/routes/index.js:139-141 | every accepted delete has at least one condition: no unfiltered delete is emitted |
| Delete.DeleteFilters | test/app/db/utils.test.js:255-272 | a filter string gives the same conditions as select, in order |
| Delete.StatementsShareTail | test/app/db/utils.test.js:255-272 | a delete statement is the select-all statement with `SELECT *` replaced by `DELETE` |
| Delete.DeleteMatchesSelect | test/app/db/utils.test.js:255-272 | with filters only, delete is accepted exactly when select is, and its WHERE is select's |
| Delete.DeleteRejectedIffInvalid | app/routes/index.js:139-141 | the source's falsy `''` appears exactly when the result is Invalid |
| SelectV2.SelectQueryV2 | test/app/db/utils.test.js:364-377 | rejected with ListParameter exactly when `select` or `limit` is a list |
| SelectV2.RepeatedIsEmptyObject | test/app/db/utils.test.js:364-377 | a list-valued `select` or `limit` gives `{queryString: '', values: []}` |
| SelectV2.FilterValuesAt | test/app/db/utils.test.js:316-350 | a filter's values sit in `values` right after the earlier filters' values |
| SelectV2.ParamConditionsAt | test/app/db/utils.test.js:316-350 | the i-th condition is numbered from one more than the earlier filters' value count |
| SelectV2.Alignment | test/app/db/utils.test.js:316-350 | a placeholder `$k` refers to `values[k-1]`, in filter-list order |
| SelectV2.ScalarFilters | test/app/db/utils.test.js:316-350 | for scalar filters, the i-th condition is `col op $(i+1)` and `values[i]` is the i-th filter's value |
| SelectV2.SortOrder | test/app/db/utils.test.js:379-411 | `sort` entries become `ORDER BY` items joined by `, `, in order |
| SelectV2.SortItemOf | test/app/db/utils.test.js:379-411 | `col.dir` becomes `col DIR`, with the direction upper-cased |
| SelectV2.StatementEndsWithLimit | test/app/db/utils.test.js:352-362 | `LIMIT n` is the last thing in the statement, with no `;` |
| SelectV2.LimitLast | test/app/db/utils.test.js:352-362 | over the whole builder, a given limit ends the query string |
| SelectV2.StatementStartsWith | test/app/db/utils.test.js:316-333 | the statement starts with `SELECT <columns> FROM ` |
| SelectV2.SelectVerbatim | test/app/db/utils.test.js:316-333 | the select string is emitted verbatim (`name,city`, not re-joined) |
| SelectV2.SameGrammar | test/app/db/utils.test.js:335-350 | without `%`, a v2 filter parses exactly like a v1 filter |
| SqlValues.BodyLiteral | test/app/db/utils.test.js:304-312 | an inline body value is `NULL` exactly for null |
| SqlValues.ParamValue | test/app/db/utils.test.js:142-159 | a placeholder value is never an array (arrays become JSON text) and is null exactly for null |
| SqlValues.Returning | test/app/db/utils.test.js:161-172 | the suffix is ` RETURNING *` exactly for `return=representation`, empty otherwise |
| Text.SplitJoin | test/app/db/utils.test.js:77-111 | splitting a join of separator-free parts gives the parts back |
| Text.JoinSplit | test/app/db/utils.test.js:14-30 | joining a split with the same separator gives the text back |
| Text.SplitWithout | test/app/db/utils.test.js:14-30 | text without the separator splits into itself |
| Text.SplitAfterFirst | test/app/db/utils.test.js:14-30 | the split of `a + sep + b` is `a` followed by the split of `b` |
| Text.JoinConsChar | test/app/db/utils.test.js:14-30 | putting a character in front of the first part puts it in front of the whole join |
| Text.JoinSnoc | test/app/db/utils.test.js:95-138 | appending an element appends the separator and that element |
| Text.JoinAppend | test/app/db/utils.test.js:95-138 | the join of two non-empty lists is the two joins with a separator between them |
| Text.JoinTwo | test/app/db/utils.test.js:14-30 | the join of two elements puts the separator between them |
| Text.JoinThree | test/app/db/utils.test.js:23-30 | the join of three elements puts a separator between each pair |
| Text.SplitFirstAt | test/app/db/utils.test.js:50-138 | splitting at the first occurrence of a character that `a` lacks recovers `a` and `b` |
| Text.IndexOfAtMost | test/app/db/utils.test.js:50-138 | the first occurrence comes no later than any occurrence |
| Text.NatToStringValue | test/app/db/utils.test.js:316-333 | the decimal text of a number reads back as that number |
| Text.DecodeEncode | test/app/db/utils.test.js:50-57 | percent-decoding inverts percent-encoding of ASCII text |
| Text.DecodeEncodedChar | test/app/db/utils.test.js:50-57 | an encoded character decodes to itself before whatever follows |
| Text.DecodePlain | test/app/db/utils.test.js:59-66 | text without `%` decodes to itself |
| Text.DecodePrefix | test/app/db/utils.test.js:77-93 | decoding a `%`-free prefix keeps it in front |
| Text.DecodeEscape | test/app/db/utils.test.js:77-93 | `%XY` decodes to the character with that code, before whatever follows |
| Json.UnescapeEscapeChar | test/app/db/utils.test.js:208-216 | one escaped character reads back before whatever follows |
| Json.UnescapeEscape | test/app/db/utils.test.js:208-216 | JSON string escaping loses nothing: unescaping gives the original string |
| Json.EscapePlain | test/app/db/utils.test.js:142-159 | text without quotes, backslashes or control characters is written by `JSON.stringify` as it is |
| SelectExamples.TwoColumns | test/app/db/utils.test.js:14-21 | `select=developer,linemanager` gives `SELECT developer, linemanager FROM <name>;` |
| SelectExamples.ThreeColumns | test/app/db/utils.test.js:23-30 | `select=firstname,lastname,email` gives `SELECT firstname, lastname, email FROM <name>;` |
| SelectExamples.EmptySelectList | test/app/db/utils.test.js:32-39 | `select=` gives the empty string |
| SelectExamples.AllData | test/app/db/utils.test.js:41-48 | no query parameters give `SELECT * FROM <name>;` |
| SelectExamples.TeamByName | test/app/db/utils.test.js:50-57 | `name=eq.Tilbury%202` gives `WHERE name = 'Tilbury 2'` |
| SelectExamples.UsersByEmail | test/app/db/utils.test.js:59-66 | `email=eq.john@mail.com` gives `WHERE email = 'john@mail.com'` |
| SelectExamples.NameIsNull | test/app/db/utils.test.js:68-75 | `name=eq.null` gives `WHERE name IS NULL` |
| SelectMoreExamples.EmailByStaffIds | test/app/db/utils.test.js:77-84 | `select=email&staffid=in.%28123,222%29` gives `SELECT email … WHERE staffid IN ('123', '222');` |
| SelectMoreExamples.EmailNameByStaffIds | test/app/db/utils.test.js:86-93 | the same filter with `select=email,name` gives `SELECT email, name …` |
| SelectExamples.IdAndContinent | test/app/db/utils.test.js:95-102 | `id=eq.3,&continent=eq.Asia` gives `WHERE id = 3 AND continent = 'Asia'` |
| SelectMoreExamples.CountryColumnsByIdAndContinent | test/app/db/utils.test.js:104-111 | the same filters with `select=name,id,continent` |
| SelectExamples.ViewByEmail | test/app/db/utils.test.js:113-120 | a view filtered by `email=eq.manager@mail.com` |
| SelectMoreExamples.DateRange | test/app/db/utils.test.js:122-129 | `gte` and `lt` on timestamps give `>=` and `<` with quoted values |
| SelectMoreExamples.JuliusInRange | test/app/db/utils.test.js:131-138 | one column with three filters, using `eq`, `gt` and `lte` |
| InsertExamples.OneRowWithArray | test/app/db/utils.test.js:142-159 | one row gives `($1, $2, $3, $4)` with the array value as JSON text |
| InsertExamples.SingleReturning | test/app/db/utils.test.js:161-172 | a single object with `return=representation` gets ` RETURNING *` |
| InsertExamples.TwoRows | test/app/db/utils.test.js:174-187 | two rows are numbered `$1…$3`, then `$4…$6` |
| InsertExamples.ThreeRowsWithNull | test/app/db/utils.test.js:189-204 | the null field is `NULL` and skips the counter: `($7, $8, NULL)`, with eight values |
| WriteExamples.ById | test/app/db/utils.test.js:208-216 | update by id with a quoted email and the roles array as JSON |
| WriteExamples.ByIdReturningAll | test/app/db/utils.test.js:218-227 | the number 34 becomes `'34'`, and ` RETURNING *` comes before the `;` |
| WriteExamples.ByFilters | test/app/db/utils.test.js:229-239 | update filtered by `firstname` and `id` |
| WriteExamples.IdOverFilters | test/app/db/utils.test.js:241-252 | the id wins over three filters, and `lastname` null becomes `NULL` |
| WriteExamples.DeleteByEmail | test/app/db/utils.test.js:256-263 | `DELETE FROM <name> WHERE email = 'manager@mail.com';` |
| WriteExamples.DeleteByEmailAndId | test/app/db/utils.test.js:265-272 | the second condition is unquoted: `id = 123` |
| SelectMoreExamples.CallWithOneArgument | test/app/db/utils.test.js:276-283 | `SELECT * FROM <name>(argstaffemail=>'daisy@mail.com');` |
| SelectMoreExamples.CallWithTwoArguments | test/app/db/utils.test.js:285-292 | two arguments joined by `,` in body order |
| SelectMoreExamples.CallWithColumns | test/app/db/utils.test.js:294-302 | columns before FROM, then the call |
| SelectMoreExamples.CallWithColumnsAndFilter | test/app/db/utils.test.js:304-312 | a null argument is `NULL`, and the WHERE comes after `)` |
| SelectV2Examples.NameAndCity | test/app/db/utils.test.js:316-333 | `SELECT name,city … WHERE name = $1 AND city = $2 LIMIT 5` with values `Tilbury 1` and `London` |
| SelectV2Examples.ByFirstname | test/app/db/utils.test.js:335-350 | `SELECT * … WHERE firstname = $1 LIMIT 1` with the value `Pedro` |
| SelectV2Examples.LimitOnly | test/app/db/utils.test.js:352-362 | `SELECT * FROM <name> LIMIT 1` with no values |
| SelectV2Examples.RepeatedLists | test/app/db/utils.test.js:364-377 | list-valued `select` and `limit` give the empty object |
| SelectV2Examples.SortedByName | test/app/db/utils.test.js:379-393 | `SELECT name … ORDER BY name ASC LIMIT 3` |
| SelectV2Examples.BlueTeam | test/app/db/utils.test.js:395-411 | filter, two sort entries and a limit: `ORDER BY name ASC, size DESC LIMIT 3` |

## Left out

- Authentication (`app/routes/index.js:29-62`): JWT decoding by a foreign library, the wall clock and configuration.
- The HTTP handlers are not modelled: CORS, body parsing and status codes. The three request guards are the only part used, as Invalid results.
- `app/routes/v1/index.js` repeats the same routes and guards and is not modelled separately.
- The database executor `query(dbrole, name, queryString)` is asynchronous I/O and is not modelled, along with its promises and logging. So is the meaning of the SQL once executed.
- SQL escaping: string values are embedded verbatim, as the builders do. Injection safety is not a property of the source and is not claimed.
- The route imports `insertIntoQueryBuilder` (`app/routes/index.js:13`) but the test imports `insertQueryBuilder` (test line 6). The model follows the test's name and behaviour; the naming mismatch itself is not modelled.
- `app/db/utils.js` is not part of this model. Where the tests leave a case open, the model makes a choice, listed below.
- Unknown operators, a malformed `in` list, or a bad `%` escape give Invalid(BadFilter). No test defines them.
- An insert batch with a later row whose keys are not exactly the first row's (a key missing or an extra key) gives Invalid(RaggedBatch). No test defines it. Key order may differ, and values are looked up by column name.
- Insert.InsertQuery: a batch whose first row is `{}` (such as `[{}]`) passes the route's guard but is rejected with Invalid(NoColumns). No test defines it, and an insert with no columns is not a statement the tests show.
- SelectV2: an `in.(a,b)` filter becomes `col IN ($k, $k+1)`, with one placeholder and one value per element. No test defines it.
- SelectV2: an `eq.null` filter becomes `col IS NULL`, with no placeholder and no value. No test defines it.
- Filters.ParseValue: only a non-empty run of ASCII digits is a number. Signed or decimal values such as `-5` or `3.5` are quoted like text (`'-5'`, `'3.5'`); number formatting beyond digit-only values is not modelled.
- More than one `select=` segment in a v1 query string is rejected; no test defines it.
- Text.PercentDecode: only escapes below `%80` are decoded. Multi-byte UTF-8 sequences are not modelled, since the tests decode only ASCII.
- Json.Escape: characters are escaped one at a time. The `\uXXXX` escaping that `JSON.stringify` applies to lone surrogates is not modelled.
- Json: body values are null, booleans, integers, strings and arrays of them. Nested objects and floating-point numbers are not modelled; the tests use neither.
- SelectV2: a `sort` parameter given as a list is not modelled; the model takes it as one string.
- SelectV2: a filter given once (a string, not a list) is one filter entry.
- SelectV2: an empty `select` means `*`, an empty `limit` is omitted, and a sort entry without a direction is `ASC`.
- SelectV2: filter values are sent as the strings Express delivers. V2 filters are not percent-decoded again, because Express already decoded them.
- Update: with a non-empty body and neither an id nor a query string, the statement has no WHERE. The route guard allows this request, and the model follows the guard.
- Update and Delete: every `&` segment, a `select=` one included, is read as a filter. Only the select builder separates column lists.
