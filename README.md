# LightBnB data access: the property-search query builder

LightBnB's data-access layer (`LightBnB_WebApp/db/database.js`) runs
parameterised SQL against a Postgres database of users, properties,
reservations and reviews. Its one piece of real logic is `getAllProperties`.
It takes a sparse options record and a limit, and builds two things:

- a query text with numbered placeholders `$1, $2, ...`;
- the ordered list of bind parameters those placeholders name.

The rules it follows:

- Every truthy option pushes one value and then emits a condition whose
  placeholder is the list's new length.
- The city, owner and price conditions are joined with `AND` into one `WHERE`.
- `GROUP BY properties.id` always follows.
- A minimum rating becomes a `HAVING` clause after the grouping.
- The limit is always the last parameter.

The model stops at the (text, parameters) pair handed to the SQL client.

Files:

- `wrappers.dfy` — `Option`.
- `decimal.dfy` — the plain decimal text of an integer, as a template literal
  `${n}` produces it for a placeholder number and for an owner id of ordinary
  size. It is used for `$n` and for the bound owner id. The file also proves
  that reading that text back with a plain decimal reader (`ParseInt`) gives
  the integer.
- `sql.dfy` — the query text as a sequence of tokens. A token is a fixed SQL
  fragment, or a fragment carrying a placeholder number. `Before`/`After` hold
  the exact characters of every fragment the source appends, and `Render`
  spells a token sequence out. The file also has:
  - `Placeholders`, which lists a text's placeholder numbers in order;
  - the `WellNumbered` invariant: the k-th placeholder is `$k`, with one per
    parameter;
  - `Join`, modelling `Array.prototype.join`.
- `property_search.dfy` — the core.
  - `GetAllProperties` is an imperative method that pushes and appends as the
    JavaScript does. It calls `CollectRowFilters` for the four row filters.
  - It is proved equal to the declarative `Query` and `BindParams`. These two
    take the given options in a fixed order and number them $1, $2, ...
  - The lemmas state what the result promises.
- `fixed_queries.dfy` — the two other statements that bind parameters to a
  fixed text:
  - `getAllReservations`, whose limit defaults to 10;
  - `addProperty`, with 14 columns and 14 values.

Options are typed. A string option is falsy when absent or `""`; a number
option is falsy when absent or `0`. `getAllProperties` neither checks nor
defaults the limit. The line `// const values = [limit || 10]`
(database.js:135) is commented out, so whatever the caller passes, `undefined`
included, is pushed as the last parameter, and the model binds it unchanged.

## Model

| member | source | states |
|---|---|---|
| PropertySearch.GetAllProperties | LightBnB_WebApp/db/database.js:126-173 | The text built by pushing and appending equals `Query(options)`. The parameter list equals `BindParams(options, limit)`. The text is well numbered against that list: the k-th placeholder is `$k`, with exactly one placeholder per parameter. |
| PropertySearch.CollectRowFilters | LightBnB_WebApp/db/database.js:138-156 | After the four `if` blocks, the parameters are the given row filters' values in the order city, owner, minimum price, maximum price. The conditions are those filters numbered `$1..$k` in the same order: each placeholder equals the list length right after its push. |
| PropertySearch.PlaceholdersNumbered | LightBnB_WebApp/db/database.js:138-172 | For every options record and limit, the placeholders of the query read `$1, $2, ..., $n` from left to right, where n is the number of parameters. |
| PropertySearch.PlaceholdersBindIntendedValues | LightBnB_WebApp/db/database.js:138-172 | Every placeholder of the query names an existing parameter, and that parameter is the value its condition needs: `%city%`, the owner id's text, a price in cents, the minimum rating, or the limit. |
| PropertySearch.ParamsInFixedOrder | LightBnB_WebApp/db/database.js:138-169 | The parameters are, in this order and each only when truthy: `"%" + city + "%"`, the owner id's decimal text, minimum price × 100, maximum price × 100, minimum rating. The limit always comes last. |
| PropertySearch.ParamCount | LightBnB_WebApp/db/database.js:128-169 | The number of parameters is the number of truthy options plus one, and the last parameter is the limit. |
| PropertySearch.RowFiltersByOption | LightBnB_WebApp/db/database.js:138-156 | The row conditions applied are exactly the truthy ones among city, owner, minimum and maximum price, in that order. |
| PropertySearch.RowParamsByOption | LightBnB_WebApp/db/database.js:139-154 | The row filters' values, option by option: the city as a `%...%` pattern, the owner id as its decimal text, and the prices in cents. |
| PropertySearch.BindParamsSplit | LightBnB_WebApp/db/database.js:163-169 | The full parameter list is the row filters' values, then the minimum rating when truthy, then the limit. |
| PropertySearch.WhereClauseShape | LightBnB_WebApp/db/database.js:158-160 | The WHERE part is empty exactly when there are no conditions. Otherwise it is `WHERE `, then the conditions in their order with ` AND ` between each two, then a space. |
| PropertySearch.WhereIffRowFilter | LightBnB_WebApp/db/database.js:158-160 | `WHERE` appears in the query if and only if at least one of city, owner id, minimum price or maximum price is truthy. |
| PropertySearch.RowConditionsJoinedWithAnd | LightBnB_WebApp/db/database.js:138-160 | When row filters apply, the query continues after the SELECT with `WHERE`, then the i-th truthy filter's condition carrying `$(i+1)`, with `AND` between each two, then the closing space. |
| PropertySearch.GroupHavingLimitAtEnd | LightBnB_WebApp/db/database.js:163-172 | The query ends with `GROUP BY`, then `HAVING ... $(n-1)` exactly when the minimum rating is truthy, then `ORDER BY ... LIMIT $n`. None of these three appears earlier, so HAVING is never inside WHERE. |
| PropertySearch.FalsyOptionsIgnored | LightBnB_WebApp/db/database.js:138-166 | An option that is absent, `""` or `0` contributes neither a parameter nor a condition: the query and the parameters equal those of the options with every falsy field removed. |
| PropertySearch.FalsyParamsIgnored | LightBnB_WebApp/db/database.js:138-169 | The parameter half of the previous row, for every options record and limit. |
| PropertySearch.QueryOfParts | LightBnB_WebApp/db/database.js:130-172 | The query depends on the options only through which row filters apply and whether the rating filter applies. |
| PropertySearch.OwnerIdZeroIsAbsent | LightBnB_WebApp/db/database.js:143-146 | An owner id of 0 gives the same query and parameters as no owner id (JavaScript falsiness). |
| PropertySearch.NoFilters | LightBnB_WebApp/db/database.js:128-172 | With no truthy option, the query is SELECT, GROUP BY, ORDER BY/LIMIT with no WHERE and no HAVING, and the limit is the only parameter, at `$1`. |
| PropertySearch.CityOnly | LightBnB_WebApp/db/database.js:138-141 | A search by city alone binds `%city%` at `$1` and the limit at `$2`, with the single condition inside WHERE. |
| PropertySearch.PriceRangeOnly | LightBnB_WebApp/db/database.js:148-156 | A price range alone binds the minimum × 100, then the maximum × 100, then the limit. |
| PropertySearch.RatingOnly | LightBnB_WebApp/db/database.js:163-167 | A minimum rating alone binds the rating at `$1` in a HAVING clause right after GROUP BY, with no WHERE, and the limit at `$2`. |
| Sql.JoinShape | LightBnB_WebApp/db/database.js:159 | `join` places the i-th item at position 2i and the separator right after every item but the last. A join of n items has 2n − 1 tokens, so nothing is dropped, reordered or doubled. |
| Sql.RenderJoin | LightBnB_WebApp/db/database.js:159 | Spelling out the joined condition tokens gives the same characters as `conditions.join(' AND ')`: each condition's text, with the separator's text between each two. |
| Sql.PlaceholdersInRange | LightBnB_WebApp/db/database.js:138-172 | In a well-numbered text every placeholder names an existing parameter (1 ≤ n ≤ number of parameters). |
| Decimal.NatToDecimal | LightBnB_WebApp/db/database.js:140 | The text of a placeholder number is a non-empty run of digits with no leading zero. |
| Decimal.ParseIntRoundTrip | LightBnB_WebApp/db/database.js:144 | The owner id is bound as its decimal text, and reading that text back as an integer gives the same owner id. |
| Decimal.IntToDecimalInjective | LightBnB_WebApp/db/database.js:144 | Different owner ids are bound as different texts. |
| FixedQueries.GetAllReservations | LightBnB_WebApp/db/database.js:98-103 | The statement is well numbered. The guest id is parameter 1 and the limit is parameter 2, where the limit is 10 when the caller leaves it undefined. |
| FixedQueries.ReservationsLimitDefault | LightBnB_WebApp/db/database.js:98 | Leaving out the limit asks for ten reservations; a given limit is bound unchanged. |
| FixedQueries.InsertPlaceholders | LightBnB_WebApp/db/database.js:198 | The VALUES list has one placeholder per column, numbered `$1..$14` in order. |
| FixedQueries.ValuesFollowColumns | LightBnB_WebApp/db/database.js:198-200 | The values array as written agrees with the column list: its k-th entry is the property field named by the k-th column. |
| FixedQueries.AddProperty | LightBnB_WebApp/db/database.js:196-200 | The insert is well numbered, has one parameter per column, and binds the property's field of each column's name, in the column list's order. |
| FixedQueries.InsertNumbered | LightBnB_WebApp/db/database.js:198 | The insert text's placeholders read `$1, ..., $14` from left to right. |
| FixedQueries.InsertValuesAligned | LightBnB_WebApp/db/database.js:198-200 | The k-th placeholder of the VALUES list is `$k`, and it binds the field named by the k-th column. |

## Left out

- The `pg` connection pool, every `pool.query(...).then/.catch` chain, the logging, and the error handling that logs and resolves to `undefined`. These are I/O and promise plumbing. The model ends at the statement handed to the client.
- What the database does with the statement (`LIKE`, `avg`, `GROUP BY`, `ORDER BY`, `LIMIT`). The model covers the text and the parameters only.
- IEEE double arithmetic: prices are `real`, so `x * 100` is exact. Rounding such as `0.07 * 100` is not modelled.
- JavaScript dynamic typing of the options. Options arriving as strings, `NaN` (also falsy) and other JavaScript values are not modelled. A string owner id would be pushed unchanged, where the model renders an integer.
- The text of the limit and the other values: a parameter is a `Value` (text, number or undefined). How the client serialises it is not modelled.
- `getUserWithEmail`, `getUserWithId` and `addUser`: single fixed queries with no branching.
- The older copy `LightBnB_WebApp-master/LightBnB_WebApp-master/db/database.js`: a stub without the builder.
- `Sql.Render` spells out the exact text, and `Sql.RenderJoin` ties the token-level `Join` to the string `join`, but no lemma evaluates `Render` on a whole query. The properties are stated on the token sequence, which `Render` maps one token at a time.
- IntToDecimal: equals `${n}` only for |n| < 1e21 and safe integers (|n| ≤ 2^53 − 1). Larger owner ids are rendered in plain decimal, where JavaScript uses exponent notation (`${1e21}` is `"1e+21"`) or has already rounded the number. The owner id is an unbounded `int`.
- Decimal.ParseIntRoundTrip: `ParseInt` is a plain decimal reader of the model's own, not Postgres's input conversion, which also accepts surrounding blanks and a `+` sign and rejects values outside the column's integer range.
