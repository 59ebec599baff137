# A verified model of a generic table-query service

The service answers `GET /{table}` and `GET /{table}/{filters}` over a
PostgreSQL database. The filters fragment is a chain of clauses such as
`debt_amount>20000&loan_status=active`, and the query string may carry
`page`, `page_size`, `sort` and `order`. Each request runs two statements:

- a count statement, which gives `total_count`;
- a page statement, which gives the rows.

The service answers with a JSON envelope `{data, count, page, page_size,
total_count}`, or with `{error}` and status 400 or 500.

This project models the part of the service that turns untrusted path and
query text into those two statements:

- URL decoding of the fragment, then splitting it on `&`;
- parsing each clause with the operator priority `>=`, `<=`, `!=`, `=`, `>`, `<`;
- whitelisting of table, column and sort names, and checking of the sort direction;
- pagination, using `usize` arithmetic;
- building the WHERE, ORDER BY, LIMIT and OFFSET text;
- binding the filter values as positional parameters;
- assembling the response from whatever the database returned.

## Modules

- `Wrappers`: `Option` and `Result`.
- `Text`: the parts of Rust's `str` and `char` that the service relies on.
  - `trim`, `find`, `split`, `join` and `to_uppercase`.
  - Decimal printing of unsigned integers.
  - A `Library` record that stands for the three library calls whose insides
    are not modelled: `urlencoding::decode`, `char::is_alphanumeric` and
    `char::to_uppercase`. `Library.Valid()` pins down only their ASCII
    behaviour, plus the fact that decoding leaves text with no `%` and no `+`
    unchanged.
- `Identifiers`: `sanitize_table_name`, `sanitize_column_name` and
  `validate_sort_order`.
- `Filters`: `parse_filter` and `parse_multiple_filters`. Each is a method
  proved equal to a specification function. The round-trip lemmas prove that a
  rendered clause, or a rendered chain of clauses, parses back to itself.
- `Sql`: the SQL text builders and the bind loop.
  - `Placeholders` reads a statement the way PostgreSQL reads positional
    parameters: the digits after each `$`.
  - `Words` splits a statement on spaces, so the clause structure of each
    statement can be stated exactly.
- `Handlers`: `query_table` and `query_all` up to execution, and the response
  envelope.
  - `QueryTable` is a method proved equal to the function `FilteredPlan`.
  - The lemmas about `FilteredPlan` state what every accepted request executes.

## Behaviour worth knowing

- **Identifier characters.** An identifier is accepted when every character
  is alphanumeric or `_`.
  - The empty name is accepted.
  - Non-ASCII alphanumerics are accepted too, because Rust's
    `char::is_alphanumeric` is Unicode-aware.
- **Encoded `+`.** `urlencoding::decode` does not turn `+` into a space. The
  model does not rely on how `+` is decoded.
- **Empty values.** A clause with an empty value after trimming is rejected
  with "Invalid filter format". An empty column is rejected the same way.
- **At least one clause.** The filter chain of `query_table` always has at
  least one clause, because splitting always yields at least one piece
  (`Filters.FiltersShape`).
- **Comparison as text.** Every condition compares as text:
  `column::text op $n::text`. `value>100` is therefore a string comparison,
  not a numeric one.
- **No pagination checks.**
  - `page` and `page_size` are not checked, and `page_size=0` is accepted.
  - `page=0` makes `page - 1` wrap around in a release build. The offset then
    becomes `(2^64 - page_size) mod 2^64` (`Handlers.PaginationOf`).
  - An offset `(page - 1) * page_size` too large for `usize` wraps modulo 2^64
    in a release build.
  - A non-numeric `page` is rejected by the web framework before the handler
    runs, so that case is not part of this model.
- **Checks on `query_all`.** `query_all` checks only the table name, the sort
  column and the direction.
- **Failed count query.** When the count query fails, `total_count` is absent.
  The request still succeeds.
- **Unreadable count column.** When the `count` column cannot be read, it
  counts as 0.

## Model

| member | source | states |
|---|---|---|
| Text.Trim | src/main.rs:42-43 | `str::trim`: the result has no whitespace at either end, and it is the contiguous middle of the input once every leading and trailing whitespace character is removed |
| Text.TrimEmpty | src/main.rs:42-45 | a clause side trims to the empty string exactly when it is all whitespace |
| Text.Find | src/main.rs:41 | `str::find`: the result is the first position where the pattern occurs, and it is absent exactly when the pattern occurs nowhere |
| Text.All | src/main.rs:77-87 | `chars().all(p)`: true iff `p` holds of every character |
| Text.Split | src/main.rs:65 | `split('&')` yields at least one piece, and no piece contains the separator |
| Text.JoinSplit | src/main.rs:65 | splitting loses nothing: joining the pieces with the separator gives back the text |
| Text.SplitJoin | src/main.rs:65 | splitting a join of separator-free pieces gives back exactly those pieces |
| Text.Join | src/main.rs:176 | `join(sep)`; `Text.JoinSplit` and `Text.SplitJoin` prove that it is the inverse of `split` on separator-free pieces |
| Text.ToUppercase | src/main.rs:91 | `to_uppercase` on ASCII input keeps the length and uppercases each character |
| Text.Decimal | src/main.rs:173 | numbers are printed as non-empty runs of digits without a leading zero |
| Text.DecimalRoundTrip | src/main.rs:173 | reading a printed number gives back the number, so distinct placeholder numbers print differently |
| Identifiers.Sanitize | src/main.rs:76-88 | a name is accepted iff each of its characters is alphanumeric or `_`; an accepted name is returned unchanged; otherwise the given message is returned |
| Identifiers.SanitizeTableName | src/main.rs:76-81 | accepted iff each character is alphanumeric or `_`; returned unchanged; otherwise "Invalid table name" |
| Identifiers.SanitizeColumnName | src/main.rs:83-88 | accepted iff each character is alphanumeric or `_`; returned unchanged; otherwise "Invalid column name" |
| Identifiers.IdentifierIsSafe | src/main.rs:76-88 | an accepted name has no ASCII character other than letters, digits and `_`, in particular no `$`, space, `;` or quote |
| Identifiers.IdentifierExamples | src/main.rs:76-88 | `users` and `customer_id` are accepted; `users; DROP TABLE x` and `user name` are rejected; the empty name is accepted |
| Identifiers.ValidateSortOrder | src/main.rs:90-97 | accepted iff the uppercased direction is `ASC` or `DESC`; the result is that uppercased text; otherwise the sort-order message |
| Identifiers.SortOrderIsCaseInsensitive | src/main.rs:90-97 | on ASCII input the direction is accepted exactly when it spells `asc` or `desc` in any mix of cases, and it comes back in capitals |
| Filters.SplitAt | src/main.rs:42-53 | splitting at an operator occurrence succeeds iff both trimmed sides are non-empty; the filter is then the trimmed left side, that operator and the trimmed right side; otherwise "Invalid filter format" |
| Filters.FirstOccurring | src/main.rs:38-41 | the operator chosen is the first in priority order that occurs anywhere in the clause |
| Filters.SplitClause | src/main.rs:38-57 | the clause is split at the first occurrence of the chosen operator; "No valid operator found" when no operator occurs |
| Filters.FilterOf | src/main.rs:32-58 | the value of `parse_filter`: "Failed to decode URL" when decoding fails, otherwise the split of the decoded clause; `Filters.OperatorPriority`, `Filters.FilterShape` and `Filters.RenderRoundTrip` state what it is |
| Filters.ParseFilter | src/main.rs:32-58 | the loop over the operators returns exactly `FilterOf`: a decode failure, the split at the chosen operator, or no operator |
| Filters.OperatorPriority | src/main.rs:38-57 | the error is "No valid operator found" iff none of the six operators occurs; otherwise the clause is split at the first occurrence of the highest-priority operator present, into trimmed column and value |
| Filters.FilterShape | src/main.rs:32-58 | a parsed clause has a non-empty, trimmed column and value; every error is one of the three messages of `parse_filter` |
| Filters.RenderRoundTrip | src/main.rs:32-58 | a clause written as `column op value`, with a plain non-operator column and a value free of outranking operator characters, parses back to itself |
| Filters.GreaterOrEqualExample | src/main.rs:38-55 | `id>=3` parses as column `id`, operator `>=`, value `3` (not `>` with the value `=3`) |
| Filters.RepeatedOperatorExample | src/main.rs:38-55 | `a=b=c` is split at the first `=`: the value `b=c` keeps the second one |
| Filters.Collect | src/main.rs:68-73 | the parsed clauses are collected in order, and the chain fails iff some clause fails |
| Filters.CollectFirstFailure | src/main.rs:68-71 | the `?` in the loop makes the chain fail with the error of its first failing clause |
| Filters.FiltersFrom | src/main.rs:65-73 | one filter per piece, in order; success iff every piece parses |
| Filters.FiltersOf | src/main.rs:60-74 | the value of `parse_multiple_filters`: "Failed to decode URL" when decoding fails, otherwise one parsed clause per `&` piece; `Filters.FirstFailure`, `Filters.FiltersShape` and `Filters.RenderAllRoundTrip` state what it is |
| Filters.ParseMultipleFilters | src/main.rs:60-74 | the decode-split-parse loop returns exactly `FiltersOf` |
| Filters.FirstFailure | src/main.rs:68-71 | a chain fails with the error of its first failing clause |
| Filters.FiltersShape | src/main.rs:60-74 | on success there is one filter per `&`-separated piece of the decoded fragment, in order, so the list is never empty |
| Filters.RenderAllRoundTrip | src/main.rs:60-74 | a non-empty list of renderable clauses, joined with `&`, parses back to the same list in the same order |
| Sql.Conditions | src/main.rs:167-176 | condition `i` of the WHERE list is the `i`-th filter with the placeholder `$i`, counted from 1 |
| Sql.Values | src/main.rs:201-204 | the bound values are the filter values, one per filter, in filter order |
| Sql.Condition | src/main.rs:173 | condition `n` is `column::text op $n::text`; `Sql.ConditionPlaceholders` proves it refers to exactly the parameter `$n` when the column has no `$` |
| Sql.WhereClause | src/main.rs:167-176 | the conditions joined with ` AND `; `Sql.WherePlaceholders`, `Sql.WhereIgnoresValues` and `Sql.CountWords` state its parameters and words |
| Sql.OrderByClause | src/main.rs:179-183 | ` ORDER BY col dir` when a sort column is given, nothing otherwise (the same text at lines 324-328); `Sql.OrderByNoDollar` and `Sql.PageWords` state its content |
| Sql.CountSql | src/main.rs:186-189 | the count statement of `query_table`; `Sql.CountPlaceholders` and `Sql.CountWords` state its parameters and words |
| Sql.LimitClause | src/main.rs:192-195 | ` LIMIT n OFFSET m` with both numbers in decimal; `Sql.PageWords` states its words |
| Sql.PageSql | src/main.rs:192-195 | the page statement of `query_table`; `Sql.PagePlaceholders` and `Sql.PageWords` state its parameters and words |
| Sql.CountAllSql | src/main.rs:331 | the count statement of `query_all`; `Sql.AllPlaceholders` and `Sql.CountAllWords` state that it has no parameter and give its words |
| Sql.PageAllSql | src/main.rs:334-337 | the page statement of `query_all`; `Sql.AllPlaceholders` and `Sql.PageAllWords` state that it has no parameter and give its words |
| Sql.Bind | src/main.rs:201-204 | the bind loop keeps the statement text and binds exactly the filter values in order (the same loop appears at lines 218-221) |
| Sql.Numbered | src/main.rs:173 | the placeholder list `$1`, ..., `$n` has length n, and entry i is the numeral of i + 1 |
| Sql.WherePlaceholders | src/main.rs:167-176 | when no column contains `$`, the WHERE text refers to exactly the parameters `$1`, ..., `$n`, in order |
| Sql.CountPlaceholders | src/main.rs:186-189 | the count statement refers to exactly `$1`, ..., `$n` |
| Sql.PagePlaceholders | src/main.rs:179-195 | the page statement refers to exactly `$1`, ..., `$n`; ORDER BY, LIMIT and OFFSET add none |
| Sql.OrderByNoDollar | src/main.rs:179-183 | the ORDER BY text adds no `$`, and when present it starts with a space |
| Sql.AllPlaceholders | src/main.rs:331-337 | the statements of `query_all` refer to no parameter |
| Sql.NumberedReadsBack | src/main.rs:173 | placeholder i reads back as the number i |
| Sql.WhereIgnoresValues | src/main.rs:167-176 | the WHERE text depends only on the columns and operators, never on the values |
| Sql.CountWords | src/main.rs:186-189 | word by word, the count statement is `SELECT COUNT(*) as count FROM table WHERE` followed by the conditions joined with `AND` |
| Sql.PageWords | src/main.rs:179-195 | word by word, the page statement is `SELECT * FROM table WHERE`, then the conditions, then `ORDER BY col dir` when a sort column is given, then `LIMIT n OFFSET m` |
| Sql.CountAllWords | src/main.rs:331 | word by word, the count statement of `query_all` is `SELECT COUNT(*) as count FROM table` |
| Sql.PageAllWords | src/main.rs:324-337 | word by word, the page statement of `query_all` is `SELECT * FROM table`, the optional ORDER BY, then `LIMIT n OFFSET m` |
| Handlers.PaginationOf | src/main.rs:139-141 | page defaults to 1; page size defaults to 100 and is clamped to 1000, otherwise left as requested; for page >= 1 the offset is `(page-1)*page_size` modulo 2^64, which is the exact product when it fits in `usize`; for page 0 it is `(2^64 - page_size) mod 2^64` |
| Handlers.WrappingSub | src/main.rs:141 | `usize` subtraction in a release build: the exact difference when it is not negative, otherwise the difference plus 2^64 |
| Handlers.WrappingMul | src/main.rs:141 | `usize` multiplication in a release build: the exact product when it fits, and always congruent to it modulo 2^64 |
| Handlers.WrappedOffset | src/main.rs:141 | `usize::MAX * n` wraps to `2^64 - n` |
| Handlers.SortColumnOf | src/main.rs:144-153 | an absent sort column is accepted; a present one is accepted iff it is an identifier, and is kept unchanged |
| Handlers.SortOrderOf | src/main.rs:155-165 | the direction defaults to `ASC`; a given one is accepted iff its uppercased text is `ASC` or `DESC`, and the result is that uppercased text; otherwise the sort-order message |
| Handlers.CheckColumns | src/main.rs:122-135 | the filters are accepted iff every column is an identifier, and then come back unchanged; otherwise "Invalid column name" |
| Handlers.SanitizeFilters | src/main.rs:122-135 | the rebuild loop returns exactly `CheckColumns` |
| Handlers.FilteredPlan | src/main.rs:104-198 | the checks run in the order table, filter chain (with the "Invalid filter: " prefix), columns, sort column, direction; the first failure is the answer; a plan exists iff all checks pass, and it reports the page and page size that `Handlers.PaginationOf` resolves |
| Handlers.QueryTable | src/main.rs:104-221 | the handler, step by step, computes exactly `FilteredPlan`, including both bind loops |
| Handlers.AllPlan | src/main.rs:286-337 | the checks run in the order table, sort column, direction; an accepted request binds nothing and reports the page and page size that `Handlers.PaginationOf` resolves |
| Handlers.FilteredStatements | src/main.rs:167-204 | the two statements of `query_table` built from checked inputs, sharing one WHERE text and one list of bound values; `Handlers.FilteredPlanIsParameterised`, `Handlers.FilteredPlanWords` and `Handlers.FilteredSqlIgnoresValues` state what they are |
| Handlers.FilteredPlanAccepted | src/main.rs:104-198 | an accepted request had a valid table, valid columns and sort column, and a valid direction; its plan is built from those |
| Handlers.FilteredPlanIsParameterised | src/main.rs:167-221 | for an accepted request, both statements bind the filter values in order and refer to exactly `$1`, ..., `$n` with n >= 1 |
| Handlers.FilteredPlanWords | src/main.rs:167-195 | for an accepted request, the two statements have exactly the word structure above, with the table, the page size and the offset the request resolved |
| Handlers.FilteredSqlIgnoresValues | src/main.rs:167-204 | two filter chains with the same columns and operators give identical SQL text; each binds its own values |
| Handlers.CountIgnoresPaging | src/main.rs:139-189 | the count statement is the same whatever the page, page size and (valid) sort |
| Handlers.AllPlanIsParameterised | src/main.rs:331-337 | `query_all` statements have no placeholder and bind nothing |
| Handlers.AllPlanWords | src/main.rs:324-337 | the word structure of both `query_all` statements; there is no WHERE |
| Handlers.AsUsize | src/main.rs:208-209 | `count as usize` keeps non-negative counts and maps a negative one to `2^64 + c` |
| Handlers.TotalCount | src/main.rs:206-215 | `total_count` is absent iff the count query failed; an unreadable count gives 0; a non-negative count is kept |
| Handlers.Respond | src/main.rs:223-278 | a rejected request gives 400 with its message; a failed page query gives 500 with "Database error: "; otherwise 200 with the rows, `count` equal to the number of rows, the resolved page and page size, and `total_count` absent iff the count query failed, otherwise the count read from the count query (`Handlers.TotalCount`) |

## Left out

- Row decoding (src/main.rs:227-260), which tries a chain of column types per
  cell. A row is an opaque type parameter of `Handlers.Respond`.
- Running the statements: the connection pool, sqlx and PostgreSQL itself.
  What the two statements return is a parameter of `Handlers.Respond`.
- Logging, server start-up, route registration, configuration from the
  environment, and `health_check`. None of them affects the answer.
- JSON serialisation of the envelope, and the web framework's parsing of the
  query string, including its 400 for a non-numeric `page`.
- The inside of `urlencoding::decode`.
  - `Text.Library.Valid` fixes only that text with no `%` and no `+` decodes
    to itself.
  - Everything else is an arbitrary function that may fail.
- Text.ToUppercase: the contract covers ASCII input only, because Unicode
  case mapping is not modelled.
- Identifiers.IdentifierIsSafe: states what an accepted name contains only for
  its ASCII characters, because Unicode `is_alphanumeric` is not modelled.
- Identifiers.SortOrderIsCaseInsensitive: holds for ASCII input only, for the
  same reason.
- Handlers.PaginationOf: models a release build, where `usize` arithmetic
  wraps. A debug build panics on `page=0` or on an overflowing offset instead.
- Handlers.Respond: requires fewer than 2^64 rows, which any `Vec` satisfies.
- The client script `api_client.py` is not part of this model.
