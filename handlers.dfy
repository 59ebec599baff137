/**
 * The two query handlers up to the statements they execute: `query_table`
 * (`GET /{table}/{filters}`) checks the table name, the filter chain, every filter
 * column, the sort column and the sort direction, in that order, then builds a
 * count query and a page query that share one WHERE text and one list of bound
 * values; `query_all` (`GET /{table}`) does the same with no filters and no WHERE.
 * The database is not modelled: what the two statements return is a parameter of
 * `Respond`, which builds the HTTP answer.
 */
module Handlers {
  import opened Wrappers
  import opened Text
  import opened Identifiers
  import opened Filters
  import opened Sql

  /** 2^64: `usize` on the 64-bit targets the service is built for. */
  const UsizeLimit: int := 0x1_0000_0000_0000_0000

  type Usize = x: int | 0 <= x < UsizeLimit

  /** `i64`, the type the count column is read as. */
  type I64 = x: int | -0x8000_0000_0000_0000 <= x < 0x8000_0000_0000_0000

  /** The query string `?page=&page_size=&sort=&order=`, every field optional. */
  datatype QueryParams = QueryParams(
    page: Option<Usize>,
    pageSize: Option<Usize>,
    sort: Option<string>,
    order: Option<string>)

  const DefaultPage: Usize := 1
  const DefaultPageSize: Usize := 100
  const MaxPageSize: Usize := 1000
  const DefaultOrder := "ASC"
  const InvalidFilterPrefix := "Invalid filter: "
  const DatabaseErrorPrefix := "Database error: "

  // ---------------------------------------------------------------------------
  // Pagination

  datatype Pagination = Pagination(page: Usize, pageSize: Usize, offset: Usize)

  /** `a - b` on `usize` as a release build computes it: modulo 2^64. */
  function WrappingSub(a: Usize, b: Usize): (r: Usize)
    ensures b <= a ==> r == a - b
    ensures a < b ==> r == UsizeLimit + a - b
  {
    (a - b) % UsizeLimit
  }

  /** `a * b` on `usize` as a release build computes it: modulo 2^64. */
  function WrappingMul(a: Usize, b: Usize): (r: Usize)
    ensures a * b < UsizeLimit ==> r == a * b
    ensures (a * b - r) % UsizeLimit == 0
  {
    (a * b) % UsizeLimit
  }

  /**
   * The page (default 1), the page size (default 100, at most 1000, 0 allowed) and
   * the offset `(page - 1) * page_size`. Page 0 is not rejected: the subtraction
   * wraps and the offset becomes (2^64 - page_size) mod 2^64; an offset too large
   * for `usize` wraps modulo 2^64 as well.
   */
  function PaginationOf(params: QueryParams): (p: Pagination)
    ensures params.page.None? ==> p.page == 1
    ensures params.page.Some? ==> p.page == params.page.value
    ensures p.pageSize <= MaxPageSize && p.pageSize <= params.pageSize.GetOr(DefaultPageSize)
    ensures p.pageSize == params.pageSize.GetOr(DefaultPageSize) || p.pageSize == MaxPageSize
    ensures p.page >= 1 ==> p.offset == ((p.page - 1) * p.pageSize) % UsizeLimit
    ensures p.page >= 1 && (p.page - 1) * p.pageSize < UsizeLimit ==> p.offset == (p.page - 1) * p.pageSize
    ensures p.page == 0 ==> p.offset == (UsizeLimit - p.pageSize) % UsizeLimit
  {
    var page := params.page.GetOr(DefaultPage);
    var requested := params.pageSize.GetOr(DefaultPageSize);
    var pageSize := if requested <= MaxPageSize then requested else MaxPageSize;
    var offset := WrappingMul(WrappingSub(page, 1), pageSize);
    assert page == 0 ==> offset == (UsizeLimit - pageSize) % UsizeLimit by {
      if page == 0 {
        WrappedOffset(pageSize);
      }
    }
    assert page >= 1 ==> offset == ((page - 1) * pageSize) % UsizeLimit by {
      if page >= 1 {
        assert WrappingSub(page, 1) == page - 1;
      }
    }
    assert page >= 1 && (page - 1) * pageSize < UsizeLimit ==> offset == (page - 1) * pageSize by {
      if page >= 1 && (page - 1) * pageSize < UsizeLimit {
        ExactOffset(page, pageSize);
      }
    }
    Pagination(page, pageSize, offset)
  }

  /** Without overflow the wrapping operations compute the exact offset. */
  lemma ExactOffset(page: Usize, pageSize: Usize)
    requires page >= 1 && (page - 1) * pageSize < UsizeLimit
    ensures WrappingMul(WrappingSub(page, 1), pageSize) == (page - 1) * pageSize
  {
    var k: nat := page - 1;
    assert WrappingSub(page, 1) == k;
    var product: nat := k * pageSize;
    assert product % UsizeLimit == product;
  }

  /** `usize::MAX * n` wraps to `2^64 - n`. */
  lemma WrappedOffset(n: Usize)
    ensures WrappingMul(UsizeLimit - 1, n) == (UsizeLimit - n) % UsizeLimit
  {
    if n > 0 {
      var r := UsizeLimit - n;
      assert (UsizeLimit - 1) * n == UsizeLimit * (n - 1) + r;
      ModMultiple(n - 1, r);
    }
  }

  lemma ModMultiple(k: nat, r: nat)
    requires r < UsizeLimit
    ensures (UsizeLimit * k + r) % UsizeLimit == r
  {
  }

  // ---------------------------------------------------------------------------
  // Sort column and sort direction

  /** The optional sort column, checked like a filter column. */
  function SortColumnOf(lib: Library, sort: Option<string>): (r: Result<Option<string>>)
    ensures sort.None? ==> r == Ok(None)
    ensures sort.Some? ==> (r.Ok? <==> IsIdentifier(lib, sort.value))
    ensures r.Ok? ==> r.value == sort
    ensures r.Err? ==> r.error == "Invalid column name"
  {
    match sort
    case None => Ok(None)
    case Some(s) =>
      var c :- SanitizeColumnName(lib, s);
      Ok(Some(c))
  }

  /** The sort direction: `ASC` when absent, otherwise the checked, uppercased one. */
  function SortOrderOf(lib: Library, order: Option<string>): (r: Result<string>)
    ensures order.None? ==> r == Ok(DefaultOrder)
    ensures order.Some? ==> (r.Ok? <==> ToUppercase(lib, order.value) in {"ASC", "DESC"})
    ensures order.Some? && r.Ok? ==> r.value == ToUppercase(lib, order.value)
    ensures r.Ok? ==> r.value in {"ASC", "DESC"}
    ensures r.Err? ==> r.error == SortOrderError
  {
    match order
    case None => Ok(DefaultOrder)
    case Some(o) => ValidateSortOrder(lib, o)
  }

  // ---------------------------------------------------------------------------
  // Filter columns

  predicate ColumnsAreIdentifiers(lib: Library, fs: seq<Filter>) {
    forall i :: 0 <= i < |fs| ==> IsIdentifier(lib, fs[i].column)
  }

  /** Every filter column checked in order, stopping at the first that fails. */
  function CheckColumns(lib: Library, fs: seq<Filter>): (r: Result<seq<Filter>>)
    ensures r.Ok? <==> ColumnsAreIdentifiers(lib, fs)
    ensures r.Ok? ==> r.value == fs
    ensures r.Err? ==> r.error == "Invalid column name"
  {
    if fs == [] then Ok([])
    else
      var rest := fs[1..];
      assert forall i :: 0 < i < |fs| ==> fs[i] == rest[i - 1];
      match SanitizeColumnName(lib, fs[0].column)
      case Err(e) => Err(e)
      case Ok(column) =>
        match CheckColumns(lib, rest)
        case Err(e) => Err(e)
        case Ok(checked) =>
          assert [fs[0]] + rest == fs;
          Ok([Filter(column, fs[0].op, fs[0].value)] + checked)
  }

  /** The loop of `query_table` that rebuilds the filters with their checked columns. */
  method SanitizeFilters(lib: Library, filters: seq<Filter>) returns (r: Result<seq<Filter>>)
    ensures r == CheckColumns(lib, filters)
  {
    var sanitized: seq<Filter> := [];
    for i := 0 to |filters|
      invariant sanitized == filters[..i]
      invariant ColumnsAreIdentifiers(lib, sanitized)
    {
      var f := filters[i];
      var column := SanitizeColumnName(lib, f.column);
      if column.Err? {
        return Err(column.error);
      }
      sanitized := sanitized + [Filter(column.value, f.op, f.value)];
    }
    assert filters[..|filters|] == filters;
    return Ok(sanitized);
  }

  // ---------------------------------------------------------------------------
  // The two statements

  /** What a handler executes: the count statement, the page statement, and the page it reports. */
  datatype Plan = Plan(count: Statement, data: Statement, page: Usize, pageSize: Usize)

  /** The statements of `query_table` once every check has passed. */
  function FilteredStatements(table: string, filters: seq<Filter>, p: Pagination,
                              sortColumn: Option<string>, sortOrder: string): Plan
  {
    var where := WhereClause(filters);
    var orderBy := OrderByClause(sortColumn, sortOrder);
    Plan(
      Statement(CountSql(table, where), Values(filters)),
      Statement(PageSql(table, where, orderBy, p.pageSize, p.offset), Values(filters)),
      p.page, p.pageSize)
  }

  /**
   * `query_table` up to execution. The checks run in the order table name, filter
   * chain, filter columns, sort column, sort direction; the first that fails gives
   * the answer and nothing is built.
   */
  function FilteredPlan(lib: Library, tableName: string, filtersStr: string, params: QueryParams): (r: Result<Plan>)
    ensures !IsIdentifier(lib, tableName) ==> r == Err("Invalid table name")
    ensures IsIdentifier(lib, tableName) && FiltersOf(lib, filtersStr).Err? ==>
      r == Err(InvalidFilterPrefix + FiltersOf(lib, filtersStr).error)
    ensures IsIdentifier(lib, tableName) && FiltersOf(lib, filtersStr).Ok? ==>
      var fs := FiltersOf(lib, filtersStr).value;
      var sort := SortColumnOf(lib, params.sort);
      var order := SortOrderOf(lib, params.order);
      && (!ColumnsAreIdentifiers(lib, fs) ==> r == Err("Invalid column name"))
      && (ColumnsAreIdentifiers(lib, fs) && sort.Err? ==> r == Err("Invalid column name"))
      && (ColumnsAreIdentifiers(lib, fs) && sort.Ok? && order.Err? ==> r == Err(SortOrderError))
      && (ColumnsAreIdentifiers(lib, fs) && sort.Ok? && order.Ok? ==> r.Ok?)
    ensures r.Ok? ==> r.value.page == PaginationOf(params).page && r.value.pageSize == PaginationOf(params).pageSize
  {
    var table :- SanitizeTableName(lib, tableName);
    var parsed := FiltersOf(lib, filtersStr);
    var filters :- if parsed.Err? then Err(InvalidFilterPrefix + parsed.error) else parsed;
    var sanitized :- CheckColumns(lib, filters);
    var p := PaginationOf(params);
    var sortColumn :- SortColumnOf(lib, params.sort);
    var sortOrder :- SortOrderOf(lib, params.order);
    Ok(FilteredStatements(table, sanitized, p, sortColumn, sortOrder))
  }

  /** `query_table`, step by step: parse, check, build both statements, bind the values to each. */
  method QueryTable(lib: Library, tableName: string, filtersStr: string, params: QueryParams)
    returns (r: Result<Plan>)
    ensures r == FilteredPlan(lib, tableName, filtersStr, params)
  {
    var table := SanitizeTableName(lib, tableName);
    if table.Err? {
      return Err(table.error);
    }
    var filters := ParseMultipleFilters(lib, filtersStr);
    if filters.Err? {
      return Err(InvalidFilterPrefix + filters.error);
    }
    var sanitized := SanitizeFilters(lib, filters.value);
    if sanitized.Err? {
      return Err(sanitized.error);
    }
    var p := PaginationOf(params);
    var sortColumn := SortColumnOf(lib, params.sort);
    if sortColumn.Err? {
      return Err(sortColumn.error);
    }
    var sortOrder := SortOrderOf(lib, params.order);
    if sortOrder.Err? {
      return Err(sortOrder.error);
    }
    var where := WhereClause(sanitized.value);
    var orderBy := OrderByClause(sortColumn.value, sortOrder.value);
    var count := Bind(CountSql(table.value, where), sanitized.value);
    var data := Bind(PageSql(table.value, where, orderBy, p.pageSize, p.offset), sanitized.value);
    assert count.args == Values(sanitized.value);
    assert data.args == Values(sanitized.value);
    r := Ok(Plan(count, data, p.page, p.pageSize));
  }

  /** `query_all` up to execution: the table name, pagination and sort checks, no filters. */
  function AllPlan(lib: Library, tableName: string, params: QueryParams): (r: Result<Plan>)
    ensures !IsIdentifier(lib, tableName) ==> r == Err("Invalid table name")
    ensures IsIdentifier(lib, tableName) ==>
      var sort := SortColumnOf(lib, params.sort);
      var order := SortOrderOf(lib, params.order);
      && (sort.Err? ==> r == Err("Invalid column name"))
      && (sort.Ok? && order.Err? ==> r == Err(SortOrderError))
      && (sort.Ok? && order.Ok? ==> r.Ok? && r.value.count.args == [] && r.value.data.args == [])
    ensures r.Ok? ==> r.value.page == PaginationOf(params).page && r.value.pageSize == PaginationOf(params).pageSize
  {
    var table :- SanitizeTableName(lib, tableName);
    var p := PaginationOf(params);
    var sortColumn :- SortColumnOf(lib, params.sort);
    var sortOrder :- SortOrderOf(lib, params.order);
    var orderBy := OrderByClause(sortColumn, sortOrder);
    Ok(Plan(
      Statement(CountAllSql(table), []),
      Statement(PageAllSql(table, orderBy, p.pageSize, p.offset), []),
      p.page, p.pageSize))
  }

  // ---------------------------------------------------------------------------
  // What an accepted request executes

  /** An accepted request: every check passed, and the plan is built from what they returned. */
  lemma FilteredPlanAccepted(lib: Library, tableName: string, filtersStr: string, params: QueryParams)
    requires FilteredPlan(lib, tableName, filtersStr, params).Ok?
    ensures FiltersOf(lib, filtersStr).Ok? && SortOrderOf(lib, params.order).Ok?
    ensures var fs := FiltersOf(lib, filtersStr).value;
      && IsIdentifier(lib, tableName)
      && ColumnsAreIdentifiers(lib, fs)
      && (params.sort.Some? ==> IsIdentifier(lib, params.sort.value))
      && FilteredPlan(lib, tableName, filtersStr, params).value
         == FilteredStatements(tableName, fs, PaginationOf(params), params.sort, SortOrderOf(lib, params.order).value)
  {
  }

  /** The checked names of an accepted request hold no `$` and no space. */
  ghost predicate SafeParts(lib: Library, table: string, fs: seq<Filter>, sort: Option<string>, order: string) {
    && lib.Valid()
    && IsIdentifier(lib, table)
    && ColumnsAreIdentifiers(lib, fs)
    && (sort.Some? ==> IsIdentifier(lib, sort.value))
    && order in {"ASC", "DESC"}
  }

  lemma {:induction false} SafePartsHaveNoDollarOrSpace(lib: Library, table: string, fs: seq<Filter>, sort: Option<string>, order: string)
    requires SafeParts(lib, table, fs, sort, order)
    ensures '$' !in table && ' ' !in table
    ensures forall i :: 0 <= i < |fs| ==> '$' !in fs[i].column && ' ' !in fs[i].column
    ensures sort.Some? ==> '$' !in sort.value && ' ' !in sort.value
    ensures '$' !in order && ' ' !in order
  {
    IdentifierIsSafe(lib, table);
    forall i | 0 <= i < |fs| ensures '$' !in fs[i].column && ' ' !in fs[i].column {
      IdentifierIsSafe(lib, fs[i].column);
    }
    if sort.Some? {
      IdentifierIsSafe(lib, sort.value);
    }
    assert order == "ASC" || order == "DESC";
  }

  lemma {:induction false} StatementsParameterised(lib: Library, table: string, fs: seq<Filter>, p: Pagination,
                                                   sort: Option<string>, order: string)
    requires SafeParts(lib, table, fs, sort, order)
    ensures var plan := FilteredStatements(table, fs, p, sort, order);
      && plan.count.args == Values(fs) && plan.data.args == Values(fs)
      && Placeholders(plan.count.sql) == Numbered(1, |fs|)
      && Placeholders(plan.data.sql) == Numbered(1, |fs|)
  {
    SafePartsHaveNoDollarOrSpace(lib, table, fs, sort, order);
    OrderByNoDollar(sort, order);
    CountPlaceholders(table, fs);
    PagePlaceholders(table, fs, OrderByClause(sort, order), p.pageSize, p.offset);
  }

  lemma {:induction false} StatementsWords(lib: Library, table: string, fs: seq<Filter>, p: Pagination,
                                           sort: Option<string>, order: string)
    requires SafeParts(lib, table, fs, sort, order) && |fs| >= 1
    ensures var plan := FilteredStatements(table, fs, p, sort, order);
      && Words(plan.count.sql)
         == ["SELECT", "COUNT(*)", "as", "count", "FROM", table, "WHERE"] + WhereWords(fs, 1)
      && Words(plan.data.sql)
         == ["SELECT", "*", "FROM", table, "WHERE"] + WhereWords(fs, 1) + OrderByWords(sort, order)
            + ["LIMIT", Decimal(p.pageSize), "OFFSET", Decimal(p.offset)]
  {
    SafePartsHaveNoDollarOrSpace(lib, table, fs, sort, order);
    CountWords(table, fs);
    PageWords(table, fs, sort, order, p.pageSize, p.offset);
  }

  /**
   * Nothing a client sends reaches the SQL text except checked names: both
   * statements of an accepted request carry exactly the placeholders `$1`, ...,
   * `$n`, one per filter and in order, and both bind the n filter values in that
   * same order.
   */
  lemma {:induction false} FilteredPlanIsParameterised(lib: Library, tableName: string, filtersStr: string, params: QueryParams)
    requires lib.Valid()
    requires FilteredPlan(lib, tableName, filtersStr, params).Ok?
    ensures FiltersOf(lib, filtersStr).Ok?
    ensures var plan := FilteredPlan(lib, tableName, filtersStr, params).value;
      var fs := FiltersOf(lib, filtersStr).value;
      && |fs| >= 1
      && plan.count.args == Values(fs) && plan.data.args == Values(fs)
      && Placeholders(plan.count.sql) == Numbered(1, |fs|)
      && Placeholders(plan.data.sql) == Numbered(1, |fs|)
  {
    FilteredPlanAccepted(lib, tableName, filtersStr, params);
    FiltersShape(lib, filtersStr);
    StatementsParameterised(lib, tableName, FiltersOf(lib, filtersStr).value, PaginationOf(params),
      params.sort, SortOrderOf(lib, params.order).value);
  }

  /**
   * The two statements of an accepted request, word by word: the count query
   * counts the filtered table, and the page query selects from it, then orders
   * (when asked), then limits and skips.
   */
  lemma {:induction false} FilteredPlanWords(lib: Library, tableName: string, filtersStr: string, params: QueryParams)
    requires lib.Valid()
    requires FilteredPlan(lib, tableName, filtersStr, params).Ok?
    ensures FiltersOf(lib, filtersStr).Ok? && SortOrderOf(lib, params.order).Ok?
    ensures var plan := FilteredPlan(lib, tableName, filtersStr, params).value;
      var fs := FiltersOf(lib, filtersStr).value;
      var p := PaginationOf(params);
      && Words(plan.count.sql)
         == ["SELECT", "COUNT(*)", "as", "count", "FROM", tableName, "WHERE"] + WhereWords(fs, 1)
      && Words(plan.data.sql)
         == ["SELECT", "*", "FROM", tableName, "WHERE"] + WhereWords(fs, 1)
            + OrderByWords(params.sort, SortOrderOf(lib, params.order).value)
            + ["LIMIT", Decimal(p.pageSize), "OFFSET", Decimal(p.offset)]
  {
    FilteredPlanAccepted(lib, tableName, filtersStr, params);
    FiltersShape(lib, filtersStr);
    StatementsWords(lib, tableName, FiltersOf(lib, filtersStr).value, PaginationOf(params),
      params.sort, SortOrderOf(lib, params.order).value);
  }

  /**
   * The filter values never reach the SQL text: two chains with the same columns
   * and operators give the same two statements, each binding its own values.
   */
  lemma {:induction false} FilteredSqlIgnoresValues(lib: Library, tableName: string, s1: string, s2: string, params: QueryParams)
    requires FilteredPlan(lib, tableName, s1, params).Ok?
    requires FiltersOf(lib, s2).Ok?
    requires FiltersOf(lib, s1).Ok? && SameShape(FiltersOf(lib, s1).value, FiltersOf(lib, s2).value)
    ensures FilteredPlan(lib, tableName, s2, params).Ok?
    ensures var a := FilteredPlan(lib, tableName, s1, params).value;
      var b := FilteredPlan(lib, tableName, s2, params).value;
      && a.count.sql == b.count.sql && a.data.sql == b.data.sql
      && b.count.args == Values(FiltersOf(lib, s2).value) && b.data.args == b.count.args
  {
    FilteredPlanAccepted(lib, tableName, s1, params);
    var fs := FiltersOf(lib, s1).value;
    var gs := FiltersOf(lib, s2).value;
    assert ColumnsAreIdentifiers(lib, gs) by {
      forall i | 0 <= i < |gs| ensures IsIdentifier(lib, gs[i].column) {
        assert fs[i].column == gs[i].column;
      }
    }
    WhereIgnoresValues(fs, gs);
  }

  /**
   * The count statement does not depend on the page, the page size or the sort:
   * any parameters whose sort checks pass give the same count statement.
   */
  lemma {:induction false} CountIgnoresPaging(lib: Library, tableName: string, filtersStr: string, p1: QueryParams, p2: QueryParams)
    requires FilteredPlan(lib, tableName, filtersStr, p1).Ok?
    requires SortColumnOf(lib, p2.sort).Ok? && SortOrderOf(lib, p2.order).Ok?
    ensures FilteredPlan(lib, tableName, filtersStr, p2).Ok?
    ensures FilteredPlan(lib, tableName, filtersStr, p1).value.count
         == FilteredPlan(lib, tableName, filtersStr, p2).value.count
  {
    FilteredPlanAccepted(lib, tableName, filtersStr, p1);
  }

  /** `query_all` binds nothing and its statements hold no placeholder. */
  lemma AllPlanIsParameterised(lib: Library, tableName: string, params: QueryParams)
    requires lib.Valid()
    requires AllPlan(lib, tableName, params).Ok?
    ensures var plan := AllPlan(lib, tableName, params).value;
      && plan.count.args == [] && plan.data.args == []
      && Placeholders(plan.count.sql) == [] && Placeholders(plan.data.sql) == []
  {
    var p := PaginationOf(params);
    var order := SortOrderOf(lib, params.order).value;
    IdentifierIsSafe(lib, tableName);
    if params.sort.Some? {
      IdentifierIsSafe(lib, params.sort.value);
    }
    OrderByNoDollar(params.sort, order);
    AllPlaceholders(tableName, OrderByClause(params.sort, order), p.pageSize, p.offset);
  }

  /** The two statements of `query_all`, word by word: no WHERE at all. */
  lemma AllPlanWords(lib: Library, tableName: string, params: QueryParams)
    requires lib.Valid()
    requires AllPlan(lib, tableName, params).Ok?
    ensures SortOrderOf(lib, params.order).Ok?
    ensures var plan := AllPlan(lib, tableName, params).value;
      var p := PaginationOf(params);
      && Words(plan.count.sql) == ["SELECT", "COUNT(*)", "as", "count", "FROM", tableName]
      && Words(plan.data.sql)
         == ["SELECT", "*", "FROM", tableName]
            + OrderByWords(params.sort, SortOrderOf(lib, params.order).value)
            + ["LIMIT", Decimal(p.pageSize), "OFFSET", Decimal(p.offset)]
  {
    var p := PaginationOf(params);
    var order := SortOrderOf(lib, params.order).value;
    IdentifierIsSafe(lib, tableName);
    if params.sort.Some? {
      IdentifierIsSafe(lib, params.sort.value);
    }
    assert ' ' !in order by {
      assert order == "ASC" || order == "DESC";
    }
    CountAllWords(tableName);
    PageAllWords(tableName, params.sort, order, p.pageSize, p.offset);
  }

  // ---------------------------------------------------------------------------
  // The HTTP answer

  /**
   * What a handler answers: 200 with a `QueryResult`, 400 with the check's message,
   * or 500 with the database error. `Row` stands for one decoded row.
   */
  datatype Response<Row> =
    | Page(data: seq<Row>, count: Usize, page: Usize, pageSize: Usize, totalCount: Option<Usize>)
    | BadRequest(error: string)
    | ServerError(error: string)

  /** `count as usize`: the two's-complement bits of an `i64` read as unsigned. */
  function AsUsize(c: I64): (u: Usize)
    ensures c >= 0 ==> u == c
    ensures c < 0 ==> u == UsizeLimit + c
  {
    c % UsizeLimit
  }

  /**
   * `total_count` from the outcome of the count query: absent when the query
   * failed, 0 when its `count` column could not be read, the count otherwise.
   */
  function TotalCount(outcome: Result<Option<I64>>): (t: Option<Usize>)
    ensures t.None? <==> outcome.Err?
    ensures outcome == Ok(None) ==> t == Some(0)
    ensures outcome.Ok? && outcome.value.Some? && outcome.value.value >= 0 ==> t == Some(outcome.value.value)
  {
    match outcome
    case Err(_) => None
    case Ok(c) => Some(AsUsize(c.GetOr(0)))
  }

  /**
   * The answer of either handler, given its plan and what the database returned
   * for the count query and for the page query. A failed count query does not
   * fail the request; a failed page query does.
   */
  function Respond<Row>(plan: Result<Plan>, countOutcome: Result<Option<I64>>, rows: Result<seq<Row>>): (r: Response<Row>)
    requires rows.Ok? ==> |rows.value| < UsizeLimit
    ensures plan.Err? ==> r == BadRequest(plan.error)
    ensures plan.Ok? && rows.Err? ==> r == ServerError(DatabaseErrorPrefix + rows.error)
    ensures plan.Ok? && rows.Ok? ==>
      && r.Page? && r.data == rows.value && r.count == |rows.value|
      && r.page == plan.value.page && r.pageSize == plan.value.pageSize
      && (r.totalCount.None? <==> countOutcome.Err?)
      && r.totalCount == TotalCount(countOutcome)
  {
    match plan
    case Err(e) => BadRequest(e)
    case Ok(pl) =>
      match rows
      case Err(e) => ServerError(DatabaseErrorPrefix + e)
      case Ok(data) => Page(data, |data|, pl.page, pl.pageSize, TotalCount(countOutcome))
  }
}
