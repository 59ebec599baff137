/**
 * The SQL text the handlers build with `format!` and `join`, and how PostgreSQL reads
 * the positional parameters (`$1`, `$2`, ...) in it. Identifiers are spliced into the
 * text; filter values never are: they travel as bound parameters.
 */
module Sql {
  import opened Wrappers
  import opened Text
  import opened Filters

  /** A statement with the parameters bound to it, in bind order. */
  datatype Statement = Statement(sql: string, args: seq<string>)

  // ---------------------------------------------------------------------------
  // Building the text

  /** Condition `n` (1-based): the column and the parameter compared as text. */
  function Condition(f: Filter, n: nat): string {
    f.column + "::text " + Symbol(f.op) + " $" + Decimal(n) + "::text"
  }

  /** The conditions of `fs`, numbered from `start`. */
  function Conditions(fs: seq<Filter>, start: nat): (cs: seq<string>)
    ensures |cs| == |fs|
    ensures forall i :: 0 <= i < |fs| ==> cs[i] == Condition(fs[i], start + i)
  {
    if fs == [] then [] else [Condition(fs[0], start)] + Conditions(fs[1..], start + 1)
  }

  /** The WHERE text shared by the count and the page query. */
  function WhereClause(fs: seq<Filter>): string {
    Join(Conditions(fs, 1), " AND ")
  }

  /** ` ORDER BY col order` when a sort column is given, nothing otherwise. */
  function OrderByClause(sort: Option<string>, order: string): string {
    match sort
    case Some(col) => " ORDER BY " + col + " " + order
    case None => ""
  }

  function CountSql(table: string, where: string): string {
    "SELECT COUNT(*) as count FROM " + table + " WHERE " + where
  }

  /** ` LIMIT n OFFSET m`, the end of both page queries. */
  function LimitClause(limit: nat, offset: nat): string {
    " LIMIT " + Decimal(limit) + " OFFSET " + Decimal(offset)
  }

  function PageSql(table: string, where: string, orderBy: string, limit: nat, offset: nat): string {
    "SELECT * FROM " + table + " WHERE " + where + orderBy + LimitClause(limit, offset)
  }

  function CountAllSql(table: string): string {
    "SELECT COUNT(*) as count FROM " + table
  }

  function PageAllSql(table: string, orderBy: string, limit: nat, offset: nat): string {
    "SELECT * FROM " + table + orderBy + LimitClause(limit, offset)
  }

  // ---------------------------------------------------------------------------
  // Binding

  /** The filter values, in filter order. */
  function Values(fs: seq<Filter>): (vs: seq<string>)
    ensures |vs| == |fs|
    ensures forall i :: 0 <= i < |fs| ==> vs[i] == fs[i].value
  {
    if fs == [] then [] else [fs[0].value] + Values(fs[1..])
  }

  /** The bind loop: each filter's value is bound in turn to the statement `sql`. */
  method Bind(sql: string, filters: seq<Filter>) returns (st: Statement)
    ensures st.sql == sql
    ensures |st.args| == |filters|
    ensures forall i :: 0 <= i < |filters| ==> st.args[i] == filters[i].value
  {
    st := Statement(sql, []);
    for i := 0 to |filters|
      invariant st.sql == sql && |st.args| == i
      invariant forall j :: 0 <= j < i ==> st.args[j] == filters[j].value
    {
      st := st.(args := st.args + [filters[i].value]);
    }
  }

  // ---------------------------------------------------------------------------
  // Reading the positional parameters back

  /** The digits at the start of `s`. */
  function DigitRun(s: string): (r: string)
    ensures |r| <= |s| && r == s[..|r|] && AllDigits(r)
    ensures |r| < |s| ==> !IsDigit(s[|r|])
  {
    if s == [] || !IsDigit(s[0]) then [] else [s[0]] + DigitRun(s[1..])
  }

  /**
   * The positional parameters of `s` as PostgreSQL reads them: the digits that
   * follow each `$`, in order of appearance.
   */
  function Placeholders(s: string): seq<string> {
    if s == [] then []
    else if s[0] == '$' then [DigitRun(s[1..])] + Placeholders(s[1..])
    else Placeholders(s[1..])
  }

  /** The parameter references `$1`, ..., `$n` written as numerals. */
  function Numbered(start: nat, n: nat): (r: seq<string>)
    ensures |r| == n
    ensures forall i :: 0 <= i < n ==> r[i] == Decimal(start + i)
    decreases n
  {
    if n == 0 then [] else [Decimal(start)] + Numbered(start + 1, n - 1)
  }

  /** Text without a `$` holds no parameter reference. */
  lemma {:induction false} NoDollar(s: string)
    requires '$' !in s
    ensures Placeholders(s) == []
  {
    if s != [] {
      NoDollar(s[1..]);
    }
  }

  /** Digits after the end of a run do not join it when a non-digit follows. */
  lemma {:induction false} DigitRunAppend(a: string, b: string)
    requires b == [] || !IsDigit(b[0])
    ensures DigitRun(a + b) == DigitRun(a)
  {
    if a == [] {
      assert a + b == b;
    } else {
      assert (a + b)[1..] == a[1..] + b;
      DigitRunAppend(a[1..], b);
    }
  }

  /** `a` and `b` can be read apart: no digit run of `a` runs on into `b`. */
  predicate Separated(a: string, b: string) {
    b == [] || !IsDigit(b[0]) || '$' !in a
  }

  /** The parameters of a concatenation are those of its parts, when they read apart. */
  lemma {:induction false} PlaceholdersAppend(a: string, b: string)
    requires Separated(a, b)
    ensures Placeholders(a + b) == Placeholders(a) + Placeholders(b)
  {
    if a == [] {
      assert a + b == b;
    } else {
      assert (a + b)[1..] == a[1..] + b;
      PlaceholdersAppend(a[1..], b);
      if a[0] == '$' {
        DigitRunAppend(a[1..], b);
      }
    }
  }

  /** Condition `n` refers to parameter `n` and to nothing else. */
  lemma ConditionPlaceholders(f: Filter, n: nat)
    requires '$' !in f.column
    ensures Placeholders(Condition(f, n)) == [Decimal(n)]
  {
    var head := f.column + "::text " + Symbol(f.op) + " ";
    var tail := Decimal(n) + "::text";
    assert Condition(f, n) == head + ("$" + tail);
    NoDollar(head);
    PlaceholdersAppend(head, "$" + tail);
    assert ("$" + tail)[1..] == tail;
    NoDollar(tail);
    DigitRunAppend(Decimal(n), "::text");
    assert DigitRun(Decimal(n)) == Decimal(n);
  }

  /** Conditions joined with ` AND ` refer to their parameters in order. */
  lemma {:induction false} ConditionsPlaceholders(fs: seq<Filter>, start: nat)
    requires forall i :: 0 <= i < |fs| ==> '$' !in fs[i].column
    ensures Placeholders(Join(Conditions(fs, start), " AND ")) == Numbered(start, |fs|)
  {
    var cs := Conditions(fs, start);
    if |fs| == 1 {
      ConditionPlaceholders(fs[0], start);
    } else if |fs| > 1 {
      ConditionsPlaceholders(fs[1..], start + 1);
      ConditionPlaceholders(fs[0], start);
      var rest := Join(cs[1..], " AND ");
      assert cs[1..] == Conditions(fs[1..], start + 1);
      PlaceholdersAppend(" AND ", rest);
      NoDollar(" AND ");
      PlaceholdersAppend(cs[0], " AND " + rest);
      assert cs[0] + " AND " + rest == cs[0] + (" AND " + rest);
    }
  }

  /** The WHERE text refers to `$1`, ..., `$n` for `n` filters, in order. */
  lemma WherePlaceholders(fs: seq<Filter>)
    requires forall i :: 0 <= i < |fs| ==> '$' !in fs[i].column
    ensures Placeholders(WhereClause(fs)) == Numbered(1, |fs|)
  {
    ConditionsPlaceholders(fs, 1);
  }

  /** The count query refers to the parameters of its WHERE text and to no other. */
  lemma CountSqlPlaceholders(table: string, where: string)
    requires '$' !in table
    ensures Placeholders(CountSql(table, where)) == Placeholders(where)
  {
    var head := "SELECT COUNT(*) as count FROM " + table + " WHERE ";
    assert CountSql(table, where) == head + where;
    NoDollar(head);
    PlaceholdersAppend(head, where);
  }

  /** The part of the page query after the WHERE text: it starts with a space and has no `$`. */
  lemma PageTail(orderBy: string, limit: nat, offset: nat)
    requires '$' !in orderBy && (orderBy == [] || orderBy[0] == ' ')
    ensures var tail := orderBy + LimitClause(limit, offset);
      tail[0] == ' ' && Placeholders(tail) == []
  {
    var tail := orderBy + LimitClause(limit, offset);
    if orderBy == [] {
      assert tail == LimitClause(limit, offset);
    } else {
      assert tail[0] == orderBy[0];
    }
    DecimalNoDollar(limit);
    DecimalNoDollar(offset);
    NoDollar(tail);
  }

  /** The page query refers to the parameters of its WHERE text and to no other. */
  lemma PageSqlPlaceholders(table: string, where: string, orderBy: string, limit: nat, offset: nat)
    requires '$' !in table && '$' !in orderBy && (orderBy == [] || orderBy[0] == ' ')
    ensures Placeholders(PageSql(table, where, orderBy, limit, offset)) == Placeholders(where)
  {
    var head := "SELECT * FROM " + table + " WHERE ";
    var tail := orderBy + LimitClause(limit, offset);
    assert PageSql(table, where, orderBy, limit, offset) == head + (where + tail);
    NoDollar(head);
    PlaceholdersAppend(head, where + tail);
    PageTail(orderBy, limit, offset);
    PlaceholdersAppend(where, tail);
  }

  /** The ORDER BY text holds no `$` of its own and, when present, starts with a space. */
  lemma OrderByNoDollar(sort: Option<string>, order: string)
    requires sort.Some? ==> '$' !in sort.value
    requires '$' !in order
    ensures '$' !in OrderByClause(sort, order)
    ensures OrderByClause(sort, order) == [] || OrderByClause(sort, order)[0] == ' '
  {
    if sort.Some? {
      var head := " ORDER BY ";
      assert '$' !in head;
      assert OrderByClause(sort, order) == head + sort.value + " " + order;
    }
  }

  lemma DecimalNoDollar(n: nat)
    ensures '$' !in Decimal(n)
  {
    var d := Decimal(n);
    forall i | 0 <= i < |d| ensures d[i] != '$' {
      assert IsDigit(d[i]);
    }
  }

  /** The count query refers to `$1`, ..., `$n` for `n` filters, in order. */
  lemma CountPlaceholders(table: string, fs: seq<Filter>)
    requires '$' !in table
    requires forall i :: 0 <= i < |fs| ==> '$' !in fs[i].column
    ensures Placeholders(CountSql(table, WhereClause(fs))) == Numbered(1, |fs|)
  {
    CountSqlPlaceholders(table, WhereClause(fs));
    WherePlaceholders(fs);
  }

  /** The page query refers to the same parameters as the count query. */
  lemma PagePlaceholders(table: string, fs: seq<Filter>, orderBy: string, limit: nat, offset: nat)
    requires '$' !in table && '$' !in orderBy && (orderBy == [] || orderBy[0] == ' ')
    requires forall i :: 0 <= i < |fs| ==> '$' !in fs[i].column
    ensures Placeholders(PageSql(table, WhereClause(fs), orderBy, limit, offset)) == Numbered(1, |fs|)
  {
    PageSqlPlaceholders(table, WhereClause(fs), orderBy, limit, offset);
    WherePlaceholders(fs);
  }

  /** Without filters neither query refers to any parameter. */
  lemma AllPlaceholders(table: string, orderBy: string, limit: nat, offset: nat)
    requires '$' !in table && '$' !in orderBy
    ensures Placeholders(CountAllSql(table)) == []
    ensures Placeholders(PageAllSql(table, orderBy, limit, offset)) == []
  {
    NoDollar(CountAllSql(table));
    DecimalNoDollar(limit);
    DecimalNoDollar(offset);
    NoDollar(PageAllSql(table, orderBy, limit, offset));
  }

  /** The numerals of `Numbered` read back as `start`, `start + 1`, ... */
  lemma NumberedReadsBack(start: nat, n: nat)
    ensures forall i :: 0 <= i < n ==> ParseDecimal(Numbered(start, n)[i]) == start + i
  {
    forall i | 0 <= i < n ensures ParseDecimal(Numbered(start, n)[i]) == start + i {
      DecimalRoundTrip(start + i);
    }
  }

  // ---------------------------------------------------------------------------
  // Values stay out of the text

  /** Two filter lists that differ at most in their values. */
  predicate SameShape(fs: seq<Filter>, gs: seq<Filter>) {
    |fs| == |gs| && forall i :: 0 <= i < |fs| ==> fs[i].column == gs[i].column && fs[i].op == gs[i].op
  }

  /** The WHERE text does not depend on the filter values. */
  lemma WhereIgnoresValues(fs: seq<Filter>, gs: seq<Filter>)
    requires SameShape(fs, gs)
    ensures WhereClause(fs) == WhereClause(gs)
  {
    assert Conditions(fs, 1) == Conditions(gs, 1);
  }

  // ---------------------------------------------------------------------------
  // The words of the statements

  /** The words of `s`: its pieces between single spaces. */
  function Words(s: string): seq<string> {
    Split(s, ' ')
  }

  /** Condition `n` as words: `col::text`, the operator, `$n::text`. */
  function ConditionWords(f: Filter, n: nat): seq<string> {
    [f.column + "::text", Symbol(f.op), "$" + Decimal(n) + "::text"]
  }

  /** The conditions of `fs` as words, with `AND` between consecutive ones. */
  function WhereWords(fs: seq<Filter>, start: nat): seq<string>
    decreases |fs|
  {
    if |fs| == 0 then []
    else if |fs| == 1 then ConditionWords(fs[0], start)
    else ConditionWords(fs[0], start) + ["AND"] + WhereWords(fs[1..], start + 1)
  }

  /** `ORDER BY col order` as words when a sort column is given. */
  function OrderByWords(sort: Option<string>, order: string): seq<string> {
    match sort
    case Some(col) => ["ORDER", "BY", col, order]
    case None => []
  }

  predicate NoSpace(ws: seq<string>) {
    forall i :: 0 <= i < |ws| ==> ' ' !in ws[i]
  }

  /** Columns without a space. */
  predicate SpaceFreeColumns(fs: seq<Filter>) {
    forall i :: 0 <= i < |fs| ==> ' ' !in fs[i].column
  }

  lemma DecimalNoSpace(n: nat)
    ensures ' ' !in Decimal(n)
  {
    var d := Decimal(n);
    forall i | 0 <= i < |d| ensures d[i] != ' ' {
      assert IsDigit(d[i]);
    }
  }

  lemma JoinThree(a: string, b: string, c: string, sep: string)
    ensures Join([a, b, c], sep) == a + sep + b + sep + c
  {
    var p := [a, b, c];
    assert p[1..] == [b, c];
    assert [b, c][1..] == [c];
    assert Join([c], sep) == c;
    assert Join([b, c], sep) == b + sep + c;
    assert Join(p, sep) == a + sep + (b + sep + c);
  }

  lemma SpacedAnd(x: string, y: string)
    ensures x + " " + "AND" + " " + y == x + " AND " + y
  {
    assert " " + "AND" + " " == " AND ";
  }

  /** A condition, spaced, is its words. */
  lemma ConditionWordsJoin(f: Filter, n: nat)
    ensures Join(ConditionWords(f, n), " ") == Condition(f, n)
  {
    var cw := ConditionWords(f, n);
    JoinThree(cw[0], cw[1], cw[2], " ");
  }

  /** The conditions, spaced, are the words of the WHERE text. */
  lemma {:induction false} WhereWordsJoin(fs: seq<Filter>, start: nat)
    requires |fs| >= 1
    ensures Join(WhereWords(fs, start), " ") == Join(Conditions(fs, start), " AND ")
    ensures |WhereWords(fs, start)| >= 1
  {
    var cw := ConditionWords(fs[0], start);
    ConditionWordsJoin(fs[0], start);
    if |fs| > 1 {
      WhereWordsJoin(fs[1..], start + 1);
      var rest := WhereWords(fs[1..], start + 1);
      var cs := Conditions(fs, start);
      assert cs[1..] == Conditions(fs[1..], start + 1);
      assert Join(cs, " AND ") == cs[0] + " AND " + Join(cs[1..], " AND ");
      JoinAround(cw, "AND", rest, " ");
      SpacedAnd(Join(cw, " "), Join(rest, " "));
    }
  }

  lemma {:induction false} WhereWordsNoSpace(fs: seq<Filter>, start: nat)
    requires SpaceFreeColumns(fs)
    ensures NoSpace(WhereWords(fs, start))
  {
    if |fs| >= 1 {
      DecimalNoSpace(start);
      var cw := ConditionWords(fs[0], start);
      assert ' ' !in fs[0].column;
      assert NoSpace(cw);
      if |fs| > 1 {
        WhereWordsNoSpace(fs[1..], start + 1);
      }
    }
  }

  lemma {:induction false} WordsCons(w: string, rest: string)
    requires ' ' !in w
    ensures Words(w + " " + rest) == [w] + Words(rest)
  {
    SplitAfterFirst(w, rest, ' ');
  }

  lemma WordsOne(w: string)
    requires ' ' !in w
    ensures Words(w) == [w]
  {
    SplitNoSeparator(w, ' ');
  }

  /** Reading words off spaced words followed by more text. */
  lemma {:induction false} WordsJoinThen(ws: seq<string>, rest: string)
    requires |ws| >= 1 && NoSpace(ws)
    ensures Words(Join(ws, " ") + " " + rest) == ws + Words(rest)
  {
    if |ws| == 1 {
      WordsCons(ws[0], rest);
    } else {
      var tail := Join(ws[1..], " ");
      assert Join(ws, " ") + " " + rest == ws[0] + " " + (tail + " " + rest);
      WordsCons(ws[0], tail + " " + rest);
      WordsJoinThen(ws[1..], rest);
      assert [ws[0]] + ws[1..] == ws;
    }
  }

  /** `LIMIT n OFFSET m`, spaced. */
  function LimitText(limit: nat, offset: nat): string {
    "LIMIT" + " " + (Decimal(limit) + " " + ("OFFSET" + " " + Decimal(offset)))
  }

  /** What follows the WHERE text (or the table) in a page query, spaced. */
  function TailText(sort: Option<string>, order: string, limit: nat, offset: nat): string {
    match sort
    case Some(col) => "ORDER" + " " + ("BY" + " " + (col + " " + (order + " " + LimitText(limit, offset))))
    case None => LimitText(limit, offset)
  }

  lemma LimitWords(limit: nat, offset: nat)
    ensures Words(LimitText(limit, offset)) == ["LIMIT", Decimal(limit), "OFFSET", Decimal(offset)]
  {
    DecimalNoSpace(limit);
    DecimalNoSpace(offset);
    WordsOne(Decimal(offset));
    WordsCons("OFFSET", Decimal(offset));
    WordsCons(Decimal(limit), "OFFSET" + " " + Decimal(offset));
    WordsCons("LIMIT", Decimal(limit) + " " + ("OFFSET" + " " + Decimal(offset)));
  }

  lemma TailWords(sort: Option<string>, order: string, limit: nat, offset: nat)
    requires sort.Some? ==> ' ' !in sort.value
    requires ' ' !in order
    ensures Words(TailText(sort, order, limit, offset))
      == OrderByWords(sort, order) + ["LIMIT", Decimal(limit), "OFFSET", Decimal(offset)]
  {
    var lim := LimitText(limit, offset);
    LimitWords(limit, offset);
    if sort.Some? {
      var col := sort.value;
      WordsCons(order, lim);
      WordsCons(col, order + " " + lim);
      WordsCons("BY", col + " " + (order + " " + lim));
      WordsCons("ORDER", "BY" + " " + (col + " " + (order + " " + lim)));
    }
  }

  /**
   * The words of the count query: `SELECT COUNT(*) as count FROM table WHERE` and the
   * conditions; no `ORDER BY`, `LIMIT` or `OFFSET` clause.
   */
  lemma CountWords(table: string, fs: seq<Filter>)
    requires |fs| >= 1 && ' ' !in table && SpaceFreeColumns(fs)
    ensures Words(CountSql(table, WhereClause(fs)))
      == ["SELECT", "COUNT(*)", "as", "count", "FROM", table, "WHERE"] + WhereWords(fs, 1)
  {
    var where := WhereClause(fs);
    var ww := WhereWords(fs, 1);
    WhereWordsJoin(fs, 1);
    WhereWordsNoSpace(fs, 1);
    SplitJoin(ww, ' ');
    assert Words(where) == ww;
    CountSqlSpelled(table, where);
    KeywordsHaveNoSpace();
    WordsSeven("SELECT", "COUNT(*)", "as", "count", "FROM", table, "WHERE", where);
    PrependSeven("SELECT", "COUNT(*)", "as", "count", "FROM", table, "WHERE", ww);
  }

  /**
   * The words of the page query: `SELECT * FROM table WHERE`, the conditions,
   * `ORDER BY col order` exactly when a sort column is given, then `LIMIT n OFFSET m`.
   */
  lemma PageWords(table: string, fs: seq<Filter>, sort: Option<string>, order: string, limit: nat, offset: nat)
    requires |fs| >= 1 && ' ' !in table && SpaceFreeColumns(fs)
    requires (sort.Some? ==> ' ' !in sort.value) && ' ' !in order
    ensures Words(PageSql(table, WhereClause(fs), OrderByClause(sort, order), limit, offset))
      == ["SELECT", "*", "FROM", table, "WHERE"] + WhereWords(fs, 1) + OrderByWords(sort, order)
         + ["LIMIT", Decimal(limit), "OFFSET", Decimal(offset)]
  {
    var where := WhereClause(fs);
    var ww := WhereWords(fs, 1);
    var tail := TailText(sort, order, limit, offset);
    WhereWordsJoin(fs, 1);
    WhereWordsNoSpace(fs, 1);
    WordsJoinThen(ww, tail);
    TailWords(sort, order, limit, offset);
    PageSqlSpelled(table, where, sort, order, limit, offset);
    KeywordsHaveNoSpace();
    WordsFive("SELECT", "*", "FROM", table, "WHERE", where + " " + tail);
    PrependFive("SELECT", "*", "FROM", table, "WHERE", ww, OrderByWords(sort, order),
      ["LIMIT", Decimal(limit), "OFFSET", Decimal(offset)]);
  }

  /** The words of the count query of `query_all`: no WHERE, ORDER BY, LIMIT or OFFSET clause. */
  lemma CountAllWords(table: string)
    requires ' ' !in table
    ensures Words(CountAllSql(table)) == ["SELECT", "COUNT(*)", "as", "count", "FROM", table]
  {
    CountAllSqlSpelled(table);
    KeywordsHaveNoSpace();
    WordsOne(table);
    WordsFive("SELECT", "COUNT(*)", "as", "count", "FROM", table);
  }

  /**
   * The words of the page query of `query_all`: `SELECT * FROM table`, `ORDER BY col order`
   * exactly when a sort column is given, then `LIMIT n OFFSET m`; no WHERE clause.
   */
  lemma PageAllWords(table: string, sort: Option<string>, order: string, limit: nat, offset: nat)
    requires ' ' !in table && (sort.Some? ==> ' ' !in sort.value) && ' ' !in order
    ensures Words(PageAllSql(table, OrderByClause(sort, order), limit, offset))
      == ["SELECT", "*", "FROM", table] + OrderByWords(sort, order)
         + ["LIMIT", Decimal(limit), "OFFSET", Decimal(offset)]
  {
    var tail := TailText(sort, order, limit, offset);
    PageAllSqlSpelled(table, sort, order, limit, offset);
    TailWords(sort, order, limit, offset);
    KeywordsHaveNoSpace();
    WordsFour("SELECT", "*", "FROM", table, tail);
  }

  // ---------------------------------------------------------------------------
  // Proof helpers: the statements spelled out as words and single spaces, and
  // regroupings of concatenations that hold for any strings. They only keep the
  // proofs above small.

  /** The fixed beginnings of the statements, as words and single spaces. */
  lemma SelectFragments()
    ensures "SELECT COUNT(*) as count FROM "
      == "SELECT" + " " + "COUNT(*)" + " " + "as" + " " + "count" + " " + "FROM" + " "
    ensures "SELECT * FROM " == "SELECT" + " " + "*" + " " + "FROM" + " "
  {
  }

  /** The fixed clause keywords of the statements, as words and single spaces. */
  lemma ClauseFragments()
    ensures " WHERE " == " " + "WHERE" + " "
    ensures " ORDER BY " == " " + "ORDER" + " " + "BY" + " "
    ensures " LIMIT " == " " + "LIMIT" + " "
    ensures " OFFSET " == " " + "OFFSET" + " "
  {
  }

  lemma LimitSpelled(limit: nat, offset: nat)
    ensures LimitClause(limit, offset) == " " + LimitText(limit, offset)
  {
    ClauseFragments();
    NestTwo(" LIMIT ", " OFFSET ", "LIMIT", "OFFSET", Decimal(limit), Decimal(offset), " ");
  }

  lemma TailSpelled(sort: Option<string>, order: string, limit: nat, offset: nat)
    ensures OrderByClause(sort, order) + LimitClause(limit, offset) == " " + TailText(sort, order, limit, offset)
  {
    LimitSpelled(limit, offset);
    if sort.Some? {
      ClauseFragments();
      NestOrderBy(" ORDER BY ", sort.value, order, LimitText(limit, offset), " ");
    }
  }

  /** The page query, word by word. */
  lemma PageSqlSpelled(table: string, where: string, sort: Option<string>, order: string, limit: nat, offset: nat)
    ensures PageSql(table, where, OrderByClause(sort, order), limit, offset)
      == "SELECT" + " " + ("*" + " " + ("FROM" + " " + (table + " " + ("WHERE" + " "
         + (where + " " + TailText(sort, order, limit, offset))))))
  {
    TailSpelled(sort, order, limit, offset);
    SelectFragments();
    ClauseFragments();
    NestPage("SELECT * FROM ", " WHERE ", table, where, OrderByClause(sort, order),
      LimitClause(limit, offset), TailText(sort, order, limit, offset), " ");
  }

  /** The count query, word by word. */
  lemma CountSqlSpelled(table: string, where: string)
    ensures CountSql(table, where)
      == "SELECT" + " " + ("COUNT(*)" + " " + ("as" + " " + ("count" + " " + ("FROM" + " "
         + (table + " " + ("WHERE" + " " + where))))))
  {
    SelectFragments();
    ClauseFragments();
    NestCount("SELECT COUNT(*) as count FROM ", " WHERE ", "SELECT", "COUNT(*)", "as", "count",
      "FROM", "WHERE", table, where, " ");
  }

  lemma NestTwo(p: string, q: string, a: string, b: string, x: string, y: string, sp: string)
    requires p == sp + a + sp && q == sp + b + sp
    ensures p + x + q + y == sp + (a + sp + (x + sp + (b + sp + y)))
  {
  }

  lemma NestOrderBy(p: string, col: string, order: string, rest: string, sp: string)
    requires p == sp + "ORDER" + sp + "BY" + sp
    ensures p + col + sp + order + (sp + rest) == sp + ("ORDER" + sp + ("BY" + sp + (col + sp + (order + sp + rest))))
  {
  }

  lemma NestPage(p: string, q: string, table: string, where: string, orderBy: string, limit: string,
                 tail: string, sp: string)
    requires p == "SELECT" + sp + "*" + sp + "FROM" + sp && q == sp + "WHERE" + sp
    requires orderBy + limit == sp + tail
    ensures p + table + q + where + orderBy + limit
      == "SELECT" + sp + ("*" + sp + ("FROM" + sp + (table + sp + ("WHERE" + sp + (where + sp + tail)))))
  {
    assert p + table + q + where + orderBy + limit == p + table + q + where + (orderBy + limit);
  }

  lemma NestCount(p: string, q: string, a: string, b: string, c: string, d: string, e: string, g: string,
                  table: string, where: string, sp: string)
    requires p == a + sp + b + sp + c + sp + d + sp + e + sp && q == sp + g + sp
    ensures p + table + q + where
      == a + sp + (b + sp + (c + sp + (d + sp + (e + sp + (table + sp + (g + sp + where))))))
  {
  }

  lemma KeywordsHaveNoSpace()
    ensures ' ' !in "SELECT" && ' ' !in "COUNT(*)" && ' ' !in "as" && ' ' !in "count"
    ensures ' ' !in "FROM" && ' ' !in "WHERE" && ' ' !in "*"
  {
  }

  /** Seven space-free words, then more text. */
  lemma WordsSeven(a: string, b: string, c: string, d: string, e: string, f: string, g: string, rest: string)
    requires ' ' !in a && ' ' !in b && ' ' !in c && ' ' !in d && ' ' !in e && ' ' !in f && ' ' !in g
    ensures Words(a + " " + (b + " " + (c + " " + (d + " " + (e + " " + (f + " " + (g + " " + rest)))))))
      == [a] + ([b] + ([c] + ([d] + ([e] + ([f] + ([g] + Words(rest)))))))
  {
    WordsFive(c, d, e, f, g, rest);
    WordsCons(b, c + " " + (d + " " + (e + " " + (f + " " + (g + " " + rest)))));
    WordsCons(a, b + " " + (c + " " + (d + " " + (e + " " + (f + " " + (g + " " + rest))))));
  }

  /** Five space-free words, then more text. */
  lemma WordsFive(a: string, b: string, c: string, d: string, e: string, rest: string)
    requires ' ' !in a && ' ' !in b && ' ' !in c && ' ' !in d && ' ' !in e
    ensures Words(a + " " + (b + " " + (c + " " + (d + " " + (e + " " + rest)))))
      == [a] + ([b] + ([c] + ([d] + ([e] + Words(rest)))))
  {
    WordsCons(e, rest);
    WordsCons(d, e + " " + rest);
    WordsCons(c, d + " " + (e + " " + rest));
    WordsCons(b, c + " " + (d + " " + (e + " " + rest)));
    WordsCons(a, b + " " + (c + " " + (d + " " + (e + " " + rest))));
  }

  lemma PrependSeven<T>(a: T, b: T, c: T, d: T, e: T, f: T, g: T, ws: seq<T>)
    ensures [a] + ([b] + ([c] + ([d] + ([e] + ([f] + ([g] + ws)))))) == [a, b, c, d, e, f, g] + ws
  {
  }

  lemma PrependFive<T>(a: T, b: T, c: T, d: T, e: T, ws: seq<T>, xs: seq<T>, ys: seq<T>)
    ensures [a] + ([b] + ([c] + ([d] + ([e] + (ws + (xs + ys)))))) == [a, b, c, d, e] + ws + xs + ys
  {
  }

  /** The count query of `query_all`, word by word. */
  lemma CountAllSqlSpelled(table: string)
    ensures CountAllSql(table)
      == "SELECT" + " " + ("COUNT(*)" + " " + ("as" + " " + ("count" + " " + ("FROM" + " " + table))))
  {
    SelectFragments();
    NestCountAll("SELECT COUNT(*) as count FROM ", "SELECT", "COUNT(*)", "as", "count", "FROM", table, " ");
  }

  /** The page query of `query_all`, word by word. */
  lemma PageAllSqlSpelled(table: string, sort: Option<string>, order: string, limit: nat, offset: nat)
    ensures PageAllSql(table, OrderByClause(sort, order), limit, offset)
      == "SELECT" + " " + ("*" + " " + ("FROM" + " " + (table + " " + TailText(sort, order, limit, offset))))
  {
    TailSpelled(sort, order, limit, offset);
    SelectFragments();
    NestPageAll("SELECT * FROM ", table, OrderByClause(sort, order), LimitClause(limit, offset),
      TailText(sort, order, limit, offset), " ");
  }

  lemma NestCountAll(p: string, a: string, b: string, c: string, d: string, e: string, table: string, sp: string)
    requires p == a + sp + b + sp + c + sp + d + sp + e + sp
    ensures p + table == a + sp + (b + sp + (c + sp + (d + sp + (e + sp + table))))
  {
  }

  lemma NestPageAll(p: string, table: string, orderBy: string, limit: string, tail: string, sp: string)
    requires p == "SELECT" + sp + "*" + sp + "FROM" + sp
    requires orderBy + limit == sp + tail
    ensures p + table + orderBy + limit == "SELECT" + sp + ("*" + sp + ("FROM" + sp + (table + sp + tail)))
  {
    assert p + table + orderBy + limit == p + table + (orderBy + limit);
  }

  /** Four space-free words, then more text. */
  lemma WordsFour(a: string, b: string, c: string, d: string, rest: string)
    requires ' ' !in a && ' ' !in b && ' ' !in c && ' ' !in d
    ensures Words(a + " " + (b + " " + (c + " " + (d + " " + rest))))
      == [a, b, c, d] + Words(rest)
  {
    WordsCons(d, rest);
    WordsCons(c, d + " " + rest);
    WordsCons(b, c + " " + (d + " " + rest));
    WordsCons(a, b + " " + (c + " " + (d + " " + rest)));
  }
}
