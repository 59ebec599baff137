/**
 * The filter parser of the `/{table}/{filter}` route (`parse_filter` and
 * `parse_multiple_filters`): a path fragment such as `debt_amount>20000&loan_status=active`
 * becomes an ordered list of (column, operator, value) triples.
 */
module Filters {
  import opened Wrappers
  import opened Text

  /** The six comparison operators. */
  datatype Op = Ge | Le | Ne | Eq | Gt | Lt

  function Symbol(op: Op): (sym: string)
    ensures 1 <= |sym| <= 2
  {
    match op
    case Ge => ">="
    case Le => "<="
    case Ne => "!="
    case Eq => "="
    case Gt => ">"
    case Lt => "<"
  }

  /** The order in which `parse_filter` tries the operators: two-character ones first. */
  const Operators: seq<Op> := [Ge, Le, Ne, Eq, Gt, Lt]

  /** One parsed clause; `value` is kept as text and only ever bound as a parameter. */
  datatype Filter = Filter(column: string, op: Op, value: string)

  const DecodeError := "Failed to decode URL"
  const FormatError := "Invalid filter format"
  const NoOperatorError := "No valid operator found"

  // ---------------------------------------------------------------------------
  // One clause

  /** The split of a decoded clause around an occurrence of `op` at `pos`. */
  function SplitAt(d: string, op: Op, pos: nat): (r: Result<Filter>)
    requires pos + |Symbol(op)| <= |d|
    ensures r.Ok? <==> Trim(d[..pos]) != [] && Trim(d[pos + |Symbol(op)|..]) != []
    ensures r.Ok? ==> r.value.op == op
    ensures r.Ok? ==> r.value.column == Trim(d[..pos]) && r.value.value == Trim(d[pos + |Symbol(op)|..])
    ensures r.Err? ==> r.error == FormatError
  {
    var column := Trim(d[..pos]);
    var value := Trim(d[pos + |Symbol(op)|..]);
    if column == [] || value == [] then Err(FormatError)
    else Ok(Filter(column, op, value))
  }

  /** The position in `ops` of the first operator that occurs anywhere in `d` (`|ops|` if none does). */
  function FirstOccurring(d: string, ops: seq<Op>): (k: nat)
    ensures k <= |ops|
    ensures forall j :: 0 <= j < k ==> Find(d, Symbol(ops[j])).None?
    ensures k < |ops| ==> Find(d, Symbol(ops[k])).Some?
  {
    if ops == [] || Find(d, Symbol(ops[0])).Some? then 0
    else 1 + FirstOccurring(d, ops[1..])
  }

  /** The loop of `parse_filter` over the operators of `ops`, on the decoded clause `d`. */
  function SplitClause(d: string, ops: seq<Op>): (r: Result<Filter>)
    ensures var k := FirstOccurring(d, ops);
      if k == |ops| then r == Err(NoOperatorError)
      else r == SplitAt(d, ops[k], Find(d, Symbol(ops[k])).value)
  {
    if ops == [] then Err(NoOperatorError)
    else match Find(d, Symbol(ops[0]))
      case Some(pos) => SplitAt(d, ops[0], pos)
      case None => SplitClause(d, ops[1..])
  }

  /** What `parse_filter` returns for the raw clause `s`. */
  function FilterOf(lib: Library, s: string): Result<Filter> {
    match lib.decode(s)
    case None => Err(DecodeError)
    case Some(d) => SplitClause(d, Operators)
  }

  /** `parse_filter`: decode the clause, then try the operators in priority order. */
  method ParseFilter(lib: Library, filterStr: string) returns (r: Result<Filter>)
    ensures r == FilterOf(lib, filterStr)
  {
    var decoded := lib.decode(filterStr);
    if decoded.None? {
      return Err(DecodeError);
    }
    var d := decoded.value;
    for i := 0 to |Operators|
      invariant SplitClause(d, Operators[i..]) == SplitClause(d, Operators)
    {
      var op := Operators[i];
      assert Operators[i..][0] == op && Operators[i..][1..] == Operators[i + 1..];
      var pos := Find(d, Symbol(op));
      if pos.Some? {
        var column := Trim(d[..pos.value]);
        var value := Trim(d[pos.value + |Symbol(op)|..]);
        if column == [] || value == [] {
          return Err(FormatError);
        }
        return Ok(Filter(column, op, value));
      }
    }
    r := Err(NoOperatorError);
  }

  /**
   * Operator priority: the operator chosen is the first of `>=, <=, !=, =, >, <` that
   * occurs anywhere in the decoded clause, and the clause is split at that
   * operator's first occurrence into a trimmed column and a trimmed value.
   */
  lemma OperatorPriority(lib: Library, s: string)
    requires lib.decode(s).Some?
    ensures var d := lib.decode(s).value;
      var k := FirstOccurring(d, Operators);
      && (k == |Operators| <==> forall op :: Find(d, Symbol(op)).None?)
      && (k == |Operators| ==> FilterOf(lib, s) == Err(NoOperatorError))
      && (k < |Operators| ==>
            var pos := Find(d, Symbol(Operators[k])).value;
            var n := |Symbol(Operators[k])|;
            FilterOf(lib, s) ==
              if Trim(d[..pos]) == [] || Trim(d[pos + n..]) == [] then Err(FormatError)
              else Ok(Filter(Trim(d[..pos]), Operators[k], Trim(d[pos + n..]))))
  {
    var d := lib.decode(s).value;
    NoOperatorOccurs(d);
    if FirstOccurring(d, Operators) < |Operators| {
      ChosenSplit(lib, s);
    }
  }

  /** The split at the chosen operator's first occurrence. */
  lemma ChosenSplit(lib: Library, s: string)
    requires lib.decode(s).Some?
    requires FirstOccurring(lib.decode(s).value, Operators) < |Operators|
    ensures var d := lib.decode(s).value;
      var op := Operators[FirstOccurring(d, Operators)];
      var pos := Find(d, Symbol(op)).value;
      FilterOf(lib, s) ==
        if Trim(d[..pos]) == [] || Trim(d[pos + |Symbol(op)|..]) == [] then Err(FormatError)
        else Ok(Filter(Trim(d[..pos]), op, Trim(d[pos + |Symbol(op)|..])))
  {
    var d := lib.decode(s).value;
    var op := Operators[FirstOccurring(d, Operators)];
    SplitClauseChosen(d);
  }

  lemma SplitClauseChosen(d: string)
    requires FirstOccurring(d, Operators) < |Operators|
    ensures var op := Operators[FirstOccurring(d, Operators)];
      SplitClause(d, Operators) == SplitAt(d, op, Find(d, Symbol(op)).value)
  {
  }

  /** No operator is chosen exactly when none of the six occurs. */
  lemma NoOperatorOccurs(d: string)
    ensures FirstOccurring(d, Operators) == |Operators| <==> forall op :: Find(d, Symbol(op)).None?
  {
    if FirstOccurring(d, Operators) == |Operators| {
      forall op ensures Find(d, Symbol(op)).None? {
        assert op == Operators[OperatorRank(op)];
      }
    }
  }

  /** The position of `op` in `Operators`. */
  function OperatorRank(op: Op): (k: nat)
    ensures k < |Operators| && Operators[k] == op
  {
    match op
    case Ge => 0
    case Le => 1
    case Ne => 2
    case Eq => 3
    case Gt => 4
    case Lt => 5
  }

  /**
   * The shape of a parsed clause: on success the column and the value are
   * non-empty and trimmed; otherwise the error is one of the three messages of
   * `parse_filter`, and "No valid operator found" exactly when no operator occurs.
   */
  lemma FilterShape(lib: Library, s: string)
    ensures var r := FilterOf(lib, s);
      && (r.Ok? ==> r.value.column != [] && r.value.value != []
                    && Trimmed(r.value.column) && Trimmed(r.value.value))
      && (r.Err? ==> r.error in {DecodeError, FormatError, NoOperatorError})
      && (r == Err(NoOperatorError) <==>
            lib.decode(s).Some? && forall op :: Find(lib.decode(s).value, Symbol(op)).None?)
  {
    if lib.decode(s).Some? {
      OperatorPriority(lib, s);
    }
  }

  // ---------------------------------------------------------------------------
  // Rendering a clause and parsing it back

  /** The clause text `column op value`, as a client writes it. */
  function Render(f: Filter): string {
    f.column + Symbol(f.op) + f.value
  }

  /** The characters that form the operators. */
  predicate IsOperatorChar(c: char) {
    c in "<>=!"
  }

  /**
   * The characters a value written after `op` must avoid so that no operator that
   * outranks `op` appears in the clause.
   */
  function OutrankingChars(op: Op): string {
    match op
    case Ge => ""
    case Le => ">"
    case Ne => "<>"
    case Eq => "<>!"
    case Gt => "="
    case Lt => "=>"
  }

  /** Text that decoding leaves alone and that cannot split a chain of clauses. */
  predicate IsPlain(s: string) {
    '%' !in s && '+' !in s && '&' !in s
  }

  /** A clause whose rendering parses back to itself. */
  predicate Renderable(f: Filter) {
    && f.column != [] && Trimmed(f.column) && IsPlain(f.column)
    && (forall i :: 0 <= i < |f.column| ==> !IsOperatorChar(f.column[i]))
    && f.value != [] && Trimmed(f.value) && IsPlain(f.value)
    && (forall c :: c in OutrankingChars(f.op) ==> c !in f.value)
  }

  /** A character that would form an outranking operator does not occur in the rendering. */
  lemma OutrankingAbsent(f: Filter, ch: char)
    requires Renderable(f) && ch in OutrankingChars(f.op)
    ensures ch !in Render(f)
  {
    assert IsOperatorChar(ch) && ch !in Symbol(f.op);
    forall i | 0 <= i < |f.column| ensures f.column[i] != ch {
      assert !IsOperatorChar(f.column[i]);
    }
  }

  /** No operator that outranks the written one occurs in the rendering. */
  lemma OutrankedNotFound(f: Filter)
    requires Renderable(f)
    ensures forall j :: 0 <= j < OperatorRank(f.op) ==> Find(Render(f), Symbol(Operators[j])).None?
  {
    forall j | 0 <= j < OperatorRank(f.op) ensures Find(Render(f), Symbol(Operators[j])).None? {
      OutrankingOperatorNotFound(f, Operators[j]);
    }
  }

  /**
   * An operator tried before the written one has a character the rendering lacks:
   * `=` when the written operator is `>` or `<` (and the earlier one is not `>`),
   * otherwise its first character.
   */
  lemma OutrankingOperatorNotFound(f: Filter, op: Op)
    requires Renderable(f) && OperatorRank(op) < OperatorRank(f.op)
    ensures Find(Render(f), Symbol(op)).None?
  {
    var sym := Symbol(op);
    if (f.op == Gt || f.op == Lt) && op != Gt {
      OutrankingAbsent(f, '=');
      NotFound(Render(f), sym, |sym| - 1);
    } else {
      OutrankingAbsent(f, sym[0]);
      NotFound(Render(f), sym, 0);
    }
  }

  /** The written operator is first found right after the column. */
  lemma {:induction false} WrittenOperatorFound(f: Filter)
    requires Renderable(f)
    ensures Find(Render(f), Symbol(f.op)) == Some(|f.column|)
  {
    var d, c, sym := Render(f), f.column, Symbol(f.op);
    assert d[|c|..|c| + |sym|] == sym;
    assert IsOperatorChar(sym[0]);
    forall j | 0 <= j < |c| ensures d[j] != sym[0] {
      assert d[j] == c[j];
    }
    FoundAt(d, sym, |c|);
  }

  /** A clause written with plain text is plain. */
  lemma RenderPlain(f: Filter)
    requires IsPlain(f.column) && IsPlain(f.value)
    ensures IsPlain(Render(f))
  {
    assert Render(f) == f.column + Symbol(f.op) + f.value;
  }

  /** Splitting a rendered clause at the end of its column gives back the clause. */
  lemma SplitAtRender(f: Filter)
    requires Renderable(f)
    ensures SplitAt(Render(f), f.op, |f.column|) == Ok(f)
  {
    var d, c, sym, v := Render(f), f.column, Symbol(f.op), f.value;
    assert d[..|c|] == c && d[|c| + |sym|..] == v;
    TrimOfTrimmed(c);
    TrimOfTrimmed(v);
  }

  /** `SplitClause` picks the first operator of `ops` that occurs, at its first occurrence. */
  lemma SplitClauseChooses(d: string, ops: seq<Op>, k: nat, pos: nat)
    requires k < |ops|
    requires forall j :: 0 <= j < k ==> Find(d, Symbol(ops[j])).None?
    requires Find(d, Symbol(ops[k])) == Some(pos)
    ensures SplitClause(d, ops) == SplitAt(d, ops[k], pos)
  {
    var k' := FirstOccurring(d, ops);
    assert k' == k;
  }

  /**
   * Parsing a rendered clause gives back the clause: the operator written is the one
   * found, the split falls right at it, and trimming changes nothing.
   */
  lemma {:induction false} RenderRoundTrip(lib: Library, f: Filter)
    requires lib.Valid() && Renderable(f)
    ensures FilterOf(lib, Render(f)) == Ok(f)
  {
    var d := Render(f);
    RenderPlain(f);
    assert lib.decode(d) == Some(d);
    OutrankedNotFound(f);
    WrittenOperatorFound(f);
    SplitClauseChooses(d, Operators, OperatorRank(f.op), |f.column|);
    SplitAtRender(f);
  }

  lemma TrimOfTrimmed(s: string)
    requires Trimmed(s)
    ensures Trim(s) == s
  {
    if s != [] {
      assert LeadingWhitespace(s) == 0;
      assert TrailingWhitespace(s) == 0;
    }
  }

  // ---------------------------------------------------------------------------
  // A chain of clauses

  /** The clauses of `rs` in order, or the error of the first that failed. */
  function Collect(rs: seq<Result<Filter>>): (r: Result<seq<Filter>>)
    ensures r.Ok? <==> forall i :: 0 <= i < |rs| ==> rs[i].Ok?
    ensures r.Ok? ==> |r.value| == |rs| && forall i :: 0 <= i < |rs| ==> rs[i] == Ok(r.value[i])
  {
    if rs == [] then Ok([])
    else
      var rest := rs[1..];
      assert forall i :: 0 < i < |rs| ==> rs[i] == rest[i - 1];
      match rs[0]
      case Err(e) => Err(e)
      case Ok(f) =>
        match Collect(rest)
        case Err(e) => Err(e)
        case Ok(fs) =>
          var all := [f] + fs;
          assert forall i :: 0 < i < |rs| ==> all[i] == fs[i - 1];
          Ok(all)
  }

  /** A failure gives the error of the first failing clause. */
  lemma {:induction false} CollectFirstFailure(rs: seq<Result<Filter>>, i: nat)
    requires i < |rs| && rs[i].Err?
    requires forall j :: 0 <= j < i ==> rs[j].Ok?
    ensures Collect(rs) == Err(rs[i].error)
  {
    if i > 0 {
      var rest := rs[1..];
      assert rest[i - 1] == rs[i];
      forall j | 0 <= j < i - 1 ensures rest[j].Ok? {
        assert rest[j] == rs[j + 1];
      }
      CollectFirstFailure(rest, i - 1);
      assert rs[0].Ok?;
    }
  }

  /** Each piece of `parts` parsed on its own. */
  function ParseEach(lib: Library, parts: seq<string>): (rs: seq<Result<Filter>>)
    ensures |rs| == |parts|
  {
    if parts == [] then [] else [FilterOf(lib, parts[0])] + ParseEach(lib, parts[1..])
  }

  lemma {:induction false} ParseEachAt(lib: Library, parts: seq<string>, i: nat)
    requires i < |parts|
    ensures ParseEach(lib, parts)[i] == FilterOf(lib, parts[i])
  {
    if i > 0 {
      ParseEachAt(lib, parts[1..], i - 1);
    }
  }

  /** The clauses of `parts` parsed in order, stopping at the first failure. */
  function FiltersFrom(lib: Library, parts: seq<string>): (r: Result<seq<Filter>>)
    ensures r.Ok? <==> forall i :: 0 <= i < |parts| ==> FilterOf(lib, parts[i]).Ok?
    ensures r.Ok? ==> |r.value| == |parts|
    ensures r.Ok? ==> forall i :: 0 <= i < |parts| ==> FilterOf(lib, parts[i]) == Ok(r.value[i])
  {
    var rs := ParseEach(lib, parts);
    forall i | 0 <= i < |parts| ensures rs[i] == FilterOf(lib, parts[i]) {
      ParseEachAt(lib, parts, i);
    }
    Collect(rs)
  }

  /** What `parse_multiple_filters` returns: decode once, split on `&`, parse each piece. */
  function FiltersOf(lib: Library, s: string): Result<seq<Filter>> {
    match lib.decode(s)
    case None => Err(DecodeError)
    case Some(d) => FiltersFrom(lib, Split(d, '&'))
  }

  /** `parse_multiple_filters`, pushing each parsed clause in turn. */
  method ParseMultipleFilters(lib: Library, filtersStr: string) returns (r: Result<seq<Filter>>)
    ensures r == FiltersOf(lib, filtersStr)
  {
    var decoded := lib.decode(filtersStr);
    if decoded.None? {
      return Err(DecodeError);
    }
    var parts := Split(decoded.value, '&');
    ghost var parsed := ParseEach(lib, parts);
    assert FiltersOf(lib, filtersStr) == Collect(parsed);
    var conditions: seq<Filter> := [];
    for i := 0 to |parts|
      invariant |conditions| == i
      invariant forall j :: 0 <= j < i ==> parsed[j] == Ok(conditions[j])
    {
      var filter := ParseFilter(lib, parts[i]);
      ParseEachAt(lib, parts, i);
      if filter.Err? {
        CollectFirstFailure(parsed, i);
        return Err(filter.error);
      }
      CollectedOneMore(parsed, conditions, filter.value);
      conditions := conditions + [filter.value];
    }
    CollectEach(parsed, conditions);
    r := Ok(conditions);
  }

  /** The whole chain fails with the error of its first failing clause. */
  lemma FirstFailure(lib: Library, parts: seq<string>, i: nat)
    requires i < |parts| && FilterOf(lib, parts[i]).Err?
    requires forall j :: 0 <= j < i ==> FilterOf(lib, parts[j]).Ok?
    ensures FiltersFrom(lib, parts) == Err(FilterOf(lib, parts[i]).error)
  {
    forall j | 0 <= j <= i ensures ParseEach(lib, parts)[j] == FilterOf(lib, parts[j]) {
      ParseEachAt(lib, parts, j);
    }
    CollectFirstFailure(ParseEach(lib, parts), i);
  }

  /**
   * On success there is exactly one filter per `&`-separated piece of the decoded
   * fragment, in the same order, so the list is never empty; `%26` in the raw
   * fragment is decoded before the split and therefore separates clauses too.
   */
  lemma FiltersShape(lib: Library, s: string)
    requires FiltersOf(lib, s).Ok?
    ensures lib.decode(s).Some?
    ensures var parts := Split(lib.decode(s).value, '&');
      && |FiltersOf(lib, s).value| == |parts| >= 1
      && forall i :: 0 <= i < |parts| ==> FilterOf(lib, parts[i]) == Ok(FiltersOf(lib, s).value[i])
  {
  }

  /** The clause texts of `fs`, in order. */
  function Rendered(fs: seq<Filter>): (parts: seq<string>)
    ensures |parts| == |fs|
    ensures forall i :: 0 <= i < |fs| ==> parts[i] == Render(fs[i])
  {
    if fs == [] then [] else [Render(fs[0])] + Rendered(fs[1..])
  }

  /** The chain text `f1&f2&...` of rendered clauses. */
  function RenderAll(fs: seq<Filter>): string {
    Join(Rendered(fs), "&")
  }

  /** Pieces that each parse to the matching clause parse together to all of them. */
  lemma {:induction false} FiltersFromEach(lib: Library, parts: seq<string>, fs: seq<Filter>)
    requires |parts| == |fs|
    requires forall i :: 0 <= i < |parts| ==> FilterOf(lib, parts[i]) == Ok(fs[i])
    ensures FiltersFrom(lib, parts) == Ok(fs)
  {
    forall i | 0 <= i < |parts| ensures ParseEach(lib, parts)[i] == Ok(fs[i]) {
      ParseEachAt(lib, parts, i);
    }
    CollectEach(ParseEach(lib, parts), fs);
  }

  /** One more parsed clause extends the prefix of clauses collected so far. */
  lemma CollectedOneMore(rs: seq<Result<Filter>>, fs: seq<Filter>, f: Filter)
    requires |fs| < |rs| && rs[|fs|] == Ok(f)
    requires forall j :: 0 <= j < |fs| ==> rs[j] == Ok(fs[j])
    ensures forall j :: 0 <= j < |fs| + 1 ==> rs[j] == Ok((fs + [f])[j])
  {
  }

  /** Clauses that all parsed collect to exactly those clauses. */
  lemma CollectEach(rs: seq<Result<Filter>>, fs: seq<Filter>)
    requires |rs| == |fs|
    requires forall i :: 0 <= i < |rs| ==> rs[i] == Ok(fs[i])
    ensures Collect(rs) == Ok(fs)
  {
    var r := Collect(rs);
    assert r.Ok?;
    forall i | 0 <= i < |fs| ensures r.value[i] == fs[i] {
      assert rs[i] == Ok(r.value[i]);
    }
    assert r.value == fs;
  }

  /**
   * Parsing a rendered chain gives back the clauses in order: the inverse of
   * `parse_multiple_filters` on well-formed input.
   */
  lemma {:induction false} RenderAllRoundTrip(lib: Library, fs: seq<Filter>)
    requires lib.Valid()
    requires |fs| >= 1 && forall i :: 0 <= i < |fs| ==> Renderable(fs[i])
    ensures FiltersOf(lib, RenderAll(fs)) == Ok(fs)
  {
    var parts := Rendered(fs);
    RenderedPlain(fs);
    JoinPlain(parts, "&");
    SplitJoin(parts, '&');
    RenderedChain(lib, fs);
  }

  lemma RenderedPlain(fs: seq<Filter>)
    requires forall i :: 0 <= i < |fs| ==> Renderable(fs[i])
    ensures forall i :: 0 <= i < |fs| ==> IsPlain(Rendered(fs)[i])
  {
    forall i | 0 <= i < |fs| ensures IsPlain(Rendered(fs)[i]) {
      RenderPlain(fs[i]);
    }
  }

  /** Each rendered clause parses back, so the rendered pieces parse to the whole list. */
  lemma RenderedChain(lib: Library, fs: seq<Filter>)
    requires lib.Valid()
    requires forall i :: 0 <= i < |fs| ==> Renderable(fs[i])
    ensures FiltersFrom(lib, Rendered(fs)) == Ok(fs)
  {
    var parts := Rendered(fs);
    forall i | 0 <= i < |fs| ensures FilterOf(lib, parts[i]) == Ok(fs[i]) {
      RenderRoundTrip(lib, fs[i]);
    }
    FiltersFromEach(lib, parts, fs);
  }

  lemma {:induction false} JoinPlain(parts: seq<string>, sep: string)
    requires forall i :: 0 <= i < |parts| ==> IsPlain(parts[i])
    requires '%' !in sep && '+' !in sep
    ensures '%' !in Join(parts, sep) && '+' !in Join(parts, sep)
  {
    if |parts| > 1 {
      JoinPlain(parts[1..], sep);
      assert IsPlain(parts[0]);
    }
  }

  /** `id>=3` is a greater-or-equal clause, never `>` with the value `=3`. */
  lemma GreaterOrEqualExample(lib: Library)
    requires lib.Valid()
    ensures FilterOf(lib, Render(Filter("id", Ge, "3"))) == Ok(Filter("id", Ge, "3"))
  {
    RenderRoundTrip(lib, Filter("id", Ge, "3"));
  }

  /** In `a=b=c` the value keeps the second `=`. */
  lemma RepeatedOperatorExample(lib: Library)
    requires lib.Valid()
    ensures FilterOf(lib, Render(Filter("a", Eq, "b=c"))) == Ok(Filter("a", Eq, "b=c"))
  {
    RenderRoundTrip(lib, Filter("a", Eq, "b=c"));
  }
}
