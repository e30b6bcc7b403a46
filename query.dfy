/**
 * The SQL-fragment builder of share/query/convert.go: from list options (filters, sorts,
 * field selections, pagination) it extends a base query with a WHERE clause, an ORDER BY
 * clause, an explicit column list in place of `SELECT *`, and LIMIT/OFFSET placeholders,
 * collecting the values that go with the `?` placeholders.
 *
 * Each step has a specification function (Where, OrderBy, StarReplaced, Limits,
 * LimitOffset) and, where the source loops, a method with the source's loop proved to
 * compute it. The lemmas at the end state what the builder promises.
 */
module Query {
  import opened Wrappers
  import opened Text

  /** A value bound to a `?` placeholder; filter values and pagination bounds are strings. */
  type Param = string

  /**
   * One filter: a column, the SQL code of its operator (what Operator.Code() returns),
   * the values to compare against, and whether it is a limit filter (IsLimitFilter).
   */
  datatype FilterOption = FilterOption(column: string, operator: string, values: seq<string>, isLimit: bool)

  datatype SortOption = SortOption(column: string, isASC: bool)

  /** The fields requested for one resource. */
  datatype FieldsOption = FieldsOption(resource: string, fields: seq<string>)

  datatype Pagination = Pagination(limit: string, offset: string)

  datatype ListOptions = ListOptions(
    filters: seq<FilterOption>,
    sorts: seq<SortOption>,
    fields: seq<FieldsOption>,
    pagination: Option<Pagination>)

  datatype RetrieveOptions = RetrieveOptions(fields: seq<FieldsOption>)

  function Last<T>(s: seq<T>): T
    requires |s| > 0
  {
    s[|s| - 1]
  }

  function DropLast<T>(s: seq<T>): seq<T>
    requires |s| > 0
  {
    s[..|s| - 1]
  }

  function Repeat(s: string, n: nat): seq<string>
  {
    seq(n, _ => s)
  }

  // ---------------------------------------------------------------- WHERE

  /** One comparison: `col op ?`. */
  function Term(fo: FilterOption): string
  {
    fo.column + " " + fo.operator + " ?"
  }

  /** A single-value filter is one comparison; any other is the parenthesised OR of one comparison per value. */
  function WherePart(fo: FilterOption): string
  {
    if |fo.values| == 1 then Term(fo) else "(" + Join(Repeat(Term(fo), |fo.values|), " OR ") + ")"
  }

  /** The conditions of the non-limit filters, in filter order. */
  function WhereParts(fs: seq<FilterOption>): seq<string>
  {
    if |fs| == 0 then []
    else WhereParts(DropLast(fs)) + (if Last(fs).isLimit then [] else [WherePart(Last(fs))])
  }

  /** The values of the non-limit filters, filter by filter and value by value. */
  function WhereParams(fs: seq<FilterOption>): seq<Param>
  {
    if |fs| == 0 then []
    else WhereParams(DropLast(fs)) + (if Last(fs).isLimit then [] else Last(fs).values)
  }

  /** " AND " when the query already has a WHERE clause, " WHERE " otherwise. */
  function Connector(q: string): string
  {
    if Contains(ToUpper(q), " WHERE ") then " AND " else " WHERE "
  }

  /** What addWhere returns. */
  function Where(fs: seq<FilterOption>, q: string, params: seq<Param>): (r: (string, seq<Param>))
    ensures q <= r.0 && params <= r.1
  {
    if |fs| == 0 then (q, params)
    else (q + Connector(q) + Join(WhereParts(fs), " AND "), params + WhereParams(fs))
  }

  /** addWhere. */
  method AddWhere(filterOptions: seq<FilterOption>, q: string, params: seq<Param>)
    returns (qOut: string, paramsOut: seq<Param>)
    ensures (qOut, paramsOut) == Where(filterOptions, q, params)
  {
    if |filterOptions| == 0 {
      return q, params;
    }
    var whereParts: seq<string> := [];
    paramsOut := params;
    var i := 0;
    while i < |filterOptions|
      invariant 0 <= i <= |filterOptions|
      invariant whereParts == WhereParts(filterOptions[..i])
      invariant paramsOut == params + WhereParams(filterOptions[..i])
    {
      var fo := filterOptions[i];
      assert DropLast(filterOptions[..i + 1]) == filterOptions[..i];
      if fo.isLimit {
        i := i + 1;
        continue;
      }
      if |fo.values| == 1 {
        whereParts := whereParts + [Term(fo)];
        paramsOut := paramsOut + [fo.values[0]];
      } else {
        var orParts: seq<string> := [];
        var y := 0;
        while y < |fo.values|
          invariant 0 <= y <= |fo.values|
          invariant orParts == Repeat(Term(fo), y)
          invariant paramsOut == params + WhereParams(filterOptions[..i]) + fo.values[..y]
        {
          orParts := orParts + [Term(fo)];
          paramsOut := paramsOut + [fo.values[y]];
          y := y + 1;
        }
        assert fo.values[..y] == fo.values;
        whereParts := whereParts + ["(" + Join(orParts, " OR ") + ")"];
      }
      i := i + 1;
    }
    assert filterOptions[..i] == filterOptions;
    var concat := " WHERE ";
    var qUpper := ToUpper(q);
    if Contains(qUpper, " WHERE ") {
      concat := " AND ";
    }
    qOut := q + concat + Join(whereParts, " AND ");
  }

  // ---------------------------------------------------------------- LIMIT (filter form)

  /** Every limit filter carries a value (the source indexes Values[0] and would panic otherwise). */
  predicate LimitsHaveValues(fs: seq<FilterOption>)
  {
    forall i :: 0 <= i < |fs| && fs[i].isLimit ==> |fs[i].values| > 0
  }

  /** One " LIMIT v" per limit filter, in filter order. */
  function Limits(fs: seq<FilterOption>): string
    requires LimitsHaveValues(fs)
  {
    if |fs| == 0 then ""
    else Limits(DropLast(fs)) + (if Last(fs).isLimit then " LIMIT " + Last(fs).values[0] else "")
  }

  /** addLimit. */
  method AddLimit(filterOptions: seq<FilterOption>, q: string) returns (qOut: string)
    requires LimitsHaveValues(filterOptions)
    ensures qOut == q + Limits(filterOptions)
  {
    var limit := "";
    var i := 0;
    while i < |filterOptions|
      invariant 0 <= i <= |filterOptions|
      invariant limit == Limits(filterOptions[..i])
    {
      var fo := filterOptions[i];
      assert DropLast(filterOptions[..i + 1]) == filterOptions[..i];
      if fo.isLimit {
        limit := limit + " LIMIT " + fo.values[0];
      }
      i := i + 1;
    }
    assert filterOptions[..i] == filterOptions;
    qOut := q + limit;
  }

  // ---------------------------------------------------------------- ORDER BY

  function SortTerm(so: SortOption): string
  {
    so.column + " " + (if so.isASC then "ASC" else "DESC")
  }

  /** One `col ASC` or `col DESC` per sort option, in order. */
  function SortTerms(sorts: seq<SortOption>): (r: seq<string>)
    ensures |r| == |sorts|
    ensures forall i :: 0 <= i < |sorts| ==> r[i] == SortTerm(sorts[i])
  {
    if |sorts| == 0 then [] else SortTerms(DropLast(sorts)) + [SortTerm(Last(sorts))]
  }

  /** What addOrderBy returns. */
  function OrderBy(sorts: seq<SortOption>, q: string): (r: string)
    ensures q <= r
  {
    if |sorts| == 0 then q else q + " ORDER BY " + Join(SortTerms(sorts), ", ")
  }

  /** addOrderBy. */
  method AddOrderBy(sortOptions: seq<SortOption>, q: string) returns (qOut: string)
    ensures qOut == OrderBy(sortOptions, q)
  {
    if |sortOptions| == 0 {
      return q;
    }
    var orderByValues: seq<string> := [];
    var i := 0;
    while i < |sortOptions|
      invariant 0 <= i <= |sortOptions|
      invariant orderByValues == SortTerms(sortOptions[..i])
    {
      assert DropLast(sortOptions[..i + 1]) == sortOptions[..i];
      var direction := "ASC";
      if !sortOptions[i].isASC {
        direction := "DESC";
      }
      orderByValues := orderByValues + [sortOptions[i].column + " " + direction];
      i := i + 1;
    }
    assert sortOptions[..i] == sortOptions;
    qOut := q;
    if |orderByValues| > 0 {
      qOut := q + " ORDER BY " + Join(orderByValues, ", ");
    }
  }

  // ---------------------------------------------------------------- SELECT * replacement

  /** `resource.field` for each field of one option. */
  function Qualified(fo: FieldsOption): seq<string>
  {
    seq(|fo.fields|, j requires 0 <= j < |fo.fields| => fo.resource + "." + fo.fields[j])
  }

  /** The qualified fields of all options, option by option and field by field. */
  function FieldList(fos: seq<FieldsOption>): seq<string>
  {
    if |fos| == 0 then [] else FieldList(DropLast(fos)) + Qualified(Last(fos))
  }

  const SelectStar: string := "SELECT * "

  /** What ReplaceStarSelect returns. */
  function StarReplaced(fos: seq<FieldsOption>, q: string): string
  {
    if !(SelectStar <= ToUpper(q)) then q
    else if |fos| == 0 then q
    else ReplaceFirst(q, '*', Join(FieldList(fos), ", "))
  }

  /** ReplaceStarSelect. */
  method ReplaceStarSelect(fieldOptions: seq<FieldsOption>, q: string) returns (qOut: string)
    ensures qOut == StarReplaced(fieldOptions, q)
  {
    if !(SelectStar <= ToUpper(q)) {
      return q;
    }
    if |fieldOptions| == 0 {
      return q;
    }
    var fields: seq<string> := [];
    var i := 0;
    while i < |fieldOptions|
      invariant 0 <= i <= |fieldOptions|
      invariant fields == FieldList(fieldOptions[..i])
    {
      var fo := fieldOptions[i];
      assert DropLast(fieldOptions[..i + 1]) == fieldOptions[..i];
      var j := 0;
      while j < |fo.fields|
        invariant 0 <= j <= |fo.fields|
        invariant fields == FieldList(fieldOptions[..i]) + Qualified(fo)[..j]
      {
        fields := fields + [fo.resource + "." + fo.fields[j]];
        j := j + 1;
      }
      assert Qualified(fo)[..j] == Qualified(fo);
      i := i + 1;
    }
    assert fieldOptions[..i] == fieldOptions;
    qOut := ReplaceFirst(q, '*', Join(fields, ", "));
  }

  // ---------------------------------------------------------------- LIMIT ? OFFSET ?

  /** What addLimitOffset returns: without pagination the input, else two placeholders and the limit and offset after the input. */
  function LimitOffset(p: Option<Pagination>, q: string, params: seq<Param>): (r: (string, seq<Param>))
    ensures q <= r.0 && params <= r.1
    ensures p.None? ==> r == (q, params)
    ensures p.Some? ==> r.1[|params|..] == [p.value.limit, p.value.offset] && r.0[|q|..] == " LIMIT ? OFFSET ?"
  {
    match p
    case None => (q, params)
    case Some(pg) => (q + " LIMIT ? OFFSET ?", params + [pg.limit, pg.offset])
  }

  // ---------------------------------------------------------------- the pipeline

  /** What AppendOptionsToQuery returns: where, then order by, then star replacement, then limit/offset. */
  function Appended(o: ListOptions, q: string, params: seq<Param>): (string, seq<Param>)
  {
    var (q1, p1) := Where(o.filters, q, params);
    var q2 := OrderBy(o.sorts, q1);
    var q3 := StarReplaced(o.fields, q2);
    LimitOffset(o.pagination, q3, p1)
  }

  /** AppendOptionsToQuery. */
  method AppendOptionsToQuery(o: ListOptions, q: string, params: seq<Param>)
    returns (qOut: string, paramsOut: seq<Param>)
    ensures (qOut, paramsOut) == Appended(o, q, params)
  {
    qOut, paramsOut := AddWhere(o.filters, q, params);
    qOut := AddOrderBy(o.sorts, qOut);
    qOut := ReplaceStarSelect(o.fields, qOut);
    var limited := LimitOffset(o.pagination, qOut, paramsOut);
    qOut, paramsOut := limited.0, limited.1;
  }

  /** ConvertListOptionsToQuery: the pipeline started without parameters. */
  method ConvertListOptionsToQuery(lo: ListOptions, q: string) returns (qOut: string, params: seq<Param>)
    ensures (qOut, params) == Appended(lo, q, [])
  {
    qOut, params := AppendOptionsToQuery(lo, q, []);
  }

  /** ConvertRetrieveOptionsToQuery: only the star replacement applies. */
  method ConvertRetrieveOptionsToQuery(ro: RetrieveOptions, q: string) returns (qOut: string)
    ensures qOut == StarReplaced(ro.fields, q)
  {
    qOut := ReplaceStarSelect(ro.fields, q);
  }

  // ---------------------------------------------------------------- properties

  /** No `?` in the text the options contribute, so every `?` in the output is a placeholder the builder wrote. */
  predicate NoMarks(o: ListOptions)
  {
    && (forall i :: 0 <= i < |o.filters| ==> '?' !in o.filters[i].column && '?' !in o.filters[i].operator)
    && (forall i :: 0 <= i < |o.sorts| ==> '?' !in o.sorts[i].column)
    && (forall i :: 0 <= i < |o.fields| ==> '?' !in o.fields[i].resource && '?' !in Join(o.fields[i].fields, ""))
  }

  lemma {:induction false} CountAbsent(c: char, s: string)
    requires c !in s
    ensures Count(c, s) == 0
  {
    if |s| > 0 {
      assert forall x :: x in s[1..] ==> x in s;
      CountAbsent(c, s[1..]);
    }
  }

  lemma {:induction false} CountAllRepeat(c: char, s: string, n: nat)
    ensures CountAll(c, Repeat(s, n)) == n * Count(c, s)
  {
    if n > 0 {
      assert Repeat(s, n)[1..] == Repeat(s, n - 1);
      CountAllRepeat(c, s, n - 1);
    }
  }

  /** Each condition holds one placeholder per value of its filter. */
  lemma WherePartPlaceholders(fo: FilterOption)
    requires '?' !in fo.column && '?' !in fo.operator
    ensures Count('?', WherePart(fo)) == |fo.values|
  {
    CountAbsent('?', fo.column);
    CountAbsent('?', fo.operator);
    CountAppend('?', fo.column + " " + fo.operator, " ?");
    CountAppend('?', fo.column + " ", fo.operator);
    CountAppend('?', fo.column, " ");
    assert Count('?', Term(fo)) == 1;
    if |fo.values| != 1 {
      var n := |fo.values|;
      CountAbsent('?', " OR ");
      CountJoin('?', Repeat(Term(fo), n), " OR ");
      CountAllRepeat('?', Term(fo), n);
      CountAppend('?', "(" + Join(Repeat(Term(fo), n), " OR "), ")");
      CountAppend('?', "(", Join(Repeat(Term(fo), n), " OR "));
    }
  }

  /** The conditions hold exactly as many placeholders as addWhere appends parameters. */
  lemma {:induction false} WherePartsPlaceholders(fs: seq<FilterOption>)
    requires forall i :: 0 <= i < |fs| ==> '?' !in fs[i].column && '?' !in fs[i].operator
    ensures CountAll('?', WhereParts(fs)) == |WhereParams(fs)|
  {
    if |fs| > 0 {
      WherePartsPlaceholders(DropLast(fs));
      var tail := if Last(fs).isLimit then [] else [WherePart(Last(fs))];
      CountAllAppend('?', WhereParts(DropLast(fs)), tail);
      if !Last(fs).isLimit {
        WherePartPlaceholders(Last(fs));
      }
    }
  }

  /** addWhere adds one placeholder for every parameter it appends. */
  lemma WherePlaceholders(fs: seq<FilterOption>, q: string, params: seq<Param>)
    requires forall i :: 0 <= i < |fs| ==> '?' !in fs[i].column && '?' !in fs[i].operator
    ensures Count('?', Where(fs, q, params).0) == Count('?', q) + |Where(fs, q, params).1| - |params|
  {
    if |fs| > 0 {
      WherePartsPlaceholders(fs);
      CountAbsent('?', " AND ");
      CountAbsent('?', Connector(q));
      CountJoin('?', WhereParts(fs), " AND ");
      CountAppend('?', q + Connector(q), Join(WhereParts(fs), " AND "));
      CountAppend('?', q, Connector(q));
    }
  }

  /** Conditions and parameters come filter by filter: those of a split list are those of its halves, in order. */
  lemma {:induction false} WhereSplit(a: seq<FilterOption>, b: seq<FilterOption>)
    ensures WhereParts(a + b) == WhereParts(a) + WhereParts(b)
    ensures WhereParams(a + b) == WhereParams(a) + WhereParams(b)
    decreases |b|
  {
    if |b| == 0 {
      assert a + b == a;
    } else {
      assert DropLast(a + b) == a + DropLast(b) && Last(a + b) == Last(b);
      WhereSplit(a, DropLast(b));
    }
  }

  /** Limit filters contribute nothing to the WHERE clause: with only those, just the connector is appended. */
  lemma {:induction false} WhereOnlyLimitFilters(fs: seq<FilterOption>, q: string, params: seq<Param>)
    requires |fs| > 0 && forall i :: 0 <= i < |fs| ==> fs[i].isLimit
    ensures Where(fs, q, params) == (q + Connector(q), params)
  {
    NoConditions(fs);
    assert Join(WhereParts(fs), " AND ") == "";
    assert q + Connector(q) + "" == q + Connector(q);
    assert params + [] == params;
  }

  lemma {:induction false} NoConditions(fs: seq<FilterOption>)
    requires forall i :: 0 <= i < |fs| ==> fs[i].isLimit
    ensures WhereParts(fs) == [] && WhereParams(fs) == []
  {
    if |fs| > 0 {
      NoConditions(DropLast(fs));
    }
  }

  /** A WHERE clause once added makes the next addWhere chain with " AND ". */
  lemma WhereChainsWithAnd(fs: seq<FilterOption>, q: string, params: seq<Param>)
    requires |fs| > 0
    ensures Connector(Where(fs, q, params).0) == " AND "
  {
    var rest := Join(WhereParts(fs), " AND ");
    var out := Where(fs, q, params).0;
    ToUpperAppend(q + Connector(q), rest);
    ToUpperAppend(q, Connector(q));
    if Contains(ToUpper(q), " WHERE ") {
      ContainsAt(ToUpper(q), " WHERE ");
      var i :| 0 <= i <= |ToUpper(q)| && " WHERE " <= ToUpper(q)[i..];
      assert ToUpper(out)[i..] == ToUpper(q)[i..] + ToUpper(Connector(q)) + ToUpper(rest);
      ContainsAt(ToUpper(out), " WHERE ");
    } else {
      assert ToUpper(" WHERE ") == " WHERE ";
      ContainsInside(ToUpper(q), " WHERE ", ToUpper(rest));
    }
  }

  /** A query that starts with `SELECT * ` (in any case) has its first `*` at index 7. */
  lemma StarAtSeven(q: string)
    requires SelectStar <= ToUpper(q)
    ensures |q| > 8 && q[7] == '*' && forall j :: 0 <= j < 7 ==> q[j] != '*'
  {
    assert ToUpper(q)[7] == '*';
    forall j | 0 <= j < 7 ensures q[j] != '*' {
      assert ToUpper(q)[j] == SelectStar[j];
    }
  }

  /** ReplaceStarSelect replaces exactly the `*` of `SELECT *` and keeps the rest of the query. */
  lemma StarReplacedOnce(fos: seq<FieldsOption>, q: string)
    requires SelectStar <= ToUpper(q) && |fos| > 0
    ensures StarReplaced(fos, q) == q[..7] + Join(FieldList(fos), ", ") + q[8..]
  {
    StarAtSeven(q);
    ReplaceFirstAt(q, '*', Join(FieldList(fos), ", "), 7);
  }

  /**
   * When the star replacement cannot apply (no field options, or a query of at least
   * nine characters that does not start with `SELECT * `) the pipeline only appends:
   * the input query and the input parameters are prefixes of the output. A shorter
   * query such as `SELECT *` can gain the ` ` it lacks from the WHERE clause and then
   * have its `*` replaced.
   */
  lemma AppendedKeepsPrefix(o: ListOptions, q: string, params: seq<Param>)
    requires |o.fields| == 0 || (|q| >= |SelectStar| && !(SelectStar <= ToUpper(q)))
    ensures q <= Appended(o, q, params).0 && params <= Appended(o, q, params).1
  {
    var q2 := OrderBy(o.sorts, Where(o.filters, q, params).0);
    if |o.fields| > 0 {
      assert q <= q2;
      var tail := q2[|q|..];
      assert q2 == q + tail;
      ToUpperAppend(q, tail);
      assert ToUpper(q2)[..|SelectStar|] == ToUpper(q)[..|SelectStar|];
    }
  }

  /**
   * With field options on a `SELECT *` query, the output is the query with its `*`
   * replaced by the qualified field list, followed by what the other steps append.
   */
  lemma {:induction false} AppendedReplacesStar(o: ListOptions, q: string, params: seq<Param>)
    requires SelectStar <= ToUpper(q) && |o.fields| > 0
    ensures q[..7] + Join(FieldList(o.fields), ", ") + q[8..] <= Appended(o, q, params).0
  {
    var q1 := Where(o.filters, q, params).0;
    var q2 := OrderBy(o.sorts, q1);
    assert q <= q2;
    var tail := q2[|q|..];
    assert q2 == q + tail;
    ToUpperAppend(q, tail);
    assert SelectStar <= ToUpper(q2);
    StarAtSeven(q);
    StarReplacedOnce(o.fields, q2);
    assert q2[..7] == q[..7];
    assert q2[8..] == q[8..] + tail;
  }

  lemma {:induction false} FieldListHasNoMarks(fos: seq<FieldsOption>)
    requires forall i :: 0 <= i < |fos| ==> '?' !in fos[i].resource && '?' !in Join(fos[i].fields, "")
    ensures CountAll('?', FieldList(fos)) == 0
  {
    if |fos| > 0 {
      FieldListHasNoMarks(DropLast(fos));
      var fo := Last(fos);
      QualifiedHasNoMarks(fo.resource, fo.fields);
      CountAllAppend('?', FieldList(DropLast(fos)), Qualified(fo));
    }
  }

  lemma {:induction false} QualifiedHasNoMarks(resource: string, fields: seq<string>)
    requires '?' !in resource && '?' !in Join(fields, "")
    ensures CountAll('?', Qualified(FieldsOption(resource, fields))) == 0
  {
    if |fields| > 0 {
      var fo := FieldsOption(resource, fields);
      var rest := FieldsOption(resource, fields[1..]);
      assert Qualified(fo) == [resource + "." + fields[0]] + Qualified(rest);
      assert '?' !in fields[0] && '?' !in Join(fields[1..], "") by {
        if |fields| > 1 {
          assert Join(fields, "") == fields[0] + "" + Join(fields[1..], "");
        }
      }
      QualifiedHasNoMarks(resource, fields[1..]);
      CountAbsent('?', resource);
      CountAbsent('?', fields[0]);
      CountAppend('?', resource + ".", fields[0]);
      CountAppend('?', resource, ".");
    }
  }

  lemma {:induction false} SortTermsHaveNoMarks(sorts: seq<SortOption>)
    requires forall i :: 0 <= i < |sorts| ==> '?' !in sorts[i].column
    ensures CountAll('?', SortTerms(sorts)) == 0
  {
    if |sorts| > 0 {
      SortTermsHaveNoMarks(DropLast(sorts));
      var so := Last(sorts);
      CountAbsent('?', so.column);
      CountAbsent('?', " ");
      CountAbsent('?', if so.isASC then "ASC" else "DESC");
      CountAppend('?', so.column + " ", if so.isASC then "ASC" else "DESC");
      CountAppend('?', so.column, " ");
      CountAllAppend('?', SortTerms(DropLast(sorts)), [SortTerm(so)]);
    }
  }

  /** ORDER BY adds no placeholder. */
  lemma OrderByPlaceholders(sorts: seq<SortOption>, q: string)
    requires forall i :: 0 <= i < |sorts| ==> '?' !in sorts[i].column
    ensures Count('?', OrderBy(sorts, q)) == Count('?', q)
  {
    if |sorts| > 0 {
      SortTermsHaveNoMarks(sorts);
      CountAbsent('?', ", ");
      CountAbsent('?', " ORDER BY ");
      CountJoin('?', SortTerms(sorts), ", ");
      CountAppend('?', q + " ORDER BY ", Join(SortTerms(sorts), ", "));
      CountAppend('?', q, " ORDER BY ");
    }
  }

  /** The star replacement adds no placeholder. */
  lemma StarReplacedPlaceholders(fos: seq<FieldsOption>, q: string)
    requires forall i :: 0 <= i < |fos| ==> '?' !in fos[i].resource && '?' !in Join(fos[i].fields, "")
    ensures Count('?', StarReplaced(fos, q)) == Count('?', q)
  {
    if SelectStar <= ToUpper(q) && |fos| > 0 {
      FieldListHasNoMarks(fos);
      CountAbsent('?', ", ");
      CountJoin('?', FieldList(fos), ", ");
      CountReplaceFirst('?', q, '*', Join(FieldList(fos), ", "));
    }
  }

  /** addLimitOffset adds as many placeholders as parameters: none, or two. */
  lemma LimitOffsetPlaceholders(p: Option<Pagination>, q: string, params: seq<Param>)
    ensures Count('?', LimitOffset(p, q, params).0) == Count('?', q) + |LimitOffset(p, q, params).1| - |params|
    ensures p.Some? ==> |LimitOffset(p, q, params).1| == |params| + 2
  {
    if p.Some? {
      assert " LIMIT ? OFFSET ?" == " LIMIT " + "?" + " OFFSET " + "?";
      CountAbsent('?', " LIMIT ");
      CountAbsent('?', " OFFSET ");
      CountAppend('?', " LIMIT " + "?" + " OFFSET ", "?");
      CountAppend('?', " LIMIT " + "?", " OFFSET ");
      CountAppend('?', " LIMIT ", "?");
      CountAppend('?', q, " LIMIT ? OFFSET ?");
    }
  }

  /**
   * The whole pipeline writes exactly one placeholder per parameter it appends:
   * one per filter value and two for LIMIT ? OFFSET ?.
   */
  lemma AppendedPlaceholders(o: ListOptions, q: string, params: seq<Param>)
    requires NoMarks(o)
    ensures Count('?', Appended(o, q, params).0) == Count('?', q) + |Appended(o, q, params).1| - |params|
  {
    var (q1, p1) := Where(o.filters, q, params);
    WherePlaceholders(o.filters, q, params);
    var q2 := OrderBy(o.sorts, q1);
    OrderByPlaceholders(o.sorts, q1);
    var q3 := StarReplaced(o.fields, q2);
    StarReplacedPlaceholders(o.fields, q2);
    LimitOffsetPlaceholders(o.pagination, q3, p1);
  }
}
