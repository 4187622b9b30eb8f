/** The pieces the listing routes assemble their SQL from.

    A query is a sequence of literal text and `?` placeholders; the text
    parts are the route's own string literals, none of which contains a `?`,
    so the number of `Param` parts is the number of `?` that mysql2 fills
    from the parameter list. Each non-empty filter contributes one
    `column LIKE ?` condition and one `%value%` parameter; the sort field and
    direction come from an allow-list, never from the request text. */
module Sql {
  import opened Common

  datatype SqlPart = Text(text: string) | Param

  /** A bound parameter value. */
  datatype SqlValue = IntValue(i: int) | StrValue(s: string)

  function Placeholders(q: seq<SqlPart>): nat
  {
    if q == [] then 0 else (if q[0].Param? then 1 else 0) + Placeholders(q[1..])
  }

  lemma {:induction false} PlaceholdersAppend(a: seq<SqlPart>, b: seq<SqlPart>)
    ensures Placeholders(a + b) == Placeholders(a) + Placeholders(b)
  {
    if a == [] {
      assert a + b == b;
    } else {
      assert (a + b)[1..] == a[1..] + b;
      PlaceholdersAppend(a[1..], b);
    }
  }

  /** `%${value}%` */
  function LikePattern(value: string): (r: string)
    ensures |r| == |value| + 2
    ensures r[0] == '%' && r[|r| - 1] == '%' && r[1..|r| - 1] == value
  {
    "%" + value + "%"
  }

  /** One optional filter of a listing: the column it tests and the query
      string value, `""` when the parameter is absent. */
  datatype Filter = Filter(column: string, value: string)

  /** `${column} LIKE ?` */
  function LikeCondition(column: string): seq<SqlPart>
  {
    [Text(column + " LIKE "), Param]
  }

  lemma LikeConditionPlaceholders(column: string)
    ensures Placeholders(LikeCondition(column)) == 1
  {
    var c := LikeCondition(column);
    calc {
      Placeholders(c);
      Placeholders(c[1..]);
      1 + Placeholders(c[1..][1..]);
    }
  }

  /** The non-empty filters, in their fixed order. */
  function ActiveFilters(fs: seq<Filter>): (r: seq<Filter>)
    ensures |r| <= |fs|
    ensures forall k :: 0 <= k < |r| ==> !Blank(r[k].value)
    ensures r == [] <==> forall k :: 0 <= k < |fs| ==> Blank(fs[k].value)
    ensures forall k :: 0 <= k < |r| ==> r[k] in fs
    ensures forall k :: 0 <= k < |fs| && !Blank(fs[k].value) ==> fs[k] in r
  {
    if fs == [] then []
    else
      var rest := ActiveFilters(fs[1..]);
      assert forall k :: 1 <= k < |fs| ==> fs[k] == fs[1..][k - 1];
      (if Blank(fs[0].value) then [] else [fs[0]]) + rest
  }

  /** The `conditions` array: one `LIKE ?` per non-empty filter, in order. */
  function Conditions(fs: seq<Filter>): (r: seq<seq<SqlPart>>)
    ensures |r| == |ActiveFilters(fs)|
  {
    var active := ActiveFilters(fs);
    seq(|active|, k requires 0 <= k < |active| => LikeCondition(active[k].column))
  }

  /** The parameters the filters push: one `%value%` per non-empty filter, in order. */
  function LikeParams(fs: seq<Filter>): (r: seq<SqlValue>)
    ensures |r| == |ActiveFilters(fs)|
  {
    var active := ActiveFilters(fs);
    seq(|active|, k requires 0 <= k < |active| => StrValue(LikePattern(active[k].value)))
  }

  lemma {:induction false} ActiveFiltersSnoc(fs: seq<Filter>, f: Filter)
    ensures ActiveFilters(fs + [f]) == ActiveFilters(fs) + (if Blank(f.value) then [] else [f])
  {
    if fs == [] {
      assert ([] + [f])[1..] == [];
    } else {
      assert (fs + [f])[1..] == fs[1..] + [f];
      ActiveFiltersSnoc(fs[1..], f);
    }
  }

  /** Testing one more filter pushes at most one condition and one parameter,
      and exactly one of each when its value is non-empty. */
  lemma FilterStep(fs: seq<Filter>, f: Filter)
    ensures Conditions(fs + [f]) == Conditions(fs) + (if Blank(f.value) then [] else [LikeCondition(f.column)])
    ensures LikeParams(fs + [f]) == LikeParams(fs) + (if Blank(f.value) then [] else [StrValue(LikePattern(f.value))])
  {
    ConditionsSnoc(fs, f);
    LikeParamsSnoc(fs, f);
  }

  lemma ConditionsSnoc(fs: seq<Filter>, f: Filter)
    ensures Conditions(fs + [f]) == Conditions(fs) + (if Blank(f.value) then [] else [LikeCondition(f.column)])
  {
    ActiveFiltersSnoc(fs, f);
    var a := ActiveFilters(fs);
    var c := Conditions(fs + [f]);
    var want := Conditions(fs) + (if Blank(f.value) then [] else [LikeCondition(f.column)]);
    assert |c| == |want|;
    forall k | 0 <= k < |c|
      ensures c[k] == want[k]
    {
      if k < |a| {
        assert ActiveFilters(fs + [f])[k] == a[k];
      }
    }
  }

  lemma LikeParamsSnoc(fs: seq<Filter>, f: Filter)
    ensures LikeParams(fs + [f]) == LikeParams(fs) + (if Blank(f.value) then [] else [StrValue(LikePattern(f.value))])
  {
    ActiveFiltersSnoc(fs, f);
    var a := ActiveFilters(fs);
    var p := LikeParams(fs + [f]);
    var want := LikeParams(fs) + (if Blank(f.value) then [] else [StrValue(LikePattern(f.value))]);
    assert |p| == |want|;
    forall k | 0 <= k < |p|
      ensures p[k] == want[k]
    {
      if k < |a| {
        assert ActiveFilters(fs + [f])[k] == a[k];
      }
    }
  }

  /** `if (value) { conditions.push(`${column} LIKE ?`); queryParams.push(`%${value}%`); }` */
  method PushFilter(conditions: seq<seq<SqlPart>>, params: seq<SqlValue>, f: Filter)
    returns (conditions': seq<seq<SqlPart>>, params': seq<SqlValue>)
    ensures conditions' == conditions + (if Blank(f.value) then [] else [LikeCondition(f.column)])
    ensures params' == params + (if Blank(f.value) then [] else [StrValue(LikePattern(f.value))])
  {
    conditions', params' := conditions, params;
    if !Blank(f.value) {
      conditions' := conditions' + [LikeCondition(f.column)];
      params' := params' + [StrValue(LikePattern(f.value))];
    }
  }

  /** `if (conditions.length > 0) query += ' WHERE ' + conditions.join(' AND ')`,
      returning the appended part. */
  method WhereFrom(conditions: seq<seq<SqlPart>>) returns (where: seq<SqlPart>)
    ensures where == if |conditions| > 0 then [Text(" WHERE ")] + JoinAnd(conditions) else []
  {
    where := [];
    if |conditions| > 0 {
      where := [Text(" WHERE ")] + JoinAnd(conditions);
    }
  }

  /** A query made of a head, the WHERE clause and a placeholder-free tail has
      the head's placeholders plus one per filter parameter. */
  lemma ListingPlaceholders(head: seq<SqlPart>, fs: seq<Filter>, tail: seq<SqlPart>)
    requires Placeholders(tail) == 0
    ensures Placeholders(head + WhereClause(fs) + tail) == Placeholders(head) + |LikeParams(fs)|
  {
    WhereClauseMatchesParams(fs);
    PlaceholdersAppend(head, WhereClause(fs));
    PlaceholdersAppend(head + WhereClause(fs), tail);
  }

  /** `conditions.join(' AND ')` */
  function JoinAnd(conds: seq<seq<SqlPart>>): seq<SqlPart>
  {
    if conds == [] then []
    else if |conds| == 1 then conds[0]
    else conds[0] + [Text(" AND ")] + JoinAnd(conds[1..])
  }

  lemma {:induction false} JoinAndPlaceholders(conds: seq<seq<SqlPart>>)
    requires forall k :: 0 <= k < |conds| ==> Placeholders(conds[k]) == 1
    ensures Placeholders(JoinAnd(conds)) == |conds|
  {
    if |conds| > 1 {
      JoinAndPlaceholders(conds[1..]);
      PlaceholdersAppend(conds[0] + [Text(" AND ")], JoinAnd(conds[1..]));
      PlaceholdersAppend(conds[0], [Text(" AND ")]);
    }
  }

  /** `if (conditions.length > 0) query += ' WHERE ' + conditions.join(' AND ')` */
  function WhereClause(fs: seq<Filter>): seq<SqlPart>
  {
    var conds := Conditions(fs);
    if |conds| > 0 then [Text(" WHERE ")] + JoinAnd(conds) else []
  }

  /** The WHERE clause has exactly as many placeholders as the filters push
      parameters, and it is absent exactly when every filter is empty. */
  lemma WhereClauseMatchesParams(fs: seq<Filter>)
    ensures Placeholders(WhereClause(fs)) == |LikeParams(fs)|
    ensures WhereClause(fs) == [] <==> forall k :: 0 <= k < |fs| ==> Blank(fs[k].value)
  {
    var conds := Conditions(fs);
    forall k | 0 <= k < |conds|
      ensures Placeholders(conds[k]) == 1
    {
      LikeConditionPlaceholders(ActiveFilters(fs)[k].column);
    }
    JoinAndPlaceholders(conds);
    if |conds| > 0 {
      PlaceholdersAppend([Text(" WHERE ")], JoinAnd(conds));
    }
  }

  /** `allowedSortFields.includes(sort_by.toLowerCase()) ? sort_by.toLowerCase() : 'name'`,
      with `sort_by` defaulting to `'name'` when the parameter is absent. */
  function SortField(sortBy: Option<string>, allowed: seq<string>): (f: string)
    requires "name" in allowed
    ensures f in allowed
    ensures sortBy.Some? && Lower(sortBy.value) in allowed ==> f == Lower(sortBy.value)
    ensures f != "name" ==> sortBy.Some? && Lower(sortBy.value) == f
  {
    match sortBy
    case None => "name"
    case Some(s) => if Lower(s) in allowed then Lower(s) else "name"
  }

  /** `(order.toUpperCase() === 'ASC' || order.toUpperCase() === 'DESC') ? order.toUpperCase() : 'ASC'`,
      with `order` defaulting to `'ASC'`. */
  function SortOrder(order: Option<string>): (o: string)
    ensures o == "ASC" || o == "DESC"
    ensures o == "DESC" <==> order.Some? && Upper(order.value) == "DESC"
  {
    match order
    case None => "ASC"
    case Some(s) => if Upper(s) == "ASC" || Upper(s) == "DESC" then Upper(s) else "ASC"
  }

  /** A direction already written ASC or DESC comes back unchanged. */
  lemma OrderWordKept(o: string)
    requires o == "ASC" || o == "DESC"
    ensures SortOrder(Some(o)) == o
  {
    forall i | 0 <= i < |o|
      ensures Upper(o)[i] == o[i]
    {
      assert !IsLower(o[i]);
    }
    assert Upper(o) == o;
  }

  /** `query += ' GROUP BY s.id'`, shared by both store listings. */
  const GroupByStore: seq<SqlPart> := [Text(" GROUP BY s.id")]

  /** `query += ' ORDER BY ${sortField} ${sortOrder}'` */
  function OrderBy(field: string, order: string): seq<SqlPart>
  {
    [Text(" ORDER BY " + field + " " + order)]
  }

  lemma OrderByPlaceholders(field: string, order: string)
    ensures Placeholders(OrderBy(field, order)) == 0
  {
    assert OrderBy(field, order)[1..] == [];
  }

  /** A field name already in lower case comes back unchanged. */
  lemma LowercaseFieldKept(f: string, allowed: seq<string>)
    requires "name" in allowed && f in allowed
    requires forall i :: 0 <= i < |f| ==> !IsUpper(f[i])
    ensures SortField(Some(f), allowed) == f
  {
    assert Lower(f) == f;
  }
}
