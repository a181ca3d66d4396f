/** The document-store backend's translation of a query: the filter tree
    becomes a nested condition map (`{"$and": [...]}`, `{field: {"$gt": v}}`),
    the ordering a list of `(field, ±1)` pairs, and offset and limit the
    cursor's skip and limit. */
module Persistpy {

  import opened Values
  import opened QueryBuilder

  /** `operator_mapping`: every operator except EQ, which needs no wrapper. */
  const OperatorMapping: map<string, string> :=
    map[NE := "$ne", GT := "$gt", GTE := "$gte", LT := "$lt", LTE := "$lte", IN := "$in", NIN := "$nin"]

  /** The exception raised for an operator the document store does not know. */
  datatype MongoError = UnrecognizedOperator(operator: string)

  /** `_transform_query_filter`: an EQ filter becomes `{field: value}`; any
      other operator must be in the table and becomes
      `{field: {$op: value}}`, where an IN value is first wrapped in a
      one-element list. */
  function TransformQueryFilter(f: QueryFilter): (r: Result<Json, MongoError>)
  {
    if f.operator == EQ then Ok(Single(f.field, f.value))
    else if f.operator !in OperatorMapping then Err(UnrecognizedOperator(f.operator))
    else
      var v := if f.operator == IN then JArr([f.value]) else f.value;
      Ok(Single(f.field, Single(OperatorMapping[f.operator], v)))
  }

  /** The translation of each of the eight operator symbols, written out, and
      the error for every other operator. */
  lemma FilterTranslationTable(field: string, v: Json, op: string)
    ensures TransformQueryFilter(QueryFilter(field, v, "=")) == Ok(Single(field, v))
    ensures TransformQueryFilter(QueryFilter(field, v, "!=")) == Ok(Single(field, Single("$ne", v)))
    ensures TransformQueryFilter(QueryFilter(field, v, ">")) == Ok(Single(field, Single("$gt", v)))
    ensures TransformQueryFilter(QueryFilter(field, v, ">=")) == Ok(Single(field, Single("$gte", v)))
    ensures TransformQueryFilter(QueryFilter(field, v, "<")) == Ok(Single(field, Single("$lt", v)))
    ensures TransformQueryFilter(QueryFilter(field, v, "<=")) == Ok(Single(field, Single("$lte", v)))
    ensures TransformQueryFilter(QueryFilter(field, v, "in")) == Ok(Single(field, Single("$in", JArr([v]))))
    ensures TransformQueryFilter(QueryFilter(field, v, "nin")) == Ok(Single(field, Single("$nin", v)))
    ensures op !in Operators ==> TransformQueryFilter(QueryFilter(field, v, op)) == Err(UnrecognizedOperator(op))
  {
  }

  /** The combinator key of a group's condition: the one passed in, else
      `$or` for an OR group and `$and` for any other. */
  function GroupKey(g: FilterNode, operator: Option<string>): (r: string)
    requires g.Group?
  {
    if operator.Some? then operator.value
    else if g.operator == OR then "$or" else "$and"
  }

  /** `_transform_query_filter_group(group, operator)`, as a value: the
      single-key map from the combinator to the children's conditions. */
  function GroupCondition(g: FilterNode, operator: Option<string>): (r: Result<Json, MongoError>)
    requires g.Group?
    decreases g, |g.items| + 1
  {
    match ItemConditions(g, 0)
    case Err(e) => Err(e)
    case Ok(cs) => Ok(Single(GroupKey(g, operator), JArr(cs)))
  }

  /** The conditions of the children of `g` from index `i` on, stopping at the
      first child whose translation fails. */
  function ItemConditions(g: FilterNode, i: nat): (r: Result<seq<Json>, MongoError>)
    requires g.Group? && i <= |g.items|
    decreases g, |g.items| - i
  {
    if i == |g.items| then Ok([])
    else
      var c := NodeCondition(g.items[i]);
      if c.Err? then Err(c.error)
      else Prefixed([c.value], ItemConditions(g, i + 1))
  }

  /** The condition of one child: a filter, or a nested group, which uses its
      own combinator. */
  function NodeCondition(n: FilterNode): (r: Result<Json, MongoError>)
    decreases n, if n.Group? then |n.items| + 2 else 0
  {
    match n
    case Leaf(f) => TransformQueryFilter(f)
    case Group(_, _) => GroupCondition(n, None)
  }

  /** `cs` put in front of a successful list; an error is kept. */
  function Prefixed(cs: seq<Json>, r: Result<seq<Json>, MongoError>): (res: Result<seq<Json>, MongoError>)
  {
    if r.Ok? then Ok(cs + r.value) else r
  }

  lemma PrefixedNothing(r: Result<seq<Json>, MongoError>)
    ensures Prefixed([], r) == r
  {
    if r.Ok? {
      assert [] + r.value == r.value;
    }
  }

  lemma PrefixedTwice(cs: seq<Json>, ds: seq<Json>, r: Result<seq<Json>, MongoError>)
    ensures Prefixed(cs, Prefixed(ds, r)) == Prefixed(cs + ds, r)
  {
    if r.Ok? {
      assert cs + (ds + r.value) == (cs + ds) + r.value;
    }
  }

  /** `_transform_query_filter_group`: the loop appending one condition per
      child, recursing into nested groups. */
  method TransformFilterGroup(g: FilterNode, operator: Option<string>) returns (r: Result<Json, MongoError>)
    requires g.Group?
    ensures r == GroupCondition(g, operator)
    decreases g
  {
    var conditions: seq<Json> := [];
    PrefixedNothing(ItemConditions(g, 0));
    for i := 0 to |g.items|
      invariant ItemConditions(g, 0) == Prefixed(conditions, ItemConditions(g, i))
    {
      var c: Result<Json, MongoError>;
      if g.items[i].Group? {
        c := TransformFilterGroup(g.items[i], None);
      } else {
        c := TransformQueryFilter(g.items[i].filter);
      }
      assert c == NodeCondition(g.items[i]);
      if c.Err? {
        assert ItemConditions(g, 0) == Err(c.error);
        return Err(c.error);
      }
      PrefixedTwice(conditions, [c.value], ItemConditions(g, i + 1));
      conditions := conditions + [c.value];
    }
    assert conditions + [] == conditions;
    assert ItemConditions(g, 0) == Ok(conditions);
    var key := if operator.Some? then operator.value else if g.operator == OR then "$or" else "$and";
    r := Ok(Single(key, JArr(conditions)));
  }

  /** A group translates to a single-key map from its combinator to a list
      holding one condition per child, in child order. */
  lemma GroupConditionShape(g: FilterNode, operator: Option<string>)
    requires g.Group? && GroupCondition(g, operator).Ok?
    ensures exists cs: seq<Json> ::
              && GroupCondition(g, operator) == Ok(Single(GroupKey(g, operator), JArr(cs)))
              && |cs| == |g.items|
              && forall k :: 0 <= k < |cs| ==> NodeCondition(g.items[k]) == Ok(cs[k])
  {
    ItemConditionsShape(g, 0);
    var cs := ItemConditions(g, 0).value;
    assert forall k :: 0 <= k < |cs| ==> NodeCondition(g.items[k]) == Ok(cs[k]);
  }

  lemma {:induction false} ItemConditionsShape(g: FilterNode, i: nat)
    requires g.Group? && i <= |g.items| && ItemConditions(g, i).Ok?
    ensures |ItemConditions(g, i).value| == |g.items| - i
    ensures forall k :: i <= k < |g.items| ==> NodeCondition(g.items[k]) == Ok(ItemConditions(g, i).value[k - i])
    decreases |g.items| - i
  {
    if i < |g.items| {
      ItemConditionsShape(g, i + 1);
    }
  }

  /** A tree all of whose filters use EQ or an operator in the table. */
  ghost predicate Translatable(n: FilterNode)
    decreases n
  {
    match n
    case Leaf(f) => f.operator == EQ || f.operator in OperatorMapping
    case Group(items, _) => forall k :: 0 <= k < |items| ==> Translatable(items[k])
  }

  /** Translation fails exactly when some filter in the tree, at any depth,
      uses an operator outside the table. */
  lemma {:induction false} NodeConditionOk(n: FilterNode)
    ensures NodeCondition(n).Ok? <==> Translatable(n)
    decreases n, 1
  {
    match n
    case Leaf(f) =>
    case Group(items, _) =>
      ItemConditionsOk(n, 0);
  }

  lemma {:induction false} ItemConditionsOk(g: FilterNode, i: nat)
    requires g.Group? && i <= |g.items|
    ensures ItemConditions(g, i).Ok? <==> forall k :: i <= k < |g.items| ==> Translatable(g.items[k])
    decreases g, 0, |g.items| - i
  {
    if i < |g.items| {
      NodeConditionOk(g.items[i]);
      ItemConditionsOk(g, i + 1);
    }
  }

  /** `and_` and `or_` groups nested inside a filter list translate under
      `$and` and `$or`, each child's condition in argument order. */
  lemma CombinatorsTranslate(args: seq<FilterNode>)
    requires forall k :: 0 <= k < |args| ==> Translatable(args[k])
    ensures exists cs: seq<Json> ::
              && NodeCondition(And(args)) == Ok(Single("$and", JArr(cs)))
              && NodeCondition(Or(args)) == Ok(Single("$or", JArr(cs)))
              && |cs| == |args|
              && forall k :: 0 <= k < |cs| ==> NodeCondition(args[k]) == Ok(cs[k])
  {
    ItemConditionsOk(And(args), 0);
    ItemConditionsShape(And(args), 0);
    var cs := ItemConditions(And(args), 0).value;
    SameItemConditions(And(args), Or(args), 0);
    assert NodeCondition(And(args)) == Ok(Single("$and", JArr(cs)));
    assert NodeCondition(Or(args)) == Ok(Single("$or", JArr(cs)));
  }

  lemma {:induction false} SameItemConditions(g: FilterNode, h: FilterNode, i: nat)
    requires g.Group? && h.Group? && g.items == h.items && i <= |g.items|
    ensures ItemConditions(g, i) == ItemConditions(h, i)
    decreases |g.items| - i
  {
    if i < |g.items| {
      SameItemConditions(g, h, i + 1);
    }
  }

  /** Every filter that `filter_by` builds translates without error, since
      only EQ, GT, LT and IN can come out of its key parsing. */
  lemma FilterByTranslatable(kwargs: seq<(string, Json)>)
    ensures forall k :: 0 <= k < |kwargs| ==> NodeCondition(KwargFilters(kwargs)[k]).Ok?
  {
    forall k | 0 <= k < |kwargs|
      ensures NodeCondition(KwargFilters(kwargs)[k]).Ok?
    {
      SplitOperatorReachable(kwargs[k].0);
    }
  }

  // ---------------------------------------------------------------------
  // The whole query

  /** `_sort`: each `(field, dir)` becomes `(field, 1)` for ASC and
      `(field, -1)` for anything else, in order. */
  function SortSpec(orderBy: seq<(string, string)>): (r: seq<(string, int)>)
  {
    seq(|orderBy|, i requires 0 <= i < |orderBy| => (orderBy[i].0, if orderBy[i].1 == ASC then 1 else -1))
  }

  /** The sort list keeps the fields in order, and a field sorts ascending
      exactly when its direction is `ASC`. */
  lemma SortSpecDirections(orderBy: seq<(string, string)>)
    ensures |SortSpec(orderBy)| == |orderBy|
    ensures forall i :: 0 <= i < |orderBy| ==>
              && SortSpec(orderBy)[i].0 == orderBy[i].0
              && (SortSpec(orderBy)[i].1 == 1 <==> orderBy[i].1 == ASC)
              && (SortSpec(orderBy)[i].1 == -1 <==> orderBy[i].1 != ASC)
  {
  }

  /** Through `order_by("field dir")`, a field sorts ascending exactly when
      `dir` upper-cases to `ASC` (so `asc` does too), and a name with no
      direction sorts ascending; any other word, misspellings included, sorts
      descending. */
  lemma OrderByNameSortDirection(f: string, d: string)
    requires ' ' !in d
    ensures SortSpec([OrderEntry(Name(f + " " + d), None)])[0] == (f, if Strings.Upper(d) == ASC then 1 else -1)
    ensures ' ' !in f ==> SortSpec([OrderEntry(Name(f), None)])[0] == (f, 1)
  {
    OrderEntryForms(f, d);
  }

  /** Python truthiness of an offset or limit: neither None nor 0. */
  predicate Truthy(n: Option<int>)
  {
    n.Some? && n.value != 0
  }

  /** The document store's query object, whose attributes the translation
      sets. */
  class NativeQuery {
    var spec: Json
    var sort: seq<(string, int)>
    var skip: int
    var limit: int

    constructor (spec: Json, sort: seq<(string, int)>, skip: int, limit: int)
      ensures this.spec == spec && this.sort == sort && this.skip == skip && this.limit == limit
    {
      this.spec := spec;
      this.sort := sort;
      this.skip := skip;
      this.limit := limit;
    }
  }

  /** The condition for the query's top-level filter list, which is always
      combined under `$and`. */
  function TopCondition(filters: seq<FilterNode>): (r: Result<Json, MongoError>)
  {
    GroupCondition(Group(filters, AND), Some("$and"))
  }

  /** `_transform_query(q)` on the model's base query `pq`: each attribute is
      set only when the matching part of `q` is non-empty or truthy, so an
      offset or limit of 0 leaves the base query as it was. An untranslatable
      filter raises before anything is set. */
  method TransformQuery(q: Query, pq: NativeQuery) returns (r: Result<NativeQuery, MongoError>)
    modifies pq
    ensures r.Err? <==> |q.filters| > 0 && TopCondition(q.filters).Err?
    ensures r.Err? ==> r.error == TopCondition(q.filters).error && unchanged(pq)
    ensures r.Ok? ==> r.value == pq
    ensures r.Ok? ==> pq.spec == (if |q.filters| > 0 then TopCondition(q.filters).value else old(pq.spec))
    ensures r.Ok? ==> pq.sort == (if |q.orderBy| > 0 then SortSpec(q.orderBy) else old(pq.sort))
    ensures r.Ok? ==> pq.skip == (if Truthy(q.offset) then q.offset.value else old(pq.skip))
    ensures r.Ok? ==> pq.limit == (if Truthy(q.limit) then q.limit.value else old(pq.limit))
  {
    if |q.filters| > 0 {
      var spec := TransformFilterGroup(Group(q.filters, AND), Some("$and"));
      if spec.Err? {
        return Err(spec.error);
      }
      pq.spec := spec.value;
    }
    if |q.orderBy| > 0 {
      pq.sort := SortSpec(q.orderBy);
    }
    if Truthy(q.offset) {
      pq.skip := q.offset.value;
    }
    if Truthy(q.limit) {
      pq.limit := q.limit.value;
    }
    r := Ok(pq);
  }
}
