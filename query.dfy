/** The query builder and its filter algebra: single filters, AND/OR groups,
    the operator suffixes `filter_by` reads off keyword names, and the `Query`
    object whose every builder call returns a modified copy. */
module QueryBuilder {

  import opened Values
  import opened Strings

  // The operator symbols, in the order `filter_by` tries them.
  const EQ: string := "="
  const NE: string := "!="
  const GT: string := ">"
  const GTE: string := ">="
  const LT: string := "<"
  const LTE: string := "<="
  const IN: string := "in"
  const NIN: string := "nin"
  const Operators: seq<string> := [EQ, NE, GT, GTE, LT, LTE, IN, NIN]

  // Group combinators.
  const AND: string := "AND"
  const OR: string := "OR"

  // Sort directions.
  const ASC: string := "ASC"
  const DESC: string := "DESC"

  /** A `(field, value, operator)` triple. The operator is a plain string: any
      string may be passed to `Query.op`, and only a backend decides which ones
      it understands. */
  datatype QueryFilter = QueryFilter(field: string, value: Json, operator: string)

  /** An element of a filter list: a filter, or a group of elements tagged
      with its combinator (a `QueryFilterGroup`, which is a list). */
  datatype FilterNode =
    | Leaf(filter: QueryFilter)
    | Group(items: seq<FilterNode>, operator: string)

  /** The handle of a model class and of the backend a query belongs to. */
  datatype ModelRef = ModelRef(name: string)
  datatype BackendRef = BackendRef(name: string)

  /** `QueryFilterGroup(iter, operator=AND)` */
  function NewGroup(items: seq<FilterNode>, operator: string := AND): (r: FilterNode)
  {
    Group(items, operator)
  }

  /** `and_(*args)` */
  function And(args: seq<FilterNode>): (r: FilterNode)
  {
    NewGroup(args)
  }

  /** `or_(*args)` */
  function Or(args: seq<FilterNode>): (r: FilterNode)
  {
    NewGroup(args, OR)
  }

  /** `and_` and `or_` keep their arguments in order and differ only in the
      combinator; a group built without one is an AND group. */
  lemma CombinatorsBuildGroups(args: seq<FilterNode>)
    ensures And(args) == Group(args, AND) && Or(args) == Group(args, OR)
    ensures NewGroup(args) == And(args)
    ensures And(args) != Or(args)
  {
  }

  /** `QueryFilterGroup.from_dict(filters)`: one EQ filter per entry, appended
      in the dictionary's iteration order (given here as the order of `pairs`). */
  method FromDict(pairs: seq<(string, Json)>) returns (g: FilterNode)
    ensures g.Group? && g.operator == AND && |g.items| == |pairs|
    ensures forall i :: 0 <= i < |pairs| ==>
              g.items[i] == Leaf(QueryFilter(pairs[i].0, pairs[i].1, EQ))
  {
    var items: seq<FilterNode> := [];
    for i := 0 to |pairs|
      invariant |items| == i
      invariant forall k :: 0 <= k < i ==> items[k] == Leaf(QueryFilter(pairs[k].0, pairs[k].1, EQ))
    {
      items := items + [Leaf(QueryFilter(pairs[i].0, pairs[i].1, EQ))];
    }
    g := NewGroup(items);
  }

  /** `QueryFilter.__repr__`: field, operator and value run together.
      `show` stands for Python's `str` of the value. */
  function FilterRepr(f: QueryFilter, show: Json -> string): (r: string)
  {
    f.field + f.operator + show(f.value)
  }

  /** `QueryFilterGroup.__repr__`: the children's reprs joined by the
      combinator with a space on each side, with no parentheses. */
  function Repr(n: FilterNode, show: Json -> string): (r: string)
    decreases n, if n.Group? then |n.items| + 1 else 0
  {
    match n
    case Leaf(f) => FilterRepr(f, show)
    case Group(_, _) => JoinFrom(n, 0, show)
  }

  /** The repr of the children of group `g` from index `i` on. */
  function JoinFrom(g: FilterNode, i: nat, show: Json -> string): (r: string)
    requires g.Group? && i <= |g.items|
    decreases g, |g.items| - i
  {
    if i == |g.items| then ""
    else if i == |g.items| - 1 then Repr(g.items[i], show)
    else Repr(g.items[i], show) + " " + g.operator + " " + JoinFrom(g, i + 1, show)
  }

  /** A one-element group prints as its element: the combinator is invisible. */
  lemma ReprOfSingleton(n: FilterNode, op: string, show: Json -> string)
    ensures Repr(Group([n], op), show) == Repr(n, show)
  {
  }

  /** Because nested groups are printed without parentheses, the repr forgets
      the nesting: `(a OR b) AND c` and `a OR (b AND c)` print alike. */
  lemma ReprForgetsNesting(a: QueryFilter, b: QueryFilter, c: QueryFilter, show: Json -> string)
    ensures And([Or([Leaf(a), Leaf(b)]), Leaf(c)]) != Or([Leaf(a), And([Leaf(b), Leaf(c)])])
    ensures Repr(And([Or([Leaf(a), Leaf(b)]), Leaf(c)]), show)
         == Repr(Or([Leaf(a), And([Leaf(b), Leaf(c)])]), show)
  {
    var ra, rb, rc := FilterRepr(a, show), FilterRepr(b, show), FilterRepr(c, show);
    var ab := Or([Leaf(a), Leaf(b)]);
    var bc := And([Leaf(b), Leaf(c)]);
    var left := And([ab, Leaf(c)]);
    var right := Or([Leaf(a), bc]);
    assert JoinFrom(ab, 1, show) == rb;
    assert JoinFrom(ab, 0, show) == ra + " " + OR + " " + rb;
    assert Repr(ab, show) == ra + " " + OR + " " + rb;
    assert JoinFrom(left, 1, show) == rc;
    assert Repr(left, show) == (ra + " " + OR + " " + rb) + " " + AND + " " + rc;
    assert JoinFrom(bc, 1, show) == rc;
    assert Repr(bc, show) == rb + " " + AND + " " + rc;
    assert JoinFrom(right, 1, show) == rb + " " + AND + " " + rc;
    assert JoinFrom(right, 0, show) == ra + " " + OR + " " + (rb + " " + AND + " " + rc);
    assert Repr(right, show) == ra + " " + OR + " " + (rb + " " + AND + " " + rc);
  }

  // ---------------------------------------------------------------------
  // Operator suffixes read by `filter_by`

  /** The index of the first operator, from index `j` on, that `key` ends
      with, or `|Operators|` when there is none. */
  function FirstMatch(key: string, j: nat): (k: nat)
    requires j <= |Operators|
    ensures j <= k <= |Operators|
    ensures k < |Operators| ==> EndsWith(key, Operators[k])
    ensures forall m :: j <= m < k ==> !EndsWith(key, Operators[m])
    decreases |Operators| - j
  {
    if j == |Operators| then j
    else if EndsWith(key, Operators[j]) then j
    else
      var k := FirstMatch(key, j + 1);
      assert forall m :: j + 1 <= m < k ==> !EndsWith(key, Operators[m]);
      k
  }

  /** The field and operator `filter_by` reads from a keyword name: the first
      operator in list order that the name ends with is cut off and the rest
      right-stripped; a name that ends with none is an EQ filter on itself. */
  function SplitOperator(key: string): (r: (string, string))
  {
    var k := FirstMatch(key, 0);
    if k == |Operators| then (key, EQ)
    else (RStrip(key[..|key| - |Operators[k]|]), Operators[k])
  }

  /** First match wins: the result is the earliest operator in list order that
      the key ends with, and EQ on the whole key when none fits. */
  lemma SplitOperatorFirstMatch(key: string)
    ensures forall k :: 0 <= k < |Operators| && EndsWith(key, Operators[k])
              && (forall m :: 0 <= m < k ==> !EndsWith(key, Operators[m]))
              ==> SplitOperator(key) == (RStrip(key[..|key| - |Operators[k]|]), Operators[k])
    ensures (forall k :: 0 <= k < |Operators| ==> !EndsWith(key, Operators[k]))
              ==> SplitOperator(key) == (key, EQ)
  {
    var k0 := FirstMatch(key, 0);
    forall k | 0 <= k < |Operators| && EndsWith(key, Operators[k])
        && (forall m :: 0 <= m < k ==> !EndsWith(key, Operators[m]))
      ensures SplitOperator(key) == (RStrip(key[..|key| - |Operators[k]|]), Operators[k])
    {
      assert k0 == k;
    }
  }

  /** Because EQ is tried first, every key ending in `=` (so also `!=`, `>=`
      and `<=`) is an EQ filter, with the rest of the symbol left on the field. */
  lemma EqShadowsLongerOperators(key: string)
    requires EndsWith(key, EQ)
    ensures SplitOperator(key) == (RStrip(key[..|key| - 1]), EQ)
  {
  }

  /** Because `in` is tried before `nin`, every key ending in `in` (so also
      `nin`, or a plain name such as `domain`) is an IN filter. */
  lemma InShadowsNin(key: string)
    requires EndsWith(key, IN)
    ensures SplitOperator(key) == (RStrip(key[..|key| - 2]), IN)
  {
    assert key[|key| - 1] == 'n';
    assert FirstMatch(key, 0) == 6;
  }

  /** The concrete consequences of EQ being tried first: `!=` and `>=` keys
      give EQ, and a key with no operator is EQ on itself. */
  lemma SplitOperatorEqQuirks()
    ensures SplitOperator("age !=") == ("age !", EQ)
    ensures SplitOperator("age>=") == ("age>", EQ)
    ensures SplitOperator("age") == ("age", EQ)
  {
    EqShadowsLongerOperators("age !=");
    assert "age !="[..5] == "age !";
    EqShadowsLongerOperators("age>=");
    assert "age>="[..4] == "age>";
    assert FirstMatch("age", 0) == |Operators|;
  }

  /** The concrete consequences of `in` being tried before `nin`: `x nin`
      gives IN on `x n`, and `domain` gives IN on `doma`. */
  lemma SplitOperatorInQuirks()
    ensures SplitOperator("x nin") == ("x n", IN)
    ensures SplitOperator("domain") == ("doma", IN)
  {
    InShadowsNin("x nin");
    assert "x nin"[..3] == "x n";
    InShadowsNin("domain");
    assert "domain"[..4] == "doma";
  }

  /** Only four of the eight operators can come out of `filter_by`. */
  lemma SplitOperatorReachable(key: string)
    ensures SplitOperator(key).1 in {EQ, GT, LT, IN}
  {
    var k := FirstMatch(key, 0);
    if k == 1 || k == 3 || k == 5 {
      EndsWithTail(key, Operators[k], EQ);
      assert false;
    } else if k == 7 {
      EndsWithTail(key, NIN, IN);
      assert false;
    }
  }

  /** A key that ends with `s` ends with every suffix of `s`. */
  lemma EndsWithTail(key: string, s: string, t: string)
    requires EndsWith(key, s) && EndsWith(s, t)
    ensures EndsWith(key, t)
  {
    assert key[|key| - |t|..] == s[|s| - |t|..];
  }

  /** For the four reachable operators, appending the symbol to a field with no
      trailing white space and splitting it again gives back field and
      operator. */
  lemma SplitOperatorRoundTrip(field: string, op: string)
    requires op in {EQ, GT, LT, IN}
    requires RStrip(field) == field
    ensures SplitOperator(field + op) == (field, op)
  {
    var key := field + op;
    assert key[..|key| - |op|] == field;
    assert EndsWith(key, op);
    var last := key[|key| - 1];
    assert last == op[|op| - 1];
    if op == EQ {
      FirstMatchHit(key, 0);
    } else if op == GT {
      NotEndsWith(key, Operators[0]);
      NotEndsWith(key, Operators[1]);
      FirstMatchSkip(key, 0);
      FirstMatchSkip(key, 1);
      FirstMatchHit(key, 2);
    } else if op == LT {
      NotEndsWith(key, Operators[0]);
      NotEndsWith(key, Operators[1]);
      NotEndsWith(key, Operators[2]);
      NotEndsWith(key, Operators[3]);
      FirstMatchSkip(key, 0);
      FirstMatchSkip(key, 1);
      FirstMatchSkip(key, 2);
      FirstMatchSkip(key, 3);
      FirstMatchHit(key, 4);
    } else {
      NotEndsWith(key, Operators[0]);
      NotEndsWith(key, Operators[1]);
      NotEndsWith(key, Operators[2]);
      NotEndsWith(key, Operators[3]);
      NotEndsWith(key, Operators[4]);
      NotEndsWith(key, Operators[5]);
      FirstMatchSkip(key, 0);
      FirstMatchSkip(key, 1);
      FirstMatchSkip(key, 2);
      FirstMatchSkip(key, 3);
      FirstMatchSkip(key, 4);
      FirstMatchSkip(key, 5);
      FirstMatchHit(key, 6);
    }
  }

  lemma FirstMatchSkip(key: string, j: nat)
    requires j < |Operators| && !EndsWith(key, Operators[j])
    ensures FirstMatch(key, j) == FirstMatch(key, j + 1)
  {
  }

  lemma FirstMatchHit(key: string, j: nat)
    requires j < |Operators| && EndsWith(key, Operators[j])
    ensures FirstMatch(key, j) == j
  {
  }

  /** A key cannot end with a symbol whose last character differs from its own. */
  lemma NotEndsWith(key: string, sym: string)
    requires |key| > 0 && |sym| > 0 && key[|key| - 1] != sym[|sym| - 1]
    ensures !EndsWith(key, sym)
  {
  }

  /** The inner loop of `filter_by`: try the operators in list order and stop
      at the first one the key ends with. */
  method ReadKey(key: string) returns (field: string, operator: string)
    ensures (field, operator) == SplitOperator(key)
  {
    field, operator := key, EQ;
    var j := 0;
    while j < |Operators|
      invariant 0 <= j <= |Operators|
      invariant FirstMatch(key, j) == FirstMatch(key, 0)
      invariant field == key && operator == EQ
    {
      if EndsWith(field, Operators[j]) {
        operator := Operators[j];
        field := RStrip(field[..|field| - |Operators[j]|]);
        return;
      }
      j := j + 1;
    }
  }

  /** The filter `filter_by` appends for one `key=value` entry. */
  function KwargFilter(kv: (string, Json)): (r: FilterNode)
  {
    var (field, operator) := SplitOperator(kv.0);
    Leaf(QueryFilter(field, kv.1, operator))
  }

  /** The filters `filter_by` appends for its keyword arguments, in order. */
  function KwargFilters(kwargs: seq<(string, Json)>): (r: seq<FilterNode>)
  {
    MapSeq(KwargFilter, kwargs)
  }

  /** `f` applied to every element of `s`, in order. */
  function MapSeq<A, B>(f: A -> B, s: seq<A>): (r: seq<B>)
    ensures |r| == |s|
    ensures forall k :: 0 <= k < |s| ==> r[k] == f(s[k])
  {
    seq(|s|, k requires 0 <= k < |s| => f(s[k]))
  }

  /** Extending the input by one element extends the image by its image. */
  lemma MapSeqSnoc<A, B>(f: A -> B, s: seq<A>, i: nat)
    requires i < |s|
    ensures MapSeq(f, s[..i + 1]) == MapSeq(f, s[..i]) + [f(s[i])]
  {
    var a, b := MapSeq(f, s[..i + 1]), MapSeq(f, s[..i]);
    forall k | 0 <= k < |b|
      ensures a[k] == b[k]
    {
      assert s[..i + 1][k] == s[..i][k];
    }
    assert s[..i + 1][i] == s[i];
  }

  /** One pass of `filter_by`'s outer loop: the filter for the `i`-th
      `key=value` entry, the one that extends the filters of the entries
      before it to those of the entries up to it. */
  method ReadFilter(kwargs: seq<(string, Json)>, i: nat) returns (node: FilterNode)
    requires i < |kwargs|
    ensures KwargFilters(kwargs[..i + 1]) == KwargFilters(kwargs[..i]) + [node]
  {
    var field, operator := ReadKey(kwargs[i].0);
    node := Leaf(QueryFilter(field, kwargs[i].1, operator));
    MapSeqSnoc(KwargFilter, kwargs, i);
  }

  // ---------------------------------------------------------------------
  // order_by arguments

  /** The first argument of `order_by`: None, a `(field, direction)` tuple, or
      a field name that may carry a direction after its last space. */
  datatype OrderArg = NoField | Pair(field: string, direction: string) | Name(name: string)

  /** The `(field, DIRECTION)` pair `order_by` appends. An explicit direction
      wins; otherwise a tuple is unpacked, a name is split at its last space,
      and a bare name sorts ascending. The direction is upper-cased. */
  function OrderEntry(field: OrderArg, direction: Option<string>): (r: (string, string))
    requires !field.NoField?
    requires !(field.Pair? && direction.Some?)
  {
    var (f, d) :=
      if direction.Some? then (field.name, direction.value)
      else match field
        case Pair(f, d) => (f, d)
        case Name(n) => if ' ' in n then RSplitSpace(n) else (n, ASC);
    (f, Upper(d))
  }

  /** What `order_by` records for each form of its arguments. */
  lemma OrderEntryForms(f: string, d: string)
    ensures ' ' !in d ==> OrderEntry(Name(f + " " + d), None) == (f, Upper(d))
    ensures ' ' !in f ==> OrderEntry(Name(f), None) == (f, ASC)
    ensures OrderEntry(Pair(f, d), None) == (f, Upper(d))
    ensures OrderEntry(Name(f), Some(d)) == (f, Upper(d))
  {
    if ' ' !in d {
      RSplitSpaceOf(f, d);
    }
    if ' ' !in f {
      assert Upper(ASC) == ASC;
    }
  }

  /** The part of a query that `clone` copies. */
  datatype QueryState = QueryState(
    fields: seq<string>,
    filters: seq<FilterNode>,
    orderBy: seq<(string, string)>,
    offset: Option<int>,
    limit: Option<int>)

  /** A query on one model. No method changes its receiver: each clones the
      query and changes only the copy. */
  class Query {
    const model: ModelRef
    const backend: Option<BackendRef>
    var fields: seq<string>
    var filters: seq<FilterNode>
    var orderBy: seq<(string, string)>
    var offset: Option<int>
    var limit: Option<int>

    function State(): (r: QueryState)
      reads this
    {
      QueryState(fields, filters, orderBy, offset, limit)
    }

    /** `Query(model, backend=None)`: no fields, filters or ordering, no
        offset or limit. */
    constructor (model: ModelRef, backend: Option<BackendRef>)
      ensures this.model == model && this.backend == backend
      ensures State() == QueryState([], [], [], None, None)
    {
      this.model := model;
      this.backend := backend;
      fields := [];
      filters := [];
      orderBy := [];
      offset := None;
      limit := None;
    }

    /** `Query.op(field, operator, value)`: a filter built from its parts. For
        the four operators `filter_by` can produce, it is the filter that
        `filter_by` builds from the key `field + operator`. */
    static function Op(field: string, operator: string, value: Json): (f: QueryFilter)
      ensures operator in {EQ, GT, LT, IN} && RStrip(field) == field ==>
                KwargFilters([(field + operator, value)]) == [Leaf(f)]
    {
      if operator in {EQ, GT, LT, IN} && RStrip(field) == field then
        SplitOperatorRoundTrip(field, operator);
        QueryFilter(field, value, operator)
      else
        QueryFilter(field, value, operator)
    }

    /** `clone()`: a new query on the same model and backend with the same
        state; the lists are copied, so the two never share one. */
    method Clone() returns (q: Query)
      ensures fresh(q)
      ensures q.model == model && q.backend == backend && q.State() == State()
    {
      q := new Query(model, backend);
      q.fields := fields;
      q.filters := filters;
      q.orderBy := orderBy;
      q.offset := offset;
      q.limit := limit;
    }

    /** `select(*args)`: replaces the selected fields only. */
    method Select(args: seq<string>) returns (q: Query)
      ensures fresh(q) && unchanged(this)
      ensures q.model == model && q.backend == backend
      ensures q.State() == State().(fields := args)
    {
      q := Clone();
      q.fields := args;
    }

    /** `filter(*args)`: appends the given filters and groups, in order. */
    method Filter(args: seq<FilterNode>) returns (q: Query)
      ensures fresh(q) && unchanged(this)
      ensures q.model == model && q.backend == backend
      ensures q.State() == State().(filters := filters + args)
    {
      q := Clone();
      for i := 0 to |args|
        invariant q.model == model && q.backend == backend
        invariant q.State() == State().(filters := filters + args[..i])
      {
        q.filters := q.filters + [args[i]];
      }
      assert args[..|args|] == args;
    }

    /** `filter_by(**filters)`: one filter per keyword entry, in order, with
        field and operator read from the key as `SplitOperator` does. */
    method FilterBy(kwargs: seq<(string, Json)>) returns (q: Query)
      ensures fresh(q) && unchanged(this)
      ensures q.model == model && q.backend == backend
      ensures q.State() == State().(filters := filters + KwargFilters(kwargs))
    {
      q := Clone();
      for i := 0 to |kwargs|
        invariant q.model == model && q.backend == backend
        invariant q.State() == State().(filters := filters + KwargFilters(kwargs[..i]))
      {
        var node := ReadFilter(kwargs, i);
        q.filters := q.filters + [node];
      }
      assert kwargs[..|kwargs|] == kwargs;
    }

    /** `order_by(field, direction=None)`: appends one `(field, DIRECTION)`
        pair to a copy. `order_by(None)` empties the copy's ordering but
        returns None rather than the copy. */
    method OrderBy(field: OrderArg, direction: Option<string>) returns (q: Query?)
      requires !(field.Pair? && direction.Some?)
      ensures unchanged(this)
      ensures field.NoField? ==> q == null
      ensures !field.NoField? ==>
                q != null && fresh(q) && q.model == model && q.backend == backend
                && q.State() == State().(orderBy := orderBy + [OrderEntry(field, direction)])
    {
      var c := Clone();
      if field.NoField? {
        c.orderBy := [];
        return null;
      }
      c.orderBy := c.orderBy + [OrderEntry(field, direction)];
      q := c;
    }

    /** The evident intent of `order_by(None)`: a copy whose ordering is empty. */
    method ClearOrderBy() returns (q: Query)
      ensures fresh(q) && unchanged(this)
      ensures q.model == model && q.backend == backend
      ensures q.State() == State().(orderBy := [])
    {
      q := Clone();
      q.orderBy := [];
    }

    /** `offset(offset)`: replaces the offset only. */
    method Offset(n: Option<int>) returns (q: Query)
      ensures fresh(q) && unchanged(this)
      ensures q.model == model && q.backend == backend
      ensures q.State() == State().(offset := n)
    {
      q := Clone();
      q.offset := n;
    }

    /** `limit(limit)`: replaces the limit only. */
    method Limit(n: Option<int>) returns (q: Query)
      ensures fresh(q) && unchanged(this)
      ensures q.model == model && q.backend == backend
      ensures q.State() == State().(limit := n)
    {
      q := Clone();
      q.limit := n;
    }
  }

  /** Builder calls compose: two `filter` calls in a row append both argument
      lists, in call order, and leave the original query as it was. */
  method FilterTwice(q: Query, a: seq<FilterNode>, b: seq<FilterNode>) returns (r: Query)
    ensures fresh(r) && unchanged(q)
    ensures r.model == q.model && r.filters == q.filters + a + b
    ensures r.State() == q.State().(filters := q.filters + a + b)
  {
    var r1 := q.Filter(a);
    r := r1.Filter(b);
  }
}
