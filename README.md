# frasco-models, modelled in Dafny

frasco-models is the model layer of the frasco web framework. Application
code builds a backend-independent `Query` (filters, ordering, offset, limit)
and a backend turns it into a native query. This project models the core of
that layer and proves properties of it:

- `query.dfy` (module `QueryBuilder`): filters and AND/OR filter groups,
  `and_`/`or_`, `from_dict`, the group `__repr__`, and the immutable `Query`
  class whose methods (`select`, `filter`, `filter_by`, `order_by`,
  `offset`, `limit`, `clone`) each return a fresh copy. The class keeps its
  fields as `var`s and every method is proved to leave its receiver
  unchanged. `filter_by`'s suffix parsing is modelled with its real quirks:
  the first operator in list order wins, so keys ending in `!=`, `>=` or
  `<=` give EQ filters, and `x nin` and `domain` give IN filters.
- `pagination.dfy` (module `Utils`): the `Pagination` arithmetic and the
  `iter_pages` loop with its `None` gap markers. The loop is proved equal
  to a recursive definition, and that definition's exact shape is proved.
- `persistpy.dfy` (module `Persistpy`): the document-store backend's
  translation of a query. Filters map through the operator table. Groups
  become nested `$and`/`$or` maps, built by a recursive loop. The ordering
  becomes `±1` sort pairs. Skip and limit are set only when truthy.
- `models.dfy` (module `Models`): the `ModelsFeature` registry
  (`ensure_model`, `[]`, `[]=`, `in`, `query`), `scoped_query`, the bounds
  and offset logic of `paginate`, and the backend lookup of
  `get_backend_class`. The backend is foreign code. The class
  `ModelBackend` stands in for it: it logs the `ensure_model` and
  `ensure_schema` calls it receives, and takes the models it makes and the
  row counts it reports as given functions.
- `strings.dfy` (module `Strings`) and `values.dfy` (module `Values`) hold
  the Python string operations the core uses, plus `Option`, `Result` and a
  `Json` datatype. `Json` stands for the Python values that filters, field
  specifications and native queries carry.

With `check_bounds` set, `paginate` refuses a page below 1 or past the last
page (`frasco_models/__init__.py:138`). An empty result has 0 pages, so every
page is refused, page 1 included (`Models.PageCheckAccepts`).

## Model

| member | source | states |
|---|---|---|
| `Strings.RStrip` | frasco_models/query.py:104 | the result is a prefix of the input that does not end in white space, and everything it drops is white space |
| `Strings.Upper` | frasco_models/query.py:126 | upper-casing keeps the length, leaves no lower-case letter, turns each of `a`..`z` into its capital and leaves every other character as it is |
| `Strings.UpperIdempotent` | frasco_models/query.py:126 | upper-casing twice is upper-casing once |
| `Strings.RSplitSpace` | frasco_models/query.py:121-122 | the two parts, joined by a space, give back the input, and the right part holds no space |
| `Strings.RSplitSpaceOf` | frasco_models/query.py:121-122 | the split is at the last space: `f + " " + d`, where `d` has no space, splits into `f` and `d` whatever `f` holds |
| `QueryBuilder.CombinatorsBuildGroups` | frasco_models/query.py:36-51 | `and_` builds an AND group and `or_` an OR group, each holding its arguments in order, and a group built without an operator is an AND group |
| `QueryBuilder.FromDict` | frasco_models/query.py:29-34 | `from_dict` gives an AND group with one filter per entry, in order, each using the default `=` operator |
| `QueryBuilder.ReprOfSingleton` | frasco_models/query.py:42-43 | a one-element group prints as its element |
| `QueryBuilder.ReprForgetsNesting` | frasco_models/query.py:42-43 | `(a OR b) AND c` and `a OR (b AND c)` are different trees that print the same way, so `__repr__` cannot be parsed back |
| `QueryBuilder.FirstMatch` | frasco_models/query.py:101-102 | the index found is that of an operator the key ends with, and no earlier operator in list order matches |
| `QueryBuilder.SplitOperatorFirstMatch` | frasco_models/query.py:99-106 | `filter_by` cuts off the first operator in list order that the key ends with and right-strips the rest; a key that ends with none is an EQ filter on itself |
| `QueryBuilder.EqShadowsLongerOperators` | frasco_models/query.py:101-105 | every key ending in `=` (so also `!=`, `>=`, `<=`) is an EQ filter, with the rest of the symbol left on the field |
| `QueryBuilder.InShadowsNin` | frasco_models/query.py:101-105 | every key ending in `in` (so also `nin`, and a plain name such as `domain`) is an IN filter |
| `QueryBuilder.SplitOperatorEqQuirks` | frasco_models/query.py:99-106 | `age !=` gives EQ on `age !`, `age>=` gives EQ on `age>`, and `age` gives EQ on `age` |
| `QueryBuilder.SplitOperatorInQuirks` | frasco_models/query.py:99-106 | `x nin` gives IN on `x n` and `domain` gives IN on `doma` |
| `QueryBuilder.SplitOperatorReachable` | frasco_models/query.py:101-105 | only EQ, GT, LT and IN can come out of `filter_by` |
| `QueryBuilder.SplitOperatorRoundTrip` | frasco_models/query.py:99-106 | for those four operators, a field without trailing white space followed by the symbol parses back to the field and the operator |
| `QueryBuilder.EndsWithTail` | frasco_models/query.py:101 | a key that ends with a symbol ends with every suffix of it (why `!=` never reaches its own entry) |
| `QueryBuilder.OrderEntryForms` | frasco_models/query.py:117-126 | a `"field dir"` name is split at its last space, a tuple is unpacked, a bare name sorts `ASC`, an explicit direction wins, and the direction is upper-cased |
| `QueryBuilder.Query.constructor` | frasco_models/query.py:68-75 | a new query has the given model and backend, and no fields, filters, ordering, offset or limit |
| `QueryBuilder.Query.Op` | frasco_models/query.py:109-110 | `op(field, operator, value)`, for a reachable operator (EQ, GT, LT or IN) and a field with no trailing white space, is the filter `filter_by` builds from the key `field + operator` |
| `QueryBuilder.Query.Clone` | frasco_models/query.py:134-148 | a fresh query on the same model and backend with the same state |
| `QueryBuilder.Query.Select` | frasco_models/query.py:88-89 | a fresh copy whose fields are the arguments, all else copied, the receiver unchanged |
| `QueryBuilder.Query.Filter` | frasco_models/query.py:91-95 | a fresh copy whose filters are the receiver's followed by the arguments in order, the receiver unchanged |
| `QueryBuilder.ReadKey` | frasco_models/query.py:100-105 | the inner operator loop cuts off the first operator in list order that the key ends with and right-strips the rest, as the field/operator split defines |
| `QueryBuilder.ReadFilter` | frasco_models/query.py:99-106 | the filter built for the `i`-th keyword is the one that extends the filters of the keywords before it |
| `QueryBuilder.MapSeqSnoc` | frasco_models/query.py:99-106 | appending one keyword appends exactly its own filter |
| `QueryBuilder.Query.FilterBy` | frasco_models/query.py:97-107 | a fresh copy with one parsed filter appended per keyword, in order, the receiver unchanged |
| `QueryBuilder.Query.OrderBy` | frasco_models/query.py:112-126 | `order_by(None)` returns None; otherwise a fresh copy with exactly one `(field, DIRECTION)` entry appended, the receiver unchanged |
| `QueryBuilder.Query.ClearOrderBy` | frasco_models/query.py:113-115 | the copy `order_by(None)` builds and then drops: its ordering is empty and all else is copied |
| `QueryBuilder.Query.Offset` | frasco_models/query.py:128-129 | a fresh copy with only the offset replaced, the receiver unchanged |
| `QueryBuilder.Query.Limit` | frasco_models/query.py:131-132 | a fresh copy with only the limit replaced, the receiver unchanged |
| `QueryBuilder.FilterTwice` | frasco_models/query.py:91-95 | two `filter` calls compose: the second copy holds both argument lists in order, and the first receiver is untouched |
| `Utils.Pagination.NbPages` | frasco_models/utils.py:31 | the number of pages is the ceiling of `total / per_page`: the smallest `n` with `total <= n * per_page` |
| `Utils.CeilDiv` | frasco_models/utils.py:31 | integer ceiling division: `(n - 1) * b < a <= n * b` |
| `Utils.NbPagesExamples` | frasco_models/utils.py:31-35 | 95 rows at 10 a page make 10 pages, 0 rows make 0, and page 10 starts at offset 90 |
| `Utils.OffsetWithinTotal` | frasco_models/utils.py:33-43 | an in-range page starts inside the result, and the next page starts one page further on |
| `Utils.Pagination.Prev` | frasco_models/utils.py:45-49 | there is a previous pagination exactly when `page > 1`, and it is this one with the page moved back by one |
| `Utils.Pagination.Next` | frasco_models/utils.py:51-55 | there is a next pagination exactly when `page < nb_pages`, and it is this one with the page moved on by one |
| `Utils.PrevNextInverse` | frasco_models/utils.py:37-55 | `next` then `prev`, and `prev` then `next`, give back the same pagination on in-range pages |
| `Utils.Pagination.IterPages` | frasco_models/utils.py:59-70 | the loop yields exactly the recursive link sequence for its window |
| `Utils.LinksFromLinked` | frasco_models/utils.py:61-70 | the links read as pages, each directly following the previous or preceded by one gap |
| `Utils.LinksFromMembers` | frasco_models/utils.py:62-66 | a page number appears iff it is in range and shown by the window |
| `Utils.LinkedGapsBeforePages` | frasco_models/utils.py:67-69 | every gap is followed by a page: no two gaps in a row and no gap at the end |
| `Utils.LinkedIncreasing` | frasco_models/utils.py:62-70 | page numbers increase strictly |
| `Utils.LinkedStart` | frasco_models/utils.py:61-70 | the output after page `last` begins with page `last + 1`, or with a gap followed by a later page |
| `Utils.LinkedJumps` | frasco_models/utils.py:67-70 | a gap stands only between two pages whose numbers jump |
| `Utils.LinkedAdjacent` | frasco_models/utils.py:67-70 | two pages with no gap between them are consecutive numbers |
| `Utils.LinksShape` | frasco_models/utils.py:59-70 | the pages shown are exactly the in-range pages with `num <= left_edge`, or `page - left_current - 1 < num < page + right_current`, or `num > nb_pages - right_edge`, in increasing order; gaps sit exactly at the jumps; the output starts with a gap iff page 1 is not shown |
| `Utils.IterPagesExample` | frasco_models/utils.py:59-70 | page 10 of 20 with the default window gives `1, 2, None, 8 … 14, None, 19, 20` |
| `Persistpy.FilterTranslationTable` | frasco_models/backends/persistpy.py:75-85 | `=` gives `{field: v}`; the other seven symbols give `{field: {$op: v}}` with `$ne`, `$gt`, `$gte`, `$lt`, `$lte`, `$in`, `$nin`, wrapping the value in a list for `in` only; any other operator is an error |
| `Persistpy.TransformFilterGroup` | frasco_models/backends/persistpy.py:64-73 | the loop with its recursion computes the group's condition, including which error comes first |
| `Persistpy.GroupConditionShape` | frasco_models/backends/persistpy.py:64-73 | a group's condition is a one-key map from its combinator to a list with one condition per child, in child order; the combinator is the one passed in, else `$or` iff the group is OR |
| `Persistpy.ItemConditionsShape` | frasco_models/backends/persistpy.py:66-70 | the condition list from child `i` on has one entry per remaining child, each that child's own condition |
| `Persistpy.NodeConditionOk` | frasco_models/backends/persistpy.py:64-85 | translation of a tree fails exactly when some filter, at any depth, uses an operator outside the table |
| `Persistpy.ItemConditionsOk` | frasco_models/backends/persistpy.py:66-70 | the children translate exactly when each of them is translatable |
| `Persistpy.CombinatorsTranslate` | frasco_models/backends/persistpy.py:67-73 | nested `and_` and `or_` groups translate under `$and` and `$or`, with the same child conditions in argument order |
| `Persistpy.FilterByTranslatable` | frasco_models/backends/persistpy.py:79-85 | every filter `filter_by` produces translates without error |
| `Persistpy.SortSpecDirections` | frasco_models/backends/persistpy.py:57 | the sort list keeps the fields in order, and a field gets 1 iff its direction is `ASC`, else -1 |
| `Persistpy.OrderByNameSortDirection` | frasco_models/backends/persistpy.py:57 | through `order_by("field dir")`, a field sorts ascending iff `dir` upper-cases to `ASC`, so any other word sorts descending; a bare name sorts ascending |
| `Persistpy.NativeQuery.constructor` | frasco_models/backends/persistpy.py:53 | the base query holds the given spec, sort, skip and limit |
| `Persistpy.TransformQuery` | frasco_models/backends/persistpy.py:52-62 | an untranslatable filter raises before anything is set; otherwise the spec (under `$and`), sort, skip and limit are set only when the filters or ordering are non-empty or the offset or limit is truthy, so 0 leaves the base value |
| `Models.ModelBackend.constructor` | frasco_models/__init__.py:22-23 | a new backend has received no calls |
| `Models.ModelBackend.EnsureModel` | frasco_models/__init__.py:74 | the backend's model for the name is returned, and the call is logged |
| `Models.ModelBackend.EnsureSchema` | frasco_models/__init__.py:79 | the call is logged with the name and the field specifications |
| `Models.NormalizedSpecsShape` | frasco_models/__init__.py:75-78 | normalizing keeps the keys, makes every specification a dict, leaves dicts alone, puts any other value under `type`, and is idempotent |
| `Models.NormalizeFieldSpecs` | frasco_models/__init__.py:76-78 | the rewriting loop yields the normalized specifications |
| `Models.ScopeNames` | frasco_models/__init__.py:98-99 | no scope, or an empty name, applies nothing; a non-empty single name is applied alone, and a list of names is applied as given |
| `Models.ScopeFiltersResult` | frasco_models/__init__.py:100-103 | applying scopes fails exactly when some name has no scope, and then it names the first one; otherwise it adds one filter per scope keyword |
| `Models.ScopeFiltersAppend` | frasco_models/__init__.py:100-103 | applying `a` and then `b` is applying `a + b` |
| `Models.ScopedQueryFinding` | frasco_models/__init__.py:97-103 | as written a scoped query never gets a filter; a one-keyword scope raises as written but filters as intended, and so does a model given by name while context scopes exist |
| `Models.AsWrittenAddsNothing` | frasco_models/__init__.py:103 | as written, the scope loop adds no filter whenever it succeeds |
| `Models.PageCheck` | frasco_models/__init__.py:137-139 | the page is the one built from page, per-page and total, and a refusal is `PageOutOfBoundError` |
| `Models.PageCheckAccepts` | frasco_models/__init__.py:137-139 | with `check_bounds`, a page is accepted iff it holds at least one row, and its offset then lies inside the result; an empty result refuses every page; without `check_bounds` every page is accepted |
| `Models.BackendCandidates` | frasco_models/__init__.py:55 | the candidates are exactly the module's classes that subclass `Backend` |
| `Models.GetBackendClassResult` | frasco_models/__init__.py:44-64 | the lookup succeeds iff the name, or else its form under `frasco_models.backends.`, is a module with exactly one backend class or is a backend class; the result is then a backend class from it, and every error names the name as given |
| `Models.ModuleCandidateCount` | frasco_models/__init__.py:53-60 | a module with two backend classes and one with none are refused; one backend class under the package-qualified name is found |
| `Models.ModelsFeature.constructor` | frasco_models/__init__.py:16-26 | the registry starts empty; the options default to no scopes and 10 rows per page |
| `Models.ModelsFeature.EnsureModel` | frasco_models/__init__.py:70-80 | the name is a class's `__name__` or the string; the backend is asked only for an unknown name, and the registry grows by that one entry; `ensure_schema` gets the normalized specifications iff any fields are given; the registered model is returned |
| `Models.ModelsFeature.GetItem` | frasco_models/__init__.py:82-83 | `models[name]` is `ensure_model(name)` with no fields |
| `Models.ModelsFeature.SetItem` | frasco_models/__init__.py:85-86 | the registry maps the name to the given model, and nothing else changes |
| `Models.ModelsFeature.NewQuery` | frasco_models/__init__.py:91-92 | an empty query on the registered model and the feature's backend |
| `Models.ModelsFeature.ScopedQuery` | frasco_models/__init__.py:94-104 | the model is registered first; the query carries the context scope's filters and then each named scope's, in order; an unknown scope name raises `QueryError` naming the first one |
| `Models.ModelsFeature.ApplyScopes` | frasco_models/__init__.py:98-103 | the scope loop fails exactly when some name has no scope, with the first such name; otherwise the query gains each scope's filters in order and nothing else changes |
| `Models.ScopeFiltersStep` | frasco_models/__init__.py:100-103 | one pass of the scope loop: a missing scope raises, a present one moves its filters onto the query |
| `Models.ModelsFeature.Paginate` | frasco_models/__init__.py:131-140 | refused iff bounds are checked and the page is below 1 or past the last page; otherwise a fresh query with offset `(page - 1) * per_page` and limit `per_page`, the page object, and `per_page` defaulting to the option |
| `Models.ModelsFeature.EnsureModelTwice` | frasco_models/__init__.py:73-80 | asking twice gives the same model and calls the backend at most once; for a registered name, not at all |
| `Models.ModelsFeature.SetThenGet` | frasco_models/__init__.py:82-89 | a model set by name is then contained and returned by `models[name]` without a backend call |
| `Models.CountQueryAsWritten` | frasco_models/__init__.py:136 | the count query as written raises, since `order_by(None)` returns None |
| `Models.CountQuery` | frasco_models/__init__.py:136 | the count query is the query with no ordering, offset or limit, on the same model and backend |

## Left out

- `QueryBuilder.OrderEntry`: a tuple passed together with an explicit direction is excluded by a precondition. The code would store the tuple itself as the field name.
- `QueryBuilder.Query.OrderBy`: shares that precondition.
- `Strings.Upper` and `Strings.RStrip` cover ASCII letters and ASCII white space, as Python 2 byte strings do. Unicode strings are not modelled.
- `Utils.Pagination.NbPages`: the float `math.ceil` is modelled as integer ceiling division, and `per_page > 0` is required. The code has no guard against zero.
- `Persistpy.TransformQueryFilter`: the `ObjectId` coercion of `_id` values and `clean_proxy` are not modelled; values pass through unchanged.
- `QueryBuilder.FilterRepr`: Python's `%s` rendering of a value is taken as a parameter `show`. `Query.__repr__` is not modelled.
- Python 2 dict order: keyword arguments, `from_dict` entries and scope keywords are ordered sequences. The code iterates them in the dict's arbitrary order.
- `Query.select` receives a tuple while the initial fields are an empty `set()`; both are modelled as a sequence.
- `Query.get`, `get_or_404`, `all`, `first`, `first_or_404`, `one`, `count`, `__iter__` and `__len__` only delegate to the backend; they are not modelled, except `count` through `ModelBackend.count`.
- `Models.ModelsFeature.EnsureModel`: field specifications are values. In the code a specification that is already a dict reaches the backend as the caller's own dict object; that sharing is not captured.
- `Models.ModelsFeature.Paginate`: a missing `page` is read from the request in the code; the model takes the page as an argument. The row count is the backend's answer for the count query.
- `Models.ModelsFeature.ScopedQuery`: the context's `model_scopes` is a parameter. Configured scopes are taken as already evaluated to keyword filters, since `compile_expr`/`eval_expr` are not part of this model.
- `Models.GetBackendClass`: `import_string` is a lookup in a map of importable names. `find_classes_in_module` is not part of this model; it is taken to return a module's `Backend` subclasses in order.
- `init_app`'s request hooks (`connect`/`close`), `require_backend`, `build_query`, `find_first` and the create/save/delete actions are not modelled. They read the request context or only call the backend.
- The backend's own `ensure_model`, `ensure_fields` and the document store behind it are foreign code; `ModelBackend` only records the calls.

## Findings

| source | as written | input that shows it | evidently intended | confidence | as-written member | corrected member |
|---|---|---|---|---|---|---|
| frasco_models/__init__.py:136 | the count query is built as `order_by(None)` followed by `.offset(None)`, but `order_by(None)` returns None (frasco_models/query.py:114-116) | any call of `paginate`, e.g. page 1 of any query | count the query with its ordering, offset and limit cleared | high; not executed | `Models.CountQueryAsWritten` | `Models.CountQuery` |
| frasco_models/__init__.py:103 | each scope's keywords go to `filter(**kw)`, but `filter` takes positional filters only, so any non-empty scope raises TypeError | scope `active` evaluating to `{"active": True}` | apply the keywords with `filter_by` | high; not executed | `Models.ScopedFiltersAsWritten`, exhibited by `Models.ScopedQueryFinding` | `Models.ModelsFeature.ScopedQuery` |
| frasco_models/__init__.py:97 | the context scopes are looked up by `model.__name__`, which a model given by name (a string) does not have; a non-empty context scope also hits the `filter(**kw)` TypeError | `scoped_query("User")` while the context holds `model_scopes` | look up the registered model's name and apply with `filter_by` | medium; not executed | `Models.ScopedFiltersAsWritten`, exhibited by `Models.ScopedQueryFinding` | `Models.ModelsFeature.ScopedQuery` |
