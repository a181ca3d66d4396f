/** The models feature: the registry of model classes, query creation with
    named scopes, pagination of a query, and the lookup of the backend class
    by name. The backend itself is foreign code; `ModelBackend` stands in for
    it and records the calls the feature makes. */
module Models {

  import opened Values
  import opened QueryBuilder
  import Utils

  // ---------------------------------------------------------------------
  // Errors

  /** What the feature's operations raise. */
  datatype Failure =
    | MissingScope(scope: string)   // QueryError "Missing model scope"
    | FilterKeywords                // TypeError: `filter` takes no keyword arguments
    | StrHasNoName                  // AttributeError: a model name string has no `__name__`
    | NoneHasNoOffset               // AttributeError: `order_by(None)` returned None
    | PageOutOfBound                // PageOutOfBoundError

  // ---------------------------------------------------------------------
  // The backend

  /** The backend object the feature delegates to. `make` is the model class
      the backend builds for a name, and `count` the number of rows a query
      on a model matches; both are decided by the backend. */
  class ModelBackend {
    const name: string
    const make: string -> ModelRef
    const count: (ModelRef, QueryState) -> nat
    /** The names passed to `ensure_model`, in call order. */
    var ensureModelCalls: seq<string>
    /** The names and field specifications passed to `ensure_schema`. */
    var ensureSchemaCalls: seq<(string, map<string, Json>)>

    constructor (name: string, make: string -> ModelRef, count: (ModelRef, QueryState) -> nat)
      ensures this.name == name && this.make == make && this.count == count
      ensures ensureModelCalls == [] && ensureSchemaCalls == []
    {
      this.name := name;
      this.make := make;
      this.count := count;
      ensureModelCalls := [];
      ensureSchemaCalls := [];
    }

    /** `Backend.ensure_model`. */
    method EnsureModel(modelName: string) returns (m: ModelRef)
      modifies this
      ensures m == make(modelName)
      ensures ensureModelCalls == old(ensureModelCalls) + [modelName]
      ensures ensureSchemaCalls == old(ensureSchemaCalls)
    {
      ensureModelCalls := ensureModelCalls + [modelName];
      m := make(modelName);
    }

    /** `Backend.ensure_schema`. */
    method EnsureSchema(modelName: string, fields: map<string, Json>)
      modifies this
      ensures ensureSchemaCalls == old(ensureSchemaCalls) + [(modelName, fields)]
      ensures ensureModelCalls == old(ensureModelCalls)
    {
      ensureSchemaCalls := ensureSchemaCalls + [(modelName, fields)];
    }

    /** `Backend.count` on a query. */
    function Count(q: Query): (r: nat)
      reads q
    {
      count(q.model, q.State())
    }
  }

  // ---------------------------------------------------------------------
  // Field specifications

  /** One field specification of `ensure_model(name, **fields)`: a dict is
      kept, anything else is taken as the field's type. */
  function NormalizedSpec(v: Json): (r: Json)
  {
    if v.JObj? then v else Single("type", v)
  }

  /** All field specifications normalized, keys unchanged. */
  function NormalizedSpecs(fields: map<string, Json>): (r: map<string, Json>)
  {
    map k | k in fields :: NormalizedSpec(fields[k])
  }

  /** Normalizing keeps the keys, turns every specification into a dict,
      leaves dicts alone, puts a non-dict under `type`, and is idempotent. */
  lemma NormalizedSpecsShape(fields: map<string, Json>)
    ensures NormalizedSpecs(fields).Keys == fields.Keys
    ensures forall k :: k in fields ==> NormalizedSpecs(fields)[k].JObj?
    ensures forall k :: k in fields && fields[k].JObj? ==> NormalizedSpecs(fields)[k] == fields[k]
    ensures forall k :: k in fields && !fields[k].JObj? ==>
              NormalizedSpecs(fields)[k].fields == map["type" := fields[k]]
    ensures NormalizedSpecs(NormalizedSpecs(fields)) == NormalizedSpecs(fields)
  {
  }

  /** The loop of `ensure_model` that rewrites each non-dict value of
      `fields` as `{"type": value}`. */
  method NormalizeFieldSpecs(fields: map<string, Json>) returns (r: map<string, Json>)
    ensures r == NormalizedSpecs(fields)
  {
    r := fields;
    var todo := fields.Keys;
    while todo != {}
      invariant todo <= fields.Keys && r.Keys == fields.Keys
      invariant forall k :: k in todo ==> r[k] == fields[k]
      invariant forall k :: k in fields && k !in todo ==> r[k] == NormalizedSpec(fields[k])
      decreases todo
    {
      var k :| k in todo;
      if !fields[k].JObj? {
        r := r[k := Single("type", fields[k])];
      }
      todo := todo - {k};
    }
  }

  // ---------------------------------------------------------------------
  // Scopes

  /** The first argument of `ensure_model` and `query`: a model name, or a
      model class, which stands for its `__name__`. */
  datatype ModelArg = ByName(name: string) | ByClass(cls: ModelRef)
  {
    function Name(): (r: string)
    {
      if ByName? then name else cls.name
    }
  }

  /** The `scope` argument of `scoped_query`: absent, one name, or a list. */
  datatype ScopeArg = NoScope | One(name: string) | Many(names: seq<string>)

  /** The scope names to apply: none for a falsy argument, a single name
      wrapped in a list. */
  function ScopeNames(scope: ScopeArg): (r: seq<string>)
    ensures scope.NoScope? ==> r == []
    ensures scope.One? ==> (r == [] <==> scope.name == "")
    ensures scope.One? && scope.name != "" ==> r == [scope.name]
    ensures scope.Many? ==> r == scope.names
  {
    match scope
    case NoScope => []
    case One(s) => if s == "" then [] else [s]
    case Many(ns) => ns
  }

  /** `fs` put in front of a successful filter list; an error is kept. */
  function Prepend(fs: seq<FilterNode>, r: Result<seq<FilterNode>, Failure>): (res: Result<seq<FilterNode>, Failure>)
  {
    if r.Ok? then Ok(fs + r.value) else r
  }

  lemma PrependTwice(fs: seq<FilterNode>, gs: seq<FilterNode>, r: Result<seq<FilterNode>, Failure>)
    ensures Prepend(fs, Prepend(gs, r)) == Prepend(fs + gs, r)
  {
    if r.Ok? {
      assert fs + (gs + r.value) == (fs + gs) + r.value;
    }
  }

  /** The filters the named scopes add, applied in order with `filter_by`;
      the first name without a scope raises. */
  function ScopeFilters(names: seq<string>, scopes: map<string, seq<(string, Json)>>): (r: Result<seq<FilterNode>, Failure>)
  {
    if names == [] then Ok([])
    else if names[0] !in scopes then Err(MissingScope(names[0]))
    else Prepend(KwargFilters(scopes[names[0]]), ScopeFilters(names[1..], scopes))
  }

  /** Scope application fails exactly when some name has no scope, and then
      names the first such; otherwise it adds one filter per keyword of each
      scope, in order. */
  lemma {:induction false} ScopeFiltersResult(names: seq<string>, scopes: map<string, seq<(string, Json)>>)
    ensures ScopeFilters(names, scopes).Err? <==> exists i :: 0 <= i < |names| && names[i] !in scopes
    ensures forall i :: 0 <= i < |names| && names[i] !in scopes && (forall j :: 0 <= j < i ==> names[j] in scopes) ==>
              ScopeFilters(names, scopes) == Err(MissingScope(names[i]))
    ensures ScopeFilters(names, scopes).Ok? ==> |ScopeFilters(names, scopes).value| == ScopeSize(names, scopes)
  {
    if names != [] {
      ScopeFiltersResult(names[1..], scopes);
      if names[0] in scopes {
        forall i | 0 <= i < |names| && names[i] !in scopes && (forall j :: 0 <= j < i ==> names[j] in scopes)
          ensures ScopeFilters(names, scopes) == Err(MissingScope(names[i]))
        {
          assert names[1..][i - 1] == names[i];
        }
        if exists i :: 0 <= i < |names| && names[i] !in scopes {
          var i :| 0 <= i < |names| && names[i] !in scopes;
          assert names[1..][i - 1] == names[i];
        }
      }
    }
  }

  /** One step of applying the scopes from the `i`-th name on, after the
      filters `acc`: a missing scope raises, a present one moves its
      filters onto `acc`. */
  lemma ScopeFiltersStep(acc: seq<FilterNode>, names: seq<string>, i: nat, scopes: map<string, seq<(string, Json)>>)
    requires i < |names|
    ensures names[i] !in scopes ==> Prepend(acc, ScopeFilters(names[i..], scopes)) == Err(MissingScope(names[i]))
    ensures names[i] in scopes ==>
              Prepend(acc, ScopeFilters(names[i..], scopes))
              == Prepend(acc + KwargFilters(scopes[names[i]]), ScopeFilters(names[i + 1..], scopes))
  {
    assert names[i..][0] == names[i] && names[i..][1..] == names[i + 1..];
    if names[i] in scopes {
      PrependTwice(acc, KwargFilters(scopes[names[i]]), ScopeFilters(names[i + 1..], scopes));
    }
  }

  /** The number of keywords across the named scopes. */
  function ScopeSize(names: seq<string>, scopes: map<string, seq<(string, Json)>>): (r: nat)
  {
    if names == [] then 0
    else (if names[0] in scopes then |scopes[names[0]]| else 0) + ScopeSize(names[1..], scopes)
  }

  /** Applying `a` then `b` is applying `a + b`. */
  lemma {:induction false} ScopeFiltersAppend(a: seq<string>, b: seq<string>, scopes: map<string, seq<(string, Json)>>)
    ensures ScopeFilters(a + b, scopes) ==
              match ScopeFilters(a, scopes)
              case Err(e) => Err(e)
              case Ok(fs) => Prepend(fs, ScopeFilters(b, scopes))
  {
    if a == [] {
      assert a + b == b;
      assert Prepend([], ScopeFilters(b, scopes)) == ScopeFilters(b, scopes) by {
        if ScopeFilters(b, scopes).Ok? {
          assert [] + ScopeFilters(b, scopes).value == ScopeFilters(b, scopes).value;
        }
      }
    } else {
      assert (a + b)[0] == a[0] && (a + b)[1..] == a[1..] + b;
      ScopeFiltersAppend(a[1..], b, scopes);
      if a[0] in scopes && ScopeFilters(a[1..], scopes).Ok? {
        PrependTwice(KwargFilters(scopes[a[0]]), ScopeFilters(a[1..], scopes).value, ScopeFilters(b, scopes));
      }
    }
  }

  /** The filters of `scoped_query` as intended: the model's context scope,
      then the named scopes. */
  function ScopedFilters(
    modelName: string, names: seq<string>, scopes: map<string, seq<(string, Json)>>,
    contextScopes: Option<map<string, seq<(string, Json)>>>): (r: Result<seq<FilterNode>, Failure>)
  {
    Prepend(ContextFilters(modelName, contextScopes), ScopeFilters(names, scopes))
  }

  /** The filters from the context's `model_scopes` for one model, none when
      it has no entry for the model. */
  function ContextFilters(modelName: string, contextScopes: Option<map<string, seq<(string, Json)>>>): (r: seq<FilterNode>)
  {
    if contextScopes.Some? && modelName in contextScopes.value
    then KwargFilters(contextScopes.value[modelName]) else []
  }

  /** `scoped_query` as written: the scope keywords are passed to `filter`,
      which takes positional filters only, so any non-empty scope raises a
      TypeError; with context scopes present, the model name is read as
      `model.__name__`, which a name string does not have. */
  function ScopedFiltersAsWritten(
    arg: ModelArg, names: seq<string>, scopes: map<string, seq<(string, Json)>>,
    contextScopes: Option<map<string, seq<(string, Json)>>>): (r: Result<seq<FilterNode>, Failure>)
  {
    if contextScopes.Some? && arg.ByName? then Err(StrHasNoName)
    else if contextScopes.Some? && arg.cls.name in contextScopes.value && |contextScopes.value[arg.cls.name]| > 0
    then Err(FilterKeywords)
    else ScopeFiltersAsWritten(names, scopes)
  }

  function ScopeFiltersAsWritten(names: seq<string>, scopes: map<string, seq<(string, Json)>>): (r: Result<seq<FilterNode>, Failure>)
  {
    if names == [] then Ok([])
    else if names[0] !in scopes then Err(MissingScope(names[0]))
    else if |scopes[names[0]]| > 0 then Err(FilterKeywords)
    else ScopeFiltersAsWritten(names[1..], scopes)
  }

  /** As written, a scoped query never gets a filter: it either raises or
      adds nothing. A scope with one keyword shows the difference: the
      intended query filters on it, the written one raises. So does a model
      given by name while the context holds scopes. */
  lemma {:induction false} ScopedQueryFinding(arg: ModelArg, names: seq<string>, scopes: map<string, seq<(string, Json)>>,
                                              contextScopes: Option<map<string, seq<(string, Json)>>>)
    ensures ScopedFiltersAsWritten(arg, names, scopes, contextScopes).Ok? ==>
              ScopedFiltersAsWritten(arg, names, scopes, contextScopes).value == []
    ensures var active := map["active" := [("active", JBool(true))]];
            && ScopedFiltersAsWritten(ByClass(ModelRef("User")), ["active"], active, None) == Err(FilterKeywords)
            && ScopedFilters("User", ["active"], active, None) == Ok([Leaf(QueryFilter("active", JBool(true), EQ))])
    ensures ScopedFiltersAsWritten(ByName("User"), [], map[], Some(map[])) == Err(StrHasNoName)
    ensures ScopedFilters("User", [], map[], Some(map[])) == Ok([])
  {
    AsWrittenAddsNothing(names, scopes);
    var active := map["active" := [("active", JBool(true))]];
    var kf := [Leaf(QueryFilter("active", JBool(true), EQ))];
    ActiveKeyword();
    assert ["active"][1..] == [];
    assert kf + [] == kf && [] + kf == kf;
    assert ScopeFilters(["active"], active) == Ok(kf);
    var none: seq<FilterNode> := [];
    assert none + none == none;
  }

  /** The keyword `active=True` is an EQ filter on `active`. */
  lemma ActiveKeyword()
    ensures KwargFilters([("active", JBool(true))]) == [Leaf(QueryFilter("active", JBool(true), EQ))]
  {
    assert FirstMatch("active", 0) == |Operators|;
  }

  lemma {:induction false} AsWrittenAddsNothing(names: seq<string>, scopes: map<string, seq<(string, Json)>>)
    ensures ScopeFiltersAsWritten(names, scopes).Ok? ==> ScopeFiltersAsWritten(names, scopes).value == []
  {
    if names != [] {
      AsWrittenAddsNothing(names[1..], scopes);
    }
  }

  // ---------------------------------------------------------------------
  // Pages

  /** The bounds check of `paginate` on the page built from the count: with
      `checkBounds`, a page below 1 or past the last page is refused. */
  function PageCheck(page: int, perPage: int, total: nat, checkBounds: bool): (r: Result<Utils.Pagination, Failure>)
    requires perPage > 0
    ensures r.Ok? ==> r.value == Utils.Pagination(page, perPage, total)
    ensures r.Err? ==> r.error == PageOutOfBound
  {
    var p := Utils.Pagination(page, perPage, total);
    if checkBounds && (page < 1 || page > p.NbPages()) then Err(PageOutOfBound) else Ok(p)
  }

  /** A checked page is accepted exactly when it holds at least one row, and
      then its offset lies inside the result. In particular an empty result
      has no acceptable page, not even page 1. */
  lemma PageCheckAccepts(page: int, perPage: int, total: nat)
    requires perPage > 0
    ensures PageCheck(page, perPage, total, true).Ok? <==> 1 <= page && (page - 1) * perPage < total
    ensures PageCheck(page, perPage, total, true).Ok? ==>
              0 <= PageCheck(page, perPage, total, true).value.Offset() < total
    ensures total == 0 ==> PageCheck(page, perPage, total, true).Err?
    ensures PageCheck(page, perPage, total, false).Ok?
  {
    var p := Utils.Pagination(page, perPage, total);
    var n := p.NbPages();
    if 1 <= page <= n {
      Utils.OffsetWithinTotal(p);
    }
    if 1 <= page && (page - 1) * perPage < total {
      if page > n {
        Utils.MulMonotone(n, page - 1, perPage);
      }
    }
  }

  // ---------------------------------------------------------------------
  // Backend class lookup

  /** A class found by import, and whether it subclasses `Backend`. */
  datatype ClassInfo = ClassInfo(name: string, isBackend: bool)

  /** What `import_string` yields: a module and its classes, or a class. */
  datatype Importable = ModuleObj(classes: seq<ClassInfo>) | ClassObj(cls: ClassInfo)

  datatype ImportError =
    | CannotImport(name: string)
    | NoBackendInModule(name: string)
    | MultipleBackends(name: string)
    | NotABackend(name: string)

  /** The package a short backend name is looked up in. */
  const BackendsPackage: string := "frasco_models.backends."

  /** The classes of a module that subclass `Backend`, in order. */
  function BackendCandidates(classes: seq<ClassInfo>): (r: seq<ClassInfo>)
    ensures forall c :: c in r <==> c in classes && c.isBackend
    ensures |r| <= |classes|
  {
    if classes == [] then []
    else (if classes[0].isBackend then [classes[0]] else []) + BackendCandidates(classes[1..])
  }

  /** `import_string(name)`, falling back to the backends package. */
  function Resolve(name: string, importable: map<string, Importable>): (r: Option<Importable>)
  {
    if name in importable then Some(importable[name])
    else if BackendsPackage + name in importable then Some(importable[BackendsPackage + name])
    else None
  }

  /** `get_backend_class(name)`: a module must hold exactly one backend
      class; a class must subclass `Backend`. Every error names `name` as
      given. */
  function GetBackendClass(name: string, importable: map<string, Importable>): (r: Result<ClassInfo, ImportError>)
  {
    match Resolve(name, importable)
    case None => Err(CannotImport(name))
    case Some(ModuleObj(classes)) =>
      var cs := BackendCandidates(classes);
      if |cs| == 0 then Err(NoBackendInModule(name))
      else if |cs| > 1 then Err(MultipleBackends(name))
      else Ok(cs[0])
    case Some(ClassObj(c)) =>
      if !c.isBackend then Err(NotABackend(name)) else Ok(c)
  }

  /** The lookup succeeds exactly when the name (or its package-qualified
      form) is a module with a single backend class, or a backend class; the
      class returned is then a backend class from what was imported, and an
      importable name is preferred to its qualified form. */
  lemma GetBackendClassResult(name: string, importable: map<string, Importable>)
    ensures var r := GetBackendClass(name, importable);
            var found := Resolve(name, importable);
            && (r.Ok? <==> (found.Some? &&
                              (if found.value.ModuleObj? then |BackendCandidates(found.value.classes)| == 1
                               else found.value.cls.isBackend)))
            && (r.Ok? ==> r.value.isBackend)
            && (r.Ok? && found.value.ModuleObj? ==> r.value in found.value.classes)
            && (r.Ok? && found.value.ClassObj? ==> r.value == found.value.cls)
            && (r.Err? ==> r.error.name == name)
    ensures name in importable ==> Resolve(name, importable) == Some(importable[name])
  {
    var found := Resolve(name, importable);
    if found.Some? && found.value.ModuleObj? {
      var cs := BackendCandidates(found.value.classes);
      if |cs| == 1 {
        assert cs[0] in cs;
      }
    }
  }

  /** A module with two backend classes is refused, and so is one with none. */
  lemma ModuleCandidateCount(a: ClassInfo, b: ClassInfo, other: ClassInfo)
    requires a.isBackend && b.isBackend && !other.isBackend
    ensures GetBackendClass("mongo", map["mongo" := ModuleObj([a, other, b])]) == Err(MultipleBackends("mongo"))
    ensures GetBackendClass("mongo", map["mongo" := ModuleObj([other])]) == Err(NoBackendInModule("mongo"))
    ensures GetBackendClass("mongo", map[BackendsPackage + "mongo" := ModuleObj([other, a])]) == Ok(a)
  {
    assert "mongo" != BackendsPackage + "mongo";
    assert BackendCandidates([a, other, b]) == [a, b] by {
      assert [a, other, b][1..] == [other, b];
      assert [other, b][1..] == [b];
      assert [b][1..] == [];
    }
    assert BackendCandidates([other, a]) == [a] by {
      assert [other, a][1..] == [a];
      assert [a][1..] == [];
    }
  }

  // ---------------------------------------------------------------------
  // The feature

  class ModelsFeature {
    const backend: ModelBackend
    /** The named scopes, each already evaluated to its keyword filters. */
    const scopes: map<string, seq<(string, Json)>>
    /** The `pagination_per_page` option. */
    const paginationPerPage: int
    /** The registry of model classes by name. */
    var models: map<string, ModelRef>

    /** `init_app`, from the backend it built and the options; the defaults
        are no scopes and 10 rows per page. */
    constructor (backend: ModelBackend, scopes: map<string, seq<(string, Json)>> := map[], paginationPerPage: int := 10)
      ensures this.backend == backend && this.scopes == scopes && this.paginationPerPage == paginationPerPage
      ensures models == map[]
    {
      this.backend := backend;
      this.scopes := scopes;
      this.paginationPerPage := paginationPerPage;
      models := map[];
    }

    /** The registry after making sure `name` is in it: an unknown name is
        asked of the backend once, a known one is left alone. */
    twostate predicate Registered(name: string)
      reads this, backend
    {
      && name in models
      && (name in old(models) ==>
            models == old(models) && backend.ensureModelCalls == old(backend.ensureModelCalls))
      && (name !in old(models) ==>
            && models == old(models)[name := backend.make(name)]
            && backend.ensureModelCalls == old(backend.ensureModelCalls) + [name])
    }

    /** `ensure_model(model, **fields)`: register the model if needed, then
        send the normalized field specifications to the backend when there
        are any. */
    method EnsureModel(arg: ModelArg, fields: map<string, Json>) returns (m: ModelRef)
      modifies this, backend
      ensures Registered(arg.Name()) && m == models[arg.Name()]
      ensures backend.ensureSchemaCalls ==
                if |fields| > 0 then old(backend.ensureSchemaCalls) + [(arg.Name(), NormalizedSpecs(fields))]
                else old(backend.ensureSchemaCalls)
    {
      var name := arg.Name();
      if name !in models {
        var made := backend.EnsureModel(name);
        models := models[name := made];
      }
      if |fields| > 0 {
        var specs := NormalizeFieldSpecs(fields);
        backend.EnsureSchema(name, specs);
      }
      m := models[name];
    }

    /** `models[name]`. */
    method GetItem(name: string) returns (m: ModelRef)
      modifies this, backend
      ensures Registered(name) && m == models[name]
      ensures backend.ensureSchemaCalls == old(backend.ensureSchemaCalls)
    {
      m := EnsureModel(ByName(name), map[]);
    }

    /** `models[name] = model`. */
    method SetItem(name: string, model: ModelRef)
      modifies this
      ensures models == old(models)[name := model]
    {
      models := models[name := model];
    }

    /** `name in models`. */
    predicate Contains(name: string)
      reads this
    {
      name in models
    }

    /** `query(model)`: an empty query on the registered model and this
        backend. */
    method NewQuery(arg: ModelArg) returns (q: Query)
      modifies this, backend
      ensures Registered(arg.Name()) && backend.ensureSchemaCalls == old(backend.ensureSchemaCalls)
      ensures fresh(q) && q.model == models[arg.Name()] && q.backend == Some(BackendRef(backend.name))
      ensures q.State() == QueryState([], [], [], None, None)
    {
      var m := EnsureModel(arg, map[]);
      q := new Query(m, Some(BackendRef(backend.name)));
    }

    /** `scoped_query(model, scope)` with the keywords of each scope applied
        by `filter_by`. The model is registered before any scope is looked
        up, so a missing scope raises after that. */
    method ScopedQuery(arg: ModelArg, scope: ScopeArg, contextScopes: Option<map<string, seq<(string, Json)>>>)
      returns (r: Result<Query, Failure>)
      modifies this, backend
      ensures Registered(arg.Name()) && backend.ensureSchemaCalls == old(backend.ensureSchemaCalls)
      ensures var fs := ScopedFilters(arg.Name(), ScopeNames(scope), scopes, contextScopes);
              && (r.Err? <==> fs.Err?)
              && (r.Err? ==> r.error == fs.error)
              && (r.Ok? ==> && fresh(r.value) && r.value.model == models[arg.Name()]
                            && r.value.backend == Some(BackendRef(backend.name))
                            && r.value.State() == QueryState([], fs.value, [], None, None))
    {
      var q := NewQuery(arg);
      if contextScopes.Some? {
        var kw := if arg.Name() in contextScopes.value then contextScopes.value[arg.Name()] else [];
        q := q.FilterBy(kw);
      }
      assert q.filters == ContextFilters(arg.Name(), contextScopes);
      r := ApplyScopes(q, ScopeNames(scope));
    }

    /** The loop of `scoped_query`: each named scope's keywords are applied
        to the query in turn, and the first name without a scope raises. */
    method ApplyScopes(q0: Query, names: seq<string>) returns (r: Result<Query, Failure>)
      ensures r.Err? <==> ScopeFilters(names, scopes).Err?
      ensures r.Err? ==> r.error == ScopeFilters(names, scopes).error
      ensures r.Ok? ==> && (r.value == q0 || fresh(r.value))
                        && r.value.model == q0.model && r.value.backend == q0.backend
                        && r.value.State() == q0.State().(filters := q0.filters + ScopeFilters(names, scopes).value)
    {
      var q := q0;
      assert names[0..] == names;
      assert q0.filters + [] == q0.filters;
      for i := 0 to |names|
        invariant q == q0 || fresh(q)
        invariant q.model == q0.model && q.backend == q0.backend
        invariant q.State() == q0.State().(filters := q.filters)
        invariant Prepend(q0.filters, ScopeFilters(names, scopes)) == Prepend(q.filters, ScopeFilters(names[i..], scopes))
      {
        var s := names[i];
        ScopeFiltersStep(q.filters, names, i, scopes);
        if s !in scopes {
          return Err(MissingScope(s));
        }
        q := q.FilterBy(scopes[s]);
      }
      assert q.filters + [] == q.filters;
      r := Ok(q);
    }

    /** The rows per page `paginate` uses. */
    function PerPage(perPage: Option<int>): (r: int)
      reads this
    {
      if perPage.Some? then perPage.value else paginationPerPage
    }

    /** The number of rows `paginate` counts for a query: those of the query
        with its ordering, offset and limit cleared. */
    function TotalOf(query: Query): (r: nat)
      reads query, backend
    {
      backend.count(query.model, query.State().(orderBy := [], offset := None, limit := None))
    }

    /** `paginate(query, page, per_page, check_bounds)` with the ordering
        cleared properly for the count: the page's offset and limit on a new
        query, and the page itself. */
    method Paginate(query: Query, page: int, perPage: Option<int>, checkBounds: bool := true)
      returns (r: Result<(Query, Utils.Pagination), Failure>)
      requires PerPage(perPage) > 0
      ensures var c := PageCheck(page, PerPage(perPage), TotalOf(query), checkBounds);
              && (r.Err? <==> c.Err?)
              && (r.Err? ==> r.error == PageOutOfBound)
              && (r.Ok? ==> && r.value.1 == c.value
                            && fresh(r.value.0) && r.value.0.model == query.model && r.value.0.backend == query.backend
                            && r.value.0.State() == query.State().(offset := Some(c.value.Offset()), limit := Some(PerPage(perPage))))
    {
      var pp := if perPage.Some? then perPage.value else paginationPerPage;
      var cq := CountQuery(query);
      var total := backend.Count(cq);
      var p := Utils.Pagination(page, pp, total);
      if checkBounds && (page < 1 || page > p.NbPages()) {
        return Err(PageOutOfBound);
      }
      var q1 := query.Offset(Some(p.Offset()));
      var q2 := q1.Limit(Some(pp));
      r := Ok((q2, p));
    }

    /** Once a model is registered, asking for it again neither calls the
        backend nor changes the registry. */
    method EnsureModelTwice(arg: ModelArg) returns (m1: ModelRef, m2: ModelRef)
      modifies this, backend
      ensures m1 == m2
      ensures |backend.ensureModelCalls| <= |old(backend.ensureModelCalls)| + 1
      ensures arg.Name() in old(models) ==>
                && m1 == old(models)[arg.Name()]
                && backend.ensureModelCalls == old(backend.ensureModelCalls)
                && backend.ensureSchemaCalls == old(backend.ensureSchemaCalls)
    {
      m1 := EnsureModel(arg, map[]);
      m2 := EnsureModel(arg, map[]);
    }

    /** A model set by name is found by name, and `models[name]` then
        returns it without asking the backend. */
    method SetThenGet(name: string, model: ModelRef) returns (m: ModelRef)
      modifies this, backend
      ensures m == model && Contains(name)
      ensures backend.ensureModelCalls == old(backend.ensureModelCalls)
      ensures backend.ensureSchemaCalls == old(backend.ensureSchemaCalls)
    {
      SetItem(name, model);
      m := GetItem(name);
    }
  }

  /** The count query as `paginate` writes it: `order_by(None)` returns
      None, so the following `.offset(None)` raises before anything is
      counted. */
  method CountQueryAsWritten(query: Query) returns (r: Result<Query, Failure>)
    ensures r == Err(NoneHasNoOffset)
  {
    var q := query.OrderBy(NoField, None);
    if q == null {
      return Err(NoneHasNoOffset);
    }
    assert false;
  }

  /** The count query as intended: the query with no ordering, offset or
      limit. */
  method CountQuery(query: Query) returns (q: Query)
    ensures fresh(q) && q.model == query.model && q.backend == query.backend
    ensures q.State() == query.State().(orderBy := [], offset := None, limit := None)
  {
    var q0 := query.ClearOrderBy();
    var q1 := q0.Offset(None);
    q := q1.Limit(None);
  }
}
