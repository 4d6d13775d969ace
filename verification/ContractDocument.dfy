/** `assemble_contract` (engine/scripts/api_contract_document.py, lines 37-78): the whole document, from the
    source OpenAPI document, the audited operations and the explicit schemas. */
module ContractDocument {
  import opened Results
  import opened Json
  import opened References
  import opened SchemaClosure
  import opened OperationIds
  import opened SortedStrings

  // ----- Roots of the audited operations -----

  ghost function OperationOutcome(paths: Object, path: string, httpMethod: string): Result<set<string>, Error> {
    if path !in paths then Err(MissingKey(path))
    else if !paths[path].Obj? then Err(NotAnObject)
    else if httpMethod !in paths[path].fields then Err(MissingKey(httpMethod))
    else Outcome(paths[path].fields[httpMethod])
  }

  ghost function RootsOutcome(paths: Object, audited: seq<(string, string)>): Result<set<string>, Error> {
    if audited == [] then Ok({})
    else
      var last := audited[|audited| - 1];
      match RootsOutcome(paths, audited[..|audited| - 1])
      case Err(e) => Err(e)
      case Ok(roots) =>
        match OperationOutcome(paths, last.0, last.1)
        case Err(e) => Err(e)
        case Ok(names) => Ok(roots + names)
  }

  /** One failing operation fails the whole list. */
  lemma {:induction false} FirstFailureStands(paths: Object, audited: seq<(string, string)>, i: nat)
    requires i <= |audited| && RootsOutcome(paths, audited[..i]).Err?
    ensures RootsOutcome(paths, audited) == RootsOutcome(paths, audited[..i])
  {
    if i < |audited| {
      var init := audited[..|audited| - 1];
      assert init[..i] == audited[..i];
      FirstFailureStands(paths, init, i);
    } else {
      assert audited[..i] == audited;
    }
  }

  /** The roots hold every name an audited operation refers to. */
  lemma {:induction false} RootsHoldOperation(paths: Object, audited: seq<(string, string)>, op: (string, string))
    requires RootsOutcome(paths, audited).Ok? && op in audited
    ensures OperationOutcome(paths, op.0, op.1).Ok?
    ensures OperationOutcome(paths, op.0, op.1).value <= RootsOutcome(paths, audited).value
  {
    var init := audited[..|audited| - 1];
    if op != audited[|audited| - 1] {
      assert audited == init + [audited[|audited| - 1]];
      RootsHoldOperation(paths, init, op);
    }
  }

  method CollectRoots(paths: Object, audited: seq<(string, string)>) returns (r: Result<set<string>, Error>)
    ensures r == RootsOutcome(paths, audited)
  {
    var roots: set<string> := {};
    for i := 0 to |audited|
      invariant RootsOutcome(paths, audited[..i]) == Ok(roots)
    {
      var (path, httpMethod) := audited[i];
      assert audited[..i + 1][..i] == audited[..i];
      ghost var outcome := RootsOutcome(paths, audited[..i + 1]);
      if outcome.Err? { FirstFailureStands(paths, audited, i + 1); }
      if path !in paths {
        return Err(MissingKey(path));
      }
      if !paths[path].Obj? {
        return Err(NotAnObject);
      }
      if httpMethod !in paths[path].fields {
        return Err(MissingKey(httpMethod));
      }
      var names := CollectReferences(paths[path].fields[httpMethod]);
      if names.Err? {
        return Err(names.error);
      }
      roots := roots + names.value;
    }
    assert audited[..|audited|] == audited;
    r := Ok(roots);
  }

  // ----- Explicit schemas -----

  predicate WellShaped(raw: Json) {
    raw.Obj? && ("$defs" in raw.fields ==> raw.fields["$defs"].Obj?)
  }

  function Definitions(raw: Json): Object
    requires WellShaped(raw)
  {
    if "$defs" in raw.fields then raw.fields["$defs"].fields else map[]
  }

  function WithoutDefinitions(raw: Json): Json
    requires WellShaped(raw)
  {
    Obj(raw.fields - {"$defs"})
  }

  ghost predicate Binds(m: Object, name: string, schema: Json) {
    name in m && m[name] == schema
  }

  /** One explicit entry binds its definitions, and its own name to the rest of it. */
  ghost predicate EntryBinds(entry: string, raw: Json, name: string, schema: Json) {
    WellShaped(raw) && (Binds(Definitions(raw), name, schema) || (name == entry && schema == WithoutDefinitions(raw)))
  }

  ghost predicate SomeEntryBinds(explicit: Object, entries: set<string>, name: string, schema: Json) {
    exists e | e in entries :: e in explicit && EntryBinds(e, explicit[e], name, schema)
  }

  /** `merged` binds exactly what the source's schemas and the given explicit entries bind together. */
  ghost predicate MergesEntries(schemas: Object, explicit: Object, entries: set<string>, merged: Object) {
    forall n, v :: Binds(merged, n, v) <==> Binds(schemas, n, v) || SomeEntryBinds(explicit, entries, n, v)
  }

  ghost predicate Merges(schemas: Object, explicit: Object, merged: Object) {
    && (forall e | e in explicit :: WellShaped(explicit[e]))
    && MergesEntries(schemas, explicit, explicit.Keys, merged)
  }

  lemma MergeUnique(schemas: Object, explicit: Object, a: Object, b: Object)
    requires Merges(schemas, explicit, a) && Merges(schemas, explicit, b)
    ensures a == b
  {
    forall k | k in a ensures Binds(b, k, a[k]) { assert Binds(a, k, a[k]); }
    forall k | k in b ensures Binds(a, k, b[k]) { assert Binds(b, k, b[k]); }
  }

  /** Two different schemas under one name can never be merged. */
  lemma ConflictForbidsMerge(schemas: Object, explicit: Object, entries: set<string>, n: string, a: Json, b: Json)
    requires entries <= explicit.Keys && a != b
    requires Binds(schemas, n, a) || SomeEntryBinds(explicit, entries, n, a)
    requires Binds(schemas, n, b) || SomeEntryBinds(explicit, entries, n, b)
    ensures forall merged :: !Merges(schemas, explicit, merged)
  {
    forall merged ensures !Merges(schemas, explicit, merged) {
      assert Binds(merged, n, a) ==> !Binds(merged, n, b);
    }
  }

  /** An entry binds `n` to `b` while the schemas before it, or the entry itself, bind it to `a`. */
  ghost predicate Clash(schemas: Object, entry: string, raw: Json, n: string, a: Json, b: Json) {
    a != b && EntryBinds(entry, raw, n, b) && (Binds(schemas, n, a) || EntryBinds(entry, raw, n, a))
  }

  method BindEntry(schemas: Object, entry: string, raw: Json) returns (r: Result<Object, Error>)
    requires WellShaped(raw)
    ensures r.Ok? ==> forall n, v :: Binds(r.value, n, v) <==> Binds(schemas, n, v) || EntryBinds(entry, raw, n, v)
    ensures r.Err? ==> exists n, a, b :: Clash(schemas, entry, raw, n, a, b)
  {
    var definitions := Definitions(raw);
    var bound := schemas;
    var rest := definitions.Keys;
    while rest != {}
      invariant rest <= definitions.Keys
      invariant forall n, v :: Binds(bound, n, v) <==>
                  Binds(schemas, n, v) || (n !in rest && Binds(definitions, n, v))
    {
      var k :| k in rest;
      assert EntryBinds(entry, raw, k, definitions[k]);
      if k in bound && bound[k] != definitions[k] {
        assert Binds(bound, k, bound[k]);
        assert Clash(schemas, entry, raw, k, bound[k], definitions[k]);
        return Err(ConflictingSchema(k));
      }
      bound := bound[k := definitions[k]];
      rest := rest - {k};
    }
    var schema := WithoutDefinitions(raw);
    assert EntryBinds(entry, raw, entry, schema);
    if entry in bound && bound[entry] != schema {
      assert Binds(bound, entry, bound[entry]);
      assert Clash(schemas, entry, raw, entry, bound[entry], schema);
      return Err(ConflictingSchema(entry));
    }
    r := Ok(bound[entry := schema]);
  }

  ghost function Elements(q: seq<string>): set<string> {
    set n | n in q
  }

  lemma MergeNext(schemas: Object, explicit: Object, done: set<string>, entry: string, merged: Object, next: Object)
    requires entry in explicit && MergesEntries(schemas, explicit, done, merged)
    requires forall n, v :: Binds(next, n, v) <==> Binds(merged, n, v) || EntryBinds(entry, explicit[entry], n, v)
    ensures MergesEntries(schemas, explicit, done + {entry}, next)
  {
  }

  /** The loop over `sorted(explicit.items())`. Whether it succeeds, and with what, does not depend on the order. */
  method MergeExplicit(schemas: Object, explicit: Object) returns (r: Result<Object, Error>)
    ensures r.Ok? ==> Merges(schemas, explicit, r.value)
    ensures r.Err? ==> forall merged :: !Merges(schemas, explicit, merged)
  {
    var order := Sorted(explicit.Keys);
    var merged := schemas;
    for i := 0 to |order|
      invariant forall n | n in Elements(order[..i]) :: n in explicit && WellShaped(explicit[n])
      invariant MergesEntries(schemas, explicit, Elements(order[..i]), merged)
    {
      var entry := order[i];
      assert entry in order && order[..i + 1] == order[..i] + [entry];
      var raw := explicit[entry];
      if !WellShaped(raw) {
        return Err(NotAnObject);
      }
      ghost var done := Elements(order[..i]);
      assert Elements(order[..i + 1]) == done + {entry};
      var bound := BindEntry(merged, entry, raw);
      if bound.Err? {
        ghost var n, a, b :| Clash(merged, entry, raw, n, a, b);
        assert SomeEntryBinds(explicit, done, n, a) ==> SomeEntryBinds(explicit, done + {entry}, n, a);
        ConflictForbidsMerge(schemas, explicit, done + {entry}, n, a, b);
        return Err(bound.error);
      }
      MergeNext(schemas, explicit, done, entry, merged, bound.value);
      merged := bound.value;
    }
    assert order[..|order|] == order;
    assert Elements(order) == explicit.Keys;
    r := Ok(merged);
  }

  // ----- The whole document -----

  /** The parts of a document that `assemble_contract` reads. */
  datatype Parts = Parts(paths: Object, components: Object, schemas: Object)

  function Field(document: Object, key: string): Result<Object, Error> {
    if key !in document then Err(MissingKey(key))
    else if !document[key].Obj? then Err(NotAnObject)
    else Ok(document[key].fields)
  }

  function PartsOf(document: Object): Result<Parts, Error> {
    match Field(document, "paths")
    case Err(e) => Err(e)
    case Ok(paths) =>
      match Field(document, "components")
      case Err(e) => Err(e)
      case Ok(components) =>
        match Field(components, "schemas")
        case Err(e) => Err(e)
        case Ok(schemas) => Ok(Parts(paths, components, schemas))
  }

  function Names(names: set<string>): Json {
    var listing := Sorted(names);
    Arr(seq(|listing|, i requires 0 <= i < |listing| => Str(listing[i])))
  }

  function Registry(roots: set<string>, closure: set<string>): Json {
    Obj(map["version" := Number(1.0), "roots" := Names(roots), "schemas" := Names(closure)])
  }

  function Rebuilt(source: Object, parts: Parts, paths: Object, schemas: Object, registry: Json): Object {
    source["paths" := Obj(paths)]
          ["components" := Obj(parts.components["schemas" := Obj(schemas)])]
          ["x-maraclaw-contract" := registry]
  }

  /** The roots of the closure: what the audited operations refer to, and every explicit name. */
  ghost function Roots(paths: Object, audited: seq<(string, string)>, explicit: Object): set<string>
    requires RootsOutcome(paths, audited).Ok?
  {
    RootsOutcome(paths, audited).value + explicit.Keys
  }

  /** `document` is what assembling `source` must give, with `merged` as its schemas. */
  ghost predicate AssembledWith(source: Object, audited: seq<(string, string)>, explicit: Object,
                                merged: Object, document: Object) {
    && PartsOf(source).Ok?
    && var parts := PartsOf(source).value;
    && RootsOutcome(parts.paths, audited).Ok?
    && OperationsWellTyped(parts.paths)
    && Merges(parts.schemas, explicit, merged)
    && var roots := Roots(parts.paths, audited, explicit);
    && Resolvable(merged, roots)
    && document == Rebuilt(source, parts, Identified(parts.paths), merged,
                           Registry(roots, Closure(merged, roots)))
  }

  ghost predicate Assembled(source: Object, audited: seq<(string, string)>, explicit: Object, document: Object) {
    exists merged :: AssembledWith(source, audited, explicit, merged, document)
  }

  /** Succeeds exactly when some document meets the specification, and then returns it. */
  method AssembleContract(source: Object, audited: seq<(string, string)>, explicit: Object)
    returns (r: Result<Object, Error>)
    ensures r.Ok? ==> Assembled(source, audited, explicit, r.value)
    ensures r.Err? ==> forall document :: !Assembled(source, audited, explicit, document)
  {
    var parts := PartsOf(source);
    if parts.Err? {
      return Err(parts.error);
    }
    var Parts(paths, components, schemas) := parts.value;
    var audit := CollectRoots(paths, audited);
    if audit.Err? {
      return Err(audit.error);
    }
    var merge := MergeExplicit(schemas, explicit);
    if merge.Err? {
      return Err(merge.error);
    }
    var merged, roots := merge.value, audit.value + explicit.Keys;
    var identified := AssignOperationIds(paths);
    if identified.Err? {
      return Err(identified.error);
    }
    var closure := Close(merged, roots);
    if closure.Err? {
      forall other | Merges(schemas, explicit, other) ensures other == merged {
        MergeUnique(schemas, explicit, other, merged);
      }
      return Err(closure.error);
    }
    var document := Rebuilt(source, parts.value, identified.value, merged, Registry(roots, closure.value));
    assert AssembledWith(source, audited, explicit, merged, document);
    r := Ok(document);
  }

  /** The specification has at most one solution. */
  lemma AssembledUnique(source: Object, audited: seq<(string, string)>, explicit: Object, d: Object, e: Object)
    requires Assembled(source, audited, explicit, d) && Assembled(source, audited, explicit, e)
    ensures d == e
  {
    var m :| AssembledWith(source, audited, explicit, m, d);
    var n :| AssembledWith(source, audited, explicit, n, e);
    MergeUnique(PartsOf(source).value.schemas, explicit, m, n);
  }
}
