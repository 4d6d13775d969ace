/** What an assembled document lists, what else it contains, and when there is none: all of it read off the source
    document by walks and chains of references (engine/scripts/api_contract_document.py, lines 19-78). */
module ContractListing {
  import opened Results
  import opened Json
  import opened References
  import opened SchemaClosure
  import opened OperationIds
  import opened SortedStrings
  import opened ContractDocument
  import opened ContractProperties
  import Utf8

  // ----- Looking into a document -----

  function At(value: Json, key: string): Option<Json> {
    if value.Obj? && key in value.fields then Some(value.fields[key]) else None
  }

  function At2(value: Json, first: string, second: string): Option<Json> {
    match At(value, first)
    case Some(inner) => At(inner, second)
    case None => None
  }

  function OperationIn(source: Object, op: (string, string)): Option<Json> {
    match At(Obj(source), "paths")
    case Some(paths) => At2(paths, op.0, op.1)
    case None => None
  }

  /** The schema of this name in `components.schemas`. */
  function SchemaIn(document: Object, name: string): Option<Json> {
    match At2(Obj(document), "components", "schemas")
    case Some(schemas) => At(schemas, name)
    case None => None
  }

  // ----- The roots -----

  ghost predicate AuditedRefers(source: Object, op: (string, string), name: string) {
    OperationIn(source, op).Some? && Refers(OperationIn(source, op).value, name)
  }

  /** An explicit name, or one that an audited operation refers to at any depth. */
  ghost predicate IsRoot(source: Object, audited: seq<(string, string)>, explicit: Object, name: string) {
    name in explicit || exists op :: op in audited && AuditedRefers(source, op, name)
  }

  lemma {:induction false} RootsAre(paths: Object, audited: seq<(string, string)>, name: string)
    requires RootsOutcome(paths, audited).Ok?
    ensures forall op | op in audited :: OperationOutcome(paths, op.0, op.1).Ok?
    ensures name in RootsOutcome(paths, audited).value <==>
            exists op :: op in audited && name in OperationOutcome(paths, op.0, op.1).value
  {
    if audited != [] {
      var init, last := audited[..|audited| - 1], audited[|audited| - 1];
      assert audited == init + [last];
      RootsAre(paths, init, name);
    }
  }

  lemma OperationRefers(source: Object, op: (string, string), name: string)
    requires PartsOf(source).Ok? && OperationOutcome(PartsOf(source).value.paths, op.0, op.1).Ok?
    ensures name in OperationOutcome(PartsOf(source).value.paths, op.0, op.1).value <==> AuditedRefers(source, op, name)
    ensures OperationIn(source, op).Some? && !HoldsBadRef(OperationIn(source, op).value)
  {
    var operation := PartsOf(source).value.paths[op.0].fields[op.1];
    assert OperationIn(source, op) == Some(operation);
    OutcomeByWalks(operation);
  }

  lemma RootsAreRoots(source: Object, audited: seq<(string, string)>, explicit: Object, name: string)
    requires PartsOf(source).Ok? && RootsOutcome(PartsOf(source).value.paths, audited).Ok?
    ensures name in Roots(PartsOf(source).value.paths, audited, explicit) <==> IsRoot(source, audited, explicit, name)
  {
    RootsAre(PartsOf(source).value.paths, audited, name);
    forall op | op in audited
      ensures name in OperationOutcome(PartsOf(source).value.paths, op.0, op.1).value <==>
              AuditedRefers(source, op, name)
    {
      OperationRefers(source, op, name);
    }
  }

  /** The roots listed are the explicit names and whatever the audited operations refer to, in lists or anywhere else.
      */
  lemma RootsListed(source: Object, audited: seq<(string, string)>, explicit: Object, document: Object, name: string)
    requires Assembled(source, audited, explicit, document)
    ensures Listed(document, "roots", name) <==> IsRoot(source, audited, explicit, name)
  {
    var merged :| AssembledWith(source, audited, explicit, merged, document);
    ListedIsMember(source, audited, explicit, merged, document, name);
    RootsAreRoots(source, audited, explicit, name);
  }

  // ----- The closure -----

  ghost predicate RefersOn(document: Object, a: string, b: string) {
    SchemaIn(document, a).Some? && Refers(SchemaIn(document, a).value, b)
  }

  /** Each name's schema refers to the next name. */
  ghost predicate Chain(document: Object, names: seq<string>) {
    forall i | 0 < i < |names| :: RefersOn(document, names[i - 1], names[i])
  }

  ghost predicate ChainFromRoot(source: Object, audited: seq<(string, string)>, explicit: Object, document: Object,
                                names: seq<string>, name: string) {
    names != [] && IsRoot(source, audited, explicit, names[0]) && Chain(document, names)
    && names[|names| - 1] == name
  }

  /** The schemas listed are those that chains of references lead to from a root. */
  lemma SchemasListed(source: Object, audited: seq<(string, string)>, explicit: Object, document: Object, name: string)
    requires Assembled(source, audited, explicit, document)
    ensures Listed(document, "schemas", name) <==>
            exists names :: ChainFromRoot(source, audited, explicit, document, names, name)
  {
    var merged :| AssembledWith(source, audited, explicit, merged, document);
    var roots := Roots(PartsOf(source).value.paths, audited, explicit);
    ListedIsMember(source, audited, explicit, merged, document, name);
    DocumentPaths(source, audited, explicit, merged, document);
    assert HasSchemas(document, merged);
    forall n { RootsAreRoots(source, audited, explicit, n); }
    if names: seq<string> :| Path(merged, roots, names) && names[|names| - 1] == name {
      forall i | 0 < i < |names| ensures RefersOn(document, names[i - 1], names[i]) {
        assert Edge(merged, names[i - 1], names[i]);
        NamesAreReferred(merged[names[i - 1]], names[i]);
      }
      assert ChainFromRoot(source, audited, explicit, document, names, name);
    }
    if names :| ChainFromRoot(source, audited, explicit, document, names, name) {
      ChainIsReachable(document, merged, roots, names);
    }
  }

  ghost predicate HasSchemas(document: Object, merged: Object) {
    forall n :: SchemaIn(document, n) == if n in merged then Some(merged[n]) else None
  }

  lemma {:induction false} ChainIsReachable(document: Object, merged: Object, roots: set<string>, names: seq<string>)
    requires Resolvable(merged, roots) && names != [] && names[0] in roots && Chain(document, names)
    requires HasSchemas(document, merged)
    ensures Reachable(merged, roots, names[|names| - 1])
  {
    if |names| == 1 {
      RootReachable(merged, roots, names[0]);
    } else {
      var init, a, b := names[..|names| - 1], names[|names| - 2], names[|names| - 1];
      assert Chain(document, init) by {
        assert forall i | 0 < i < |init| :: RefersOn(document, names[i - 1], names[i]);
      }
      ChainIsReachable(document, merged, roots, init);
      assert RefersOn(document, a, b);
      RefersIsEdge(document, merged, roots, a, b);
      EdgeReachable(merged, roots, a, b);
    }
  }

  lemma RefersIsEdge(document: Object, merged: Object, roots: set<string>, a: string, b: string)
    requires Resolvable(merged, roots) && Reachable(merged, roots, a) && HasSchemas(document, merged)
    requires RefersOn(document, a, b)
    ensures Edge(merged, a, b)
  {
    NamesAreReferred(merged[a], b);
  }

  // ----- When there is no document -----

  ghost predicate HasParts(source: Object) {
    && At(Obj(source), "paths").Some? && source["paths"].Obj?
    && At(Obj(source), "components").Some? && source["components"].Obj?
    && At2(Obj(source), "components", "schemas").Some? && source["components"].fields["schemas"].Obj?
  }

  ghost predicate Unreadable(source: Object, op: (string, string)) {
    OperationIn(source, op).None? || HoldsBadRef(OperationIn(source, op).value)
  }

  predicate MisshapenEntry(raw: Json) {
    !raw.Obj? || ("$defs" in raw.fields && !raw.fields["$defs"].Obj?)
  }

  predicate MisshapenItem(item: Json) {
    !item.Obj? || exists m :: m in item.fields && IsHttpMethod(m) && !item.fields[m].Obj?
  }

  predicate IsHttpMethod(m: string) {
    || m == "get" || m == "put" || m == "post" || m == "delete"
    || m == "options" || m == "head" || m == "patch" || m == "trace"
  }

  /** The source's schemas, or an explicit entry, give `name` this schema. */
  ghost predicate Given(source: Object, explicit: Object, name: string, schema: Json) {
    || SchemaIn(source, name) == Some(schema)
    || exists e :: e in explicit && EntryGives(e, explicit[e], name, schema)
  }

  ghost predicate EntryGives(entry: string, raw: Json, name: string, schema: Json) {
    || At2(raw, "$defs", name) == Some(schema)
    || (name == entry && raw.Obj? && schema == Obj(raw.fields - {"$defs"}))
  }

  ghost predicate GivenRefers(source: Object, explicit: Object, a: string, b: string) {
    exists schema :: Given(source, explicit, a, schema) && Refers(schema, b)
  }

  /** References lead from a root, through what is given, to this name. */
  ghost predicate Needed(source: Object, audited: seq<(string, string)>, explicit: Object, names: seq<string>) {
    && names != [] && IsRoot(source, audited, explicit, names[0])
    && forall i | 0 < i < |names| :: GivenRefers(source, explicit, names[i - 1], names[i])
  }

  /** Nothing is given for a needed name, or something with a bad reference. */
  ghost predicate Lacking(source: Object, explicit: Object, name: string) {
    || (forall schema :: !Given(source, explicit, name, schema))
    || exists schema :: Given(source, explicit, name, schema) && HoldsBadRef(schema)
  }

  ghost predicate Clashing(source: Object, explicit: Object) {
    exists name, a, b :: a != b && Given(source, explicit, name, a) && Given(source, explicit, name, b)
  }

  ghost predicate Faulty(source: Object, audited: seq<(string, string)>, explicit: Object) {
    || !HasParts(source)
    || (exists op :: op in audited && Unreadable(source, op))
    || (exists e :: e in explicit && MisshapenEntry(explicit[e]))
    || (exists p :: p in source["paths"].fields && MisshapenItem(source["paths"].fields[p]))
    || Clashing(source, explicit)
    || exists names :: Needed(source, audited, explicit, names) && Lacking(source, explicit, names[|names| - 1])
  }

  lemma PartsIff(source: Object)
    ensures PartsOf(source).Ok? <==> HasParts(source)
    ensures HasParts(source) ==>
              && PartsOf(source).value.paths == source["paths"].fields
              && PartsOf(source).value.schemas == source["components"].fields["schemas"].fields
  {
  }

  lemma ReadableIff(source: Object, op: (string, string))
    requires HasParts(source)
    ensures OperationOutcome(source["paths"].fields, op.0, op.1).Ok? <==> !Unreadable(source, op)
  {
    var paths := source["paths"].fields;
    if op.0 in paths && paths[op.0].Obj? && op.1 in paths[op.0].fields {
      OutcomeByWalks(paths[op.0].fields[op.1]);
    }
  }

  lemma {:induction false} RootsReadable(paths: Object, audited: seq<(string, string)>)
    requires forall op | op in audited :: OperationOutcome(paths, op.0, op.1).Ok?
    ensures RootsOutcome(paths, audited).Ok?
  {
    if audited != [] {
      var init, last := audited[..|audited| - 1], audited[|audited| - 1];
      assert audited == init + [last];
      RootsReadable(paths, init);
    }
  }

  lemma TypedIff(paths: Object)
    ensures OperationsWellTyped(paths) <==> forall p | p in paths :: !MisshapenItem(paths[p])
  {
    assert forall m :: m in HTTP_METHODS <==> IsHttpMethod(m);
  }

  ghost predicate AllShaped(explicit: Object) {
    forall e | e in explicit :: !MisshapenEntry(explicit[e])
  }

  lemma GivenIff(source: Object, explicit: Object, name: string, schema: Json)
    requires HasParts(source) && AllShaped(explicit)
    ensures Given(source, explicit, name, schema) <==>
            || Binds(source["components"].fields["schemas"].fields, name, schema)
            || SomeEntryBinds(explicit, explicit.Keys, name, schema)
  {
    assert forall e | e in explicit :: WellShaped(explicit[e]);
    assert forall e | e in explicit ::
        EntryGives(e, explicit[e], name, schema) <==> EntryBinds(e, explicit[e], name, schema);
  }

  /** What is given, as one set of schemas. */
  ghost predicate GivenExactly(source: Object, explicit: Object, merged: Object) {
    forall n, v :: Binds(merged, n, v) <==> Given(source, explicit, n, v)
  }

  lemma MergesIff(source: Object, explicit: Object, merged: Object)
    requires HasParts(source) && AllShaped(explicit)
    ensures Merges(source["components"].fields["schemas"].fields, explicit, merged) <==>
            GivenExactly(source, explicit, merged)
  {
    forall n, v { GivenIff(source, explicit, n, v); }
    assert forall e | e in explicit :: WellShaped(explicit[e]);
  }

  ghost function GivenNames(source: Object, explicit: Object): set<string>
    requires HasParts(source)
  {
    source["components"].fields["schemas"].fields.Keys + explicit.Keys
    + set e, n | e in explicit && At2(explicit[e], "$defs", n).Some? && n in explicit[e].fields["$defs"].fields :: n
  }

  ghost function GivenSchema(source: Object, explicit: Object, name: string): (schema: Json)
    requires exists v :: Given(source, explicit, name, v)
    ensures Given(source, explicit, name, schema)
  {
    var v :| Given(source, explicit, name, v);
    v
  }

  /** Without a clash, what is given is one set of schemas. */
  lemma GivenMerges(source: Object, explicit: Object) returns (merged: Object)
    requires HasParts(source) && AllShaped(explicit) && !Clashing(source, explicit)
    ensures GivenExactly(source, explicit, merged)
  {
    var names := GivenNames(source, explicit);
    forall n | n in names ensures exists v :: Given(source, explicit, n, v) {
      GivenNamesAreGiven(source, explicit, n);
    }
    merged := map n | n in names :: GivenSchema(source, explicit, n);
    forall n, v ensures Binds(merged, n, v) <==> Given(source, explicit, n, v) {
      if Given(source, explicit, n, v) { GivenIsNamed(source, explicit, n, v); }
    }
  }

  lemma GivenNamesAreGiven(source: Object, explicit: Object, name: string)
    requires HasParts(source) && AllShaped(explicit) && name in GivenNames(source, explicit)
    ensures exists v :: Given(source, explicit, name, v)
  {
    if name in source["components"].fields["schemas"].fields {
      assert Given(source, explicit, name, source["components"].fields["schemas"].fields[name]);
    } else if name in explicit {
      assert EntryGives(name, explicit[name], name, Obj(explicit[name].fields - {"$defs"}));
      assert Given(source, explicit, name, Obj(explicit[name].fields - {"$defs"}));
    } else {
      var e :| e in explicit && At2(explicit[e], "$defs", name).Some?;
      assert EntryGives(e, explicit[e], name, At2(explicit[e], "$defs", name).value);
      assert Given(source, explicit, name, At2(explicit[e], "$defs", name).value);
    }
  }

  lemma GivenIsNamed(source: Object, explicit: Object, name: string, v: Json)
    requires HasParts(source) && Given(source, explicit, name, v)
    ensures name in GivenNames(source, explicit)
  {
  }

  lemma ResolvableWithoutFault(source: Object, audited: seq<(string, string)>, explicit: Object, merged: Object)
    requires HasParts(source) && RootsOutcome(source["paths"].fields, audited).Ok?
    requires GivenExactly(source, explicit, merged)
    requires forall names | Needed(source, audited, explicit, names) ::
               !Lacking(source, explicit, names[|names| - 1])
    ensures Resolvable(merged, Roots(source["paths"].fields, audited, explicit))
  {
    var roots := Roots(source["paths"].fields, audited, explicit);
    PartsIff(source);
    forall name | Reachable(merged, roots, name) ensures name in merged && WellFormed(merged[name]) {
      var p :| Path(merged, roots, p) && p[|p| - 1] == name;
      RootsAreRoots(source, audited, explicit, p[0]);
      forall i | 0 < i < |p| ensures GivenRefers(source, explicit, p[i - 1], p[i]) {
        assert Edge(merged, p[i - 1], p[i]);
        NamesAreReferred(merged[p[i - 1]], p[i]);
        assert Binds(merged, p[i - 1], merged[p[i - 1]]);
      }
      assert Needed(source, audited, explicit, p);
      var v :| Given(source, explicit, name, v);
      assert Binds(merged, name, v);
      IllFormedIff(v);
    }
  }

  lemma AssembledWithoutFault(source: Object, audited: seq<(string, string)>, explicit: Object)
    returns (document: Object)
    requires !Faulty(source, audited, explicit)
    ensures Assembled(source, audited, explicit, document)
  {
    PartsIff(source);
    var paths := source["paths"].fields;
    forall op | op in audited ensures OperationOutcome(paths, op.0, op.1).Ok? { ReadableIff(source, op); }
    RootsReadable(paths, audited);
    TypedIff(paths);
    var merged := GivenMerges(source, explicit);
    MergesIff(source, explicit, merged);
    ResolvableWithoutFault(source, audited, explicit, merged);
    document := DocumentExists(source, PartsOf(source).value, audited, explicit, merged);
  }

  lemma NoReadingFault(source: Object, audited: seq<(string, string)>, explicit: Object, document: Object)
    requires Assembled(source, audited, explicit, document)
    ensures HasParts(source) && AllShaped(explicit)
    ensures forall op | op in audited :: !Unreadable(source, op)
    ensures forall p | p in source["paths"].fields :: !MisshapenItem(source["paths"].fields[p])
  {
    var merged :| AssembledWith(source, audited, explicit, merged, document);
    PartsIff(source);
    var paths := source["paths"].fields;
    RootsAre(paths, audited, "");
    forall op | op in audited ensures !Unreadable(source, op) { ReadableIff(source, op); }
    TypedIff(paths);
    assert forall e | e in explicit :: WellShaped(explicit[e]);
  }

  lemma NothingLacking(source: Object, explicit: Object, merged: Object, name: string)
    requires GivenExactly(source, explicit, merged) && name in merged && WellFormed(merged[name])
    ensures !Lacking(source, explicit, name)
  {
    assert Binds(merged, name, merged[name]);
    forall schema | Given(source, explicit, name, schema) ensures !HoldsBadRef(schema) {
      assert Binds(merged, name, schema);
      IllFormedIff(schema);
    }
  }

  lemma NeededIsChain(source: Object, audited: seq<(string, string)>, explicit: Object, merged: Object,
                      document: Object, names: seq<string>)
    requires HasSchemas(document, merged) && GivenExactly(source, explicit, merged)
    requires Needed(source, audited, explicit, names)
    ensures Chain(document, names)
  {
    forall i | 0 < i < |names| ensures RefersOn(document, names[i - 1], names[i]) {
      assert GivenRefers(source, explicit, names[i - 1], names[i]);
      var schema :| Given(source, explicit, names[i - 1], schema) && Refers(schema, names[i]);
      assert Binds(merged, names[i - 1], schema);
    }
  }

  lemma NeededIsPresent(source: Object, audited: seq<(string, string)>, explicit: Object, merged: Object,
                        document: Object, names: seq<string>)
    requires AssembledWith(source, audited, explicit, merged, document)
    requires GivenExactly(source, explicit, merged) && Needed(source, audited, explicit, names)
    ensures !Lacking(source, explicit, names[|names| - 1])
  {
    var roots := Roots(PartsOf(source).value.paths, audited, explicit);
    assert HasSchemas(document, merged) by { DocumentPaths(source, audited, explicit, merged, document); }
    NeededIsChain(source, audited, explicit, merged, document, names);
    RootsAreRoots(source, audited, explicit, names[0]);
    ChainIsReachable(document, merged, roots, names);
    NothingLacking(source, explicit, merged, names[|names| - 1]);
  }

  lemma AssembledHasNoFault(source: Object, audited: seq<(string, string)>, explicit: Object, document: Object)
    requires Assembled(source, audited, explicit, document)
    ensures !Faulty(source, audited, explicit)
  {
    NoReadingFault(source, audited, explicit, document);
    var merged :| AssembledWith(source, audited, explicit, merged, document);
    PartsIff(source);
    MergesIff(source, explicit, merged);
    assert !Clashing(source, explicit) by {
      forall n, a, b | Given(source, explicit, n, a) && Given(source, explicit, n, b) ensures a == b {
        assert Binds(merged, n, a) && Binds(merged, n, b);
      }
    }
    forall names | Needed(source, audited, explicit, names) ensures !Lacking(source, explicit, names[|names| - 1]) {
      NeededIsPresent(source, audited, explicit, merged, document, names);
    }
  }

  /** The script fails exactly for these reasons: a part is missing, an audited operation is missing or has a bad
      reference, an explicit entry or a path item is no object, one name is given two schemas, or references lead from a
      root to a name that is not given or has a bad reference. */
  lemma AssemblesIff(source: Object, audited: seq<(string, string)>, explicit: Object)
    ensures (exists document :: Assembled(source, audited, explicit, document)) <==> !Faulty(source, audited, explicit)
  {
    if document :| Assembled(source, audited, explicit, document) {
      AssembledHasNoFault(source, audited, explicit, document);
    }
    if !Faulty(source, audited, explicit) {
      var document := AssembledWithoutFault(source, audited, explicit);
    }
  }

  /** The schemas of the document are exactly those that the source and the explicit entries give. */
  lemma SchemasGiven(source: Object, audited: seq<(string, string)>, explicit: Object, document: Object,
                     name: string, schema: Json)
    requires Assembled(source, audited, explicit, document)
    ensures SchemaIn(document, name) == Some(schema) <==> Given(source, explicit, name, schema)
  {
    NoReadingFault(source, audited, explicit, document);
    var merged :| AssembledWith(source, audited, explicit, merged, document);
    PartsIff(source);
    MergesIff(source, explicit, merged);
    DocumentPaths(source, audited, explicit, merged, document);
    assert SchemaIn(document, name) == if name in merged then Some(merged[name]) else None;
    assert Binds(merged, name, schema) <==> Given(source, explicit, name, schema);
  }

  // ----- What else the document contains -----

  function Without(m: Object, keys: set<string>): Object {
    m - keys
  }

  /** The operation as it was, apart from its id. */
  predicate Renamed(before: Json, after: Json, id: string) {
    && before.Obj? && after.Obj? && At(after, "operationId") == Some(Str(id))
    && Without(after.fields, {"operationId"}) == Without(before.fields, {"operationId"})
  }

  /** The HTTP operations have their ids, and whatever else the path items hold is as it was. */
  ghost predicate PathsKept(before: Object, after: Object) {
    && after.Keys == before.Keys
    && forall p | p in before ::
         && before[p].Obj? && after[p].Obj? && after[p].fields.Keys == before[p].fields.Keys
         && forall m | m in before[p].fields ::
              if IsHttpMethod(m) then
                Renamed(before[p].fields[m], after[p].fields[m], m + "_" + Utf8.Hex(Utf8.Encode(p)))
              else after[p].fields[m] == before[p].fields[m]
  }

  /** A list of texts in ascending order. */
  ghost predicate AscendingTexts(list: Json) {
    && list.Arr? && (forall i | 0 <= i < |list.items| :: list.items[i].Str?)
    && forall i, j | 0 <= i < j < |list.items| :: Less(list.items[i].s, list.items[j].s)
  }

  /** The registry has version 1 and two sorted lists. */
  ghost predicate RegistryShaped(registry: Json) {
    && registry.Obj? && registry.fields.Keys == {"version", "roots", "schemas"}
    && registry.fields["version"] == Number(1.0)
    && AscendingTexts(registry.fields["roots"]) && AscendingTexts(registry.fields["schemas"])
  }

  lemma RegistryIsShaped(roots: set<string>, closure: set<string>)
    ensures RegistryShaped(Registry(roots, closure))
  {
    NamesAscend(roots);
    NamesAscend(closure);
  }

  lemma RebuiltKeeps(source: Object, parts: Parts, paths: Object, schemas: Object, registry: Json)
    requires PartsOf(source) == Ok(parts)
    ensures var document := Rebuilt(source, parts, paths, schemas, registry);
            && HasParts(document) && document["paths"].fields == paths
            && At(Obj(document), "x-maraclaw-contract") == Some(registry)
            && Without(document, {"paths", "components", "x-maraclaw-contract"})
               == Without(source, {"paths", "components", "x-maraclaw-contract"})
            && Without(document["components"].fields, {"schemas"}) == Without(source["components"].fields, {"schemas"})
  {
  }

  /** Outside ids, schemas and the registry the document is the source. */
  lemma DocumentKept(source: Object, audited: seq<(string, string)>, explicit: Object, document: Object)
    requires Assembled(source, audited, explicit, document)
    ensures HasParts(source) && HasParts(document)
    ensures var changed := {"paths", "components", "x-maraclaw-contract"};
            Without(document, changed) == Without(source, changed)
    ensures Without(document["components"].fields, {"schemas"}) == Without(source["components"].fields, {"schemas"})
    ensures PathsKept(source["paths"].fields, document["paths"].fields)
    ensures "x-maraclaw-contract" in document && RegistryShaped(document["x-maraclaw-contract"])
  {
    var merged :| AssembledWith(source, audited, explicit, merged, document);
    PartsIff(source);
    var parts := PartsOf(source).value;
    var roots := Roots(parts.paths, audited, explicit);
    RebuiltKeeps(source, parts, Identified(parts.paths), merged, Registry(roots, Closure(merged, roots)));
    PathsAreKept(parts.paths);
    RegistryIsShaped(roots, Closure(merged, roots));
  }

  lemma PathsAreKept(paths: Object)
    requires OperationsWellTyped(paths)
    ensures PathsKept(paths, Identified(paths))
  {
    assert forall m :: m in HTTP_METHODS <==> IsHttpMethod(m);
    forall p, m | p in paths && m in paths[p].fields && IsHttpMethod(m)
      ensures Renamed(paths[p].fields[m], Identified(paths)[p].fields[m], m + "_" + Utf8.Hex(Utf8.Encode(p)))
    {
      assert ItemWellTyped(paths[p]);
    }
  }

  lemma NamesAscend(names: set<string>)
    ensures AscendingTexts(Names(names))
  {
  }
}
