/** What holds of every document `assemble_contract` returns. */
module ContractProperties {
  import opened Results
  import opened Json
  import opened References
  import opened SchemaClosure
  import opened OperationIds
  import opened SortedStrings
  import opened ContractDocument

  /** The names listed in one field of the document's registry. */
  ghost predicate Listed(document: Object, field: string, name: string) {
    && "x-maraclaw-contract" in document && document["x-maraclaw-contract"].Obj?
    && var registry := document["x-maraclaw-contract"].fields;
    && field in registry && registry[field].Arr? && Str(name) in registry[field].items
  }

  lemma NamesListed(names: set<string>, name: string)
    ensures Str(name) in Names(names).items <==> name in names
  {
    var listing := Sorted(names);
    if name in names {
      var i :| 0 <= i < |listing| && listing[i] == name;
      assert Names(names).items[i] == Str(name);
    }
  }

  lemma ListedIsMember(source: Object, audited: seq<(string, string)>, explicit: Object, merged: Object,
                       document: Object, name: string)
    requires AssembledWith(source, audited, explicit, merged, document)
    ensures var roots := Roots(PartsOf(source).value.paths, audited, explicit);
            && (Listed(document, "roots", name) <==> name in roots)
            && (Listed(document, "schemas", name) <==> name in Closure(merged, roots))
  {
    var roots := Roots(PartsOf(source).value.paths, audited, explicit);
    NamesListed(roots, name);
    NamesListed(Closure(merged, roots), name);
  }

  /** The returned document is closed: every name that an audited operation or a listed schema of it refers to
      is itself listed, and every listed name is one of its schemas. */
  lemma DocumentClosed(source: Object, audited: seq<(string, string)>, explicit: Object, document: Object)
    requires Assembled(source, audited, explicit, document)
    ensures PartsOf(document).Ok? && ListingClosed(document, PartsOf(document).value.schemas)
  {
    var merged :| AssembledWith(source, audited, explicit, merged, document);
    var roots := Roots(PartsOf(source).value.paths, audited, explicit);
    assert PartsOf(document).value.schemas == merged;
    forall name {
      ListedIsMember(source, audited, explicit, merged, document, name);
    }
    ClosureListed(document, merged, roots);
  }

  /** Every listed schema is present and well formed, its references are listed, and so are the roots. */
  ghost predicate ListingClosed(document: Object, schemas: Object) {
    && (forall name | Listed(document, "schemas", name) :: name in schemas && WellFormed(schemas[name]))
    && (forall a, b | Listed(document, "schemas", a) && Edge(schemas, a, b) :: Listed(document, "schemas", b))
    && (forall name | Listed(document, "roots", name) :: Listed(document, "schemas", name))
  }

  lemma ClosureListed(document: Object, merged: Object, roots: set<string>)
    requires Resolvable(merged, roots)
    requires forall name :: Listed(document, "schemas", name) <==> name in Closure(merged, roots)
    requires forall name :: Listed(document, "roots", name) <==> name in roots
    ensures ListingClosed(document, merged)
  {
    ClosureIsLeast(merged, roots, {});
  }

  lemma NamesOfField(fields: Object, k: string)
    requires k in fields
    ensures NamesInField(k, fields[k]) <= NamesIn(Obj(fields))
  {
  }

  /** The names in the operation id that writing the new one replaces. */
  ghost function ReplacedNames(httpMethod: string, operation: Json): set<string> {
    if httpMethod in HTTP_METHODS && operation.Obj? && "operationId" in operation.fields then
      NamesIn(operation.fields["operationId"])
    else {}
  }

  /** Replacing one field by a text takes that field's references away, and no others. */
  lemma TextFieldSplits(fields: Object, key: string, text: string)
    requires WellFormed(Obj(fields)) && key != "$ref"
    ensures var after := fields[key := Str(text)];
            && WellFormed(Obj(after))
            && NamesIn(Obj(fields)) == NamesIn(Obj(after)) + if key in fields then NamesIn(fields[key]) else {}
  {
    var after := fields[key := Str(text)];
    forall k | k in after ensures WellFormedField(k, after[k]) {
      if k != key { assert WellFormedField(k, fields[k]); }
    }
    forall r | r in NamesIn(Obj(fields))
      ensures r in NamesIn(Obj(after)) || (key in fields && r in NamesIn(fields[key]))
    {
      var k :| k in fields && r in NamesInField(k, fields[k]);
      if k != key {
        NamesOfField(after, k);
      } else {
        assert NamesInField(key, fields[key]) == NamesIn(fields[key]);
      }
    }
    assert NamesInField(key, after[key]) == {};
    forall r | r in NamesIn(Obj(after)) ensures r in NamesIn(Obj(fields)) {
      var k :| k in after && r in NamesInField(k, after[k]);
      NamesOfField(fields, k);
    }
    if key in fields { NamesOfField(fields, key); }
  }

  /** Writing an id takes away the references of the id it replaces, and adds none. */
  lemma IdSplitsNames(path: string, httpMethod: string, operation: Json)
    requires httpMethod in HTTP_METHODS ==> operation.Obj?
    requires WellFormed(operation)
    ensures var after := IdentifiedOperation(path, httpMethod, operation);
            WellFormed(after) && NamesIn(operation) == NamesIn(after) + ReplacedNames(httpMethod, operation)
  {
    if httpMethod in HTTP_METHODS {
      assert operation == Obj(operation.fields);
      TextFieldSplits(operation.fields, "operationId", OperationId(httpMethod, path));
    }
  }

  /** The same for an operation found in the paths. */
  lemma OperationSplits(paths: Object, op: (string, string))
    requires OperationsWellTyped(paths) && OperationOutcome(paths, op.0, op.1).Ok?
    ensures OperationOutcome(Identified(paths), op.0, op.1).Ok?
    ensures OperationOutcome(paths, op.0, op.1).value ==
            OperationOutcome(Identified(paths), op.0, op.1).value + ReplacedNames(op.1, paths[op.0].fields[op.1])
  {
    assert ItemWellTyped(paths[op.0]);
    IdSplitsNames(op.0, op.1, paths[op.0].fields[op.1]);
  }

  /** After the ids have been written, an audited operation refers to roots only. */
  lemma AuditedNamesAreRoots(paths: Object, audited: seq<(string, string)>, op: (string, string))
    requires OperationsWellTyped(paths) && RootsOutcome(paths, audited).Ok? && op in audited
    ensures OperationOutcome(Identified(paths), op.0, op.1).Ok?
    ensures OperationOutcome(Identified(paths), op.0, op.1).value <= RootsOutcome(paths, audited).value
  {
    RootsHoldOperation(paths, audited, op);
    OperationSplits(paths, op);
  }

  lemma RootIsListed(source: Object, audited: seq<(string, string)>, explicit: Object, merged: Object,
                     document: Object, name: string)
    requires AssembledWith(source, audited, explicit, merged, document)
    requires name in RootsOutcome(PartsOf(source).value.paths, audited).value
    ensures Listed(document, "schemas", name)
  {
    RootReachable(merged, Roots(PartsOf(source).value.paths, audited, explicit), name);
    ListedIsMember(source, audited, explicit, merged, document, name);
  }

  lemma DocumentPaths(source: Object, audited: seq<(string, string)>, explicit: Object, merged: Object,
                      document: Object)
    requires AssembledWith(source, audited, explicit, merged, document)
    ensures PartsOf(document).Ok? && PartsOf(document).value.schemas == merged
    ensures PartsOf(document).value.paths == Identified(PartsOf(source).value.paths)
  {
  }

  /** Every reference an audited operation of the returned document holds leads to a listed schema. */
  lemma AuditedReferencesResolve(source: Object, audited: seq<(string, string)>, explicit: Object,
                                 document: Object, op: (string, string), name: string)
    requires Assembled(source, audited, explicit, document) && op in audited
    ensures PartsOf(document).Ok? && OperationOutcome(PartsOf(document).value.paths, op.0, op.1).Ok?
    ensures name in OperationOutcome(PartsOf(document).value.paths, op.0, op.1).value ==>
              Listed(document, "schemas", name)
  {
    var merged :| AssembledWith(source, audited, explicit, merged, document);
    var paths := PartsOf(source).value.paths;
    DocumentPaths(source, audited, explicit, merged, document);
    AuditedNamesAreRoots(paths, audited, op);
    if name in OperationOutcome(Identified(paths), op.0, op.1).value {
      RootIsListed(source, audited, explicit, merged, document, name);
    }
  }

  /** No schema of the source is changed or lost, and the document has no schema from elsewhere. */
  lemma SchemasPreserved(source: Object, audited: seq<(string, string)>, explicit: Object, document: Object)
    requires Assembled(source, audited, explicit, document)
    ensures PartsOf(source).Ok? && PartsOf(document).Ok?
    ensures var before, after := PartsOf(source).value.schemas, PartsOf(document).value.schemas;
            && (forall n | n in before :: n in after && after[n] == before[n])
            && (forall n | n in after ::
                  Binds(before, n, after[n]) || SomeEntryBinds(explicit, explicit.Keys, n, after[n]))
  {
    var merged :| AssembledWith(source, audited, explicit, merged, document);
    var before := PartsOf(source).value.schemas;
    assert PartsOf(document).value.schemas == merged;
    forall n | n in before ensures n in merged && merged[n] == before[n] {
      assert Binds(before, n, before[n]);
      assert Binds(merged, n, before[n]);
    }
    forall n | n in merged ensures Binds(merged, n, merged[n]) {
    }
  }

  /** Each explicit entry is present without its `$defs`, and each of its definitions under its own name. */
  lemma ExplicitSchemasPresent(source: Object, audited: seq<(string, string)>, explicit: Object, document: Object,
                               e: string, d: string)
    requires Assembled(source, audited, explicit, document) && e in explicit
    ensures WellShaped(explicit[e]) && PartsOf(document).Ok?
    ensures Binds(PartsOf(document).value.schemas, e, WithoutDefinitions(explicit[e]))
    ensures d in Definitions(explicit[e]) ==>
              Binds(PartsOf(document).value.schemas, d, Definitions(explicit[e])[d])
  {
    var merged :| AssembledWith(source, audited, explicit, merged, document);
    assert PartsOf(document).value.schemas == merged;
    assert EntryBinds(e, explicit[e], e, WithoutDefinitions(explicit[e]));
    if d in Definitions(explicit[e]) {
      assert EntryBinds(e, explicit[e], d, Definitions(explicit[e])[d]);
    }
  }

  // ----- Assembling an assembled document again -----

  /** The names that the audited operations refer to inside an operation id that is replaced. */
  ghost function LostNames(paths: Object, audited: seq<(string, string)>): set<string>
    requires RootsOutcome(paths, audited).Ok?
  {
    if audited == [] then {}
    else
      var last := audited[|audited| - 1];
      LostNames(paths, audited[..|audited| - 1]) + ReplacedNames(last.1, paths[last.0].fields[last.1])
  }

  /** Writing the ids takes the lost names from the roots, unless they are also referred to elsewhere. */
  lemma {:induction false} IdsSplitRoots(paths: Object, audited: seq<(string, string)>)
    requires OperationsWellTyped(paths) && RootsOutcome(paths, audited).Ok?
    ensures RootsOutcome(Identified(paths), audited).Ok?
    ensures RootsOutcome(paths, audited).value ==
            RootsOutcome(Identified(paths), audited).value + LostNames(paths, audited)
  {
    if audited != [] {
      IdsSplitRoots(paths, audited[..|audited| - 1]);
      OperationSplits(paths, audited[|audited| - 1]);
    }
  }

  lemma IdentifiedTwice(paths: Object)
    requires OperationsWellTyped(paths)
    ensures OperationsWellTyped(Identified(paths)) && Identified(Identified(paths)) == Identified(paths)
  {
    forall p | p in paths
      ensures ItemWellTyped(Identified(paths)[p])
      ensures IdentifiedItem(p, Identified(paths)[p]) == Identified(paths)[p]
    {
      var once := Identified(paths)[p];
      forall m | m in once.fields ensures IdentifiedOperation(p, m, once.fields[m]) == once.fields[m] {
        if m in HTTP_METHODS {
          var fields := once.fields[m].fields;
          assert fields["operationId" := fields["operationId"]] == fields;
        }
      }
    }
  }

  lemma MergedTwice(schemas: Object, explicit: Object, merged: Object)
    requires Merges(schemas, explicit, merged)
    ensures Merges(merged, explicit, merged)
  {
  }

  /** What a rebuilt document is made of, and what rebuilding it with the same parts gives. */
  lemma RebuiltParts(source: Object, parts: Parts, paths: Object, schemas: Object, registry: Json, other: Json)
    requires PartsOf(source) == Ok(parts)
    ensures var document := Rebuilt(source, parts, paths, schemas, registry);
            var again := Parts(paths, parts.components["schemas" := Obj(schemas)], schemas);
            && PartsOf(document) == Ok(again)
            && Rebuilt(document, again, paths, schemas, other) == document["x-maraclaw-contract" := other]
            && document["x-maraclaw-contract" := registry] == document
  {
    var document := Rebuilt(source, parts, paths, schemas, registry);
    var components := parts.components["schemas" := Obj(schemas)];
    assert components["schemas" := Obj(schemas)] == components;
    assert document["paths"] == Obj(paths) && document["components"] == Obj(components);
  }

  /** What a second assembly starts from. */
  lemma AgainParts(source: Object, audited: seq<(string, string)>, explicit: Object, merged: Object, document: Object)
    requires AssembledWith(source, audited, explicit, merged, document)
    ensures PartsOf(document).Ok?
    ensures var parts, again := PartsOf(source).value, PartsOf(document).value;
            && again.paths == Identified(parts.paths) && again.schemas == merged
            && OperationsWellTyped(again.paths) && Identified(again.paths) == again.paths
            && Merges(again.schemas, explicit, merged)
  {
    var parts := PartsOf(source).value;
    var roots := Roots(parts.paths, audited, explicit);
    var registry := Registry(roots, Closure(merged, roots));
    RebuiltParts(source, parts, Identified(parts.paths), merged, registry, registry);
    IdentifiedTwice(parts.paths);
    MergedTwice(parts.schemas, explicit, merged);
  }

  /** Assembling the returned document again returns it unchanged if and only if every name that the first run found in
      operation ids it replaced is a root for some other reason as well. */
  lemma AssembleIdempotentIff(source: Object, audited: seq<(string, string)>, explicit: Object, document: Object)
    requires Assembled(source, audited, explicit, document)
    ensures var paths := PartsOf(source).value.paths;
            && OperationsWellTyped(paths) && RootsOutcome(paths, audited).Ok?
            && RootsOutcome(Identified(paths), audited).Ok?
            && (Assembled(document, audited, explicit, document) <==>
                LostNames(paths, audited) <= Roots(Identified(paths), audited, explicit))
  {
    var merged :| AssembledWith(source, audited, explicit, merged, document);
    var paths := PartsOf(source).value.paths;
    IdsSplitRoots(paths, audited);
    assert Roots(paths, audited, explicit) ==
           Roots(Identified(paths), audited, explicit) + LostNames(paths, audited);
    AssembledAgainIffSameRoots(source, audited, explicit, merged, document);
  }

  lemma AssembledAgainIffSameRoots(source: Object, audited: seq<(string, string)>, explicit: Object, merged: Object,
                                   document: Object)
    requires AssembledWith(source, audited, explicit, merged, document)
    requires RootsOutcome(Identified(PartsOf(source).value.paths), audited).Ok?
    ensures var paths := PartsOf(source).value.paths;
            Assembled(document, audited, explicit, document) <==>
            Roots(Identified(paths), audited, explicit) == Roots(paths, audited, explicit)
  {
    var paths := PartsOf(source).value.paths;
    if Roots(Identified(paths), audited, explicit) == Roots(paths, audited, explicit) {
      SameRootsAssembleAgain(source, audited, explicit, merged, document);
    } else if Assembled(document, audited, explicit, document) {
      AssembledAgainSameRoots(source, audited, explicit, merged, document);
    }
  }

  lemma SameRootsAssembleAgain(source: Object, audited: seq<(string, string)>, explicit: Object, merged: Object,
                               document: Object)
    requires AssembledWith(source, audited, explicit, merged, document)
    requires var paths := PartsOf(source).value.paths;
             && RootsOutcome(Identified(paths), audited).Ok?
             && Roots(Identified(paths), audited, explicit) == Roots(paths, audited, explicit)
    ensures Assembled(document, audited, explicit, document)
  {
    AgainParts(source, audited, explicit, merged, document);
    var parts := PartsOf(source).value;
    var roots := Roots(parts.paths, audited, explicit);
    var registry := Registry(roots, Closure(merged, roots));
    RebuiltParts(source, parts, Identified(parts.paths), merged, registry, registry);
    assert AssembledWith(document, audited, explicit, merged, document);
  }

  lemma AssembledAgainSameRoots(source: Object, audited: seq<(string, string)>, explicit: Object, merged: Object,
                                document: Object)
    requires AssembledWith(source, audited, explicit, merged, document)
    requires Assembled(document, audited, explicit, document)
    ensures var paths := PartsOf(source).value.paths;
            && RootsOutcome(Identified(paths), audited).Ok?
            && Roots(Identified(paths), audited, explicit) == Roots(paths, audited, explicit)
  {
    AgainParts(source, audited, explicit, merged, document);
    var second :| AssembledWith(document, audited, explicit, second, document);
    var paths := PartsOf(source).value.paths;
    forall name
      ensures name in Roots(Identified(paths), audited, explicit) <==> name in Roots(paths, audited, explicit)
    {
      ListedIsMember(source, audited, explicit, merged, document, name);
      ListedIsMember(document, audited, explicit, second, document, name);
    }
  }

  // ----- An operation id that is not a text -----

  const REFERRING_ID := Obj(map["$ref" := Str(SCHEMA_PREFIX + "A")])
  const ID_OPERATION := Obj(map["operationId" := REFERRING_ID])
  const ID_PATHS: Object := map["/p" := Obj(map["get" := ID_OPERATION])]
  const ID_SCHEMAS: Object := map["A" := Null]
  const ID_AUDITED := [("/p", "get")]

  function IdSource(): Object {
    map["paths" := Obj(ID_PATHS), "components" := Obj(map["schemas" := Obj(ID_SCHEMAS)])]
  }

  lemma ReferringIdNames()
    ensures WellFormed(REFERRING_ID) && NamesIn(REFERRING_ID) == {"A"}
  {
    var fields := REFERRING_ID.fields;
    var value := Str(SCHEMA_PREFIX + "A");
    assert fields == map["$ref" := value] && IsReference(value);
    assert value.s[|SCHEMA_PREFIX|..] == "A";
    assert NamesInField("$ref", value) == {"A"};
    assert forall k | k in fields :: WellFormedField(k, fields[k]);
    NamesOfField(fields, "$ref");
    forall r | r in NamesIn(Obj(fields)) ensures r == "A" {
      var k :| k in fields && r in NamesInField(k, fields[k]);
      assert k == "$ref";
    }
    assert REFERRING_ID == Obj(fields);
  }

  lemma IdOperationNames()
    ensures WellFormed(ID_OPERATION) && NamesIn(ID_OPERATION) == {"A"}
    ensures var after := IdentifiedOperation("/p", "get", ID_OPERATION); WellFormed(after) && NamesIn(after) == {}
  {
    ReferringIdNames();
    assert WellFormedField("operationId", REFERRING_ID) && WellFormed(Obj(ID_OPERATION.fields));
    IdSplitsNames("/p", "get", ID_OPERATION);
    var after := IdentifiedOperation("/p", "get", ID_OPERATION);
    var id := Str(OperationId("get", "/p"));
    assert after.fields == map["operationId" := id] && NamesInField("operationId", id) == {};
    forall r ensures r !in NamesIn(Obj(after.fields)) {
      assert forall k | k in after.fields :: r !in NamesInField(k, after.fields[k]);
    }
    assert after == Obj(after.fields);
  }

  lemma RootsOfOne(paths: Object, op: (string, string))
    ensures RootsOutcome(paths, [op]) == OperationOutcome(paths, op.0, op.1)
  {
    assert [op][..0] == [] && RootsOutcome(paths, []) == Ok({});
    match OperationOutcome(paths, op.0, op.1)
    case Err(_) =>
    case Ok(names) => assert {} + names == names;
  }

  lemma IdPathsRoots()
    ensures OperationsWellTyped(ID_PATHS) && RootsOutcome(ID_PATHS, ID_AUDITED) == Ok({"A"})
    ensures RootsOutcome(Identified(ID_PATHS), ID_AUDITED) == Ok({})
  {
    IdOperationNames();
    assert OperationOutcome(ID_PATHS, "/p", "get") == Ok({"A"});
    assert Identified(ID_PATHS)["/p"].fields["get"] == IdentifiedOperation("/p", "get", ID_OPERATION);
    assert OperationOutcome(Identified(ID_PATHS), "/p", "get") == Ok({});
    RootsOfOne(ID_PATHS, ("/p", "get"));
    RootsOfOne(Identified(ID_PATHS), ("/p", "get"));
  }

  lemma IdSchemasResolve()
    ensures Resolvable(ID_SCHEMAS, {"A"})
  {
    forall name | Reachable(ID_SCHEMAS, {"A"}, name) ensures name in ID_SCHEMAS && WellFormed(ID_SCHEMAS[name]) {
      var p :| Path(ID_SCHEMAS, {"A"}, p) && p[|p| - 1] == name;
      PathStaysInside(ID_SCHEMAS, {"A"}, {"A"}, p);
    }
  }

  /** Whenever the script does not fail, there is a document. */
  lemma DocumentExists(source: Object, parts: Parts, audited: seq<(string, string)>, explicit: Object, merged: Object)
    returns (document: Object)
    requires PartsOf(source) == Ok(parts) && RootsOutcome(parts.paths, audited).Ok? && OperationsWellTyped(parts.paths)
    requires Merges(parts.schemas, explicit, merged) && Resolvable(merged, Roots(parts.paths, audited, explicit))
    ensures Assembled(source, audited, explicit, document)
  {
    var roots := Roots(parts.paths, audited, explicit);
    document := Rebuilt(source, parts, Identified(parts.paths), merged, Registry(roots, Closure(merged, roots)));
    assert AssembledWith(source, audited, explicit, merged, document);
  }

  lemma IdSourceParts()
    ensures PartsOf(IdSource()) == Ok(Parts(ID_PATHS, map["schemas" := Obj(ID_SCHEMAS)], ID_SCHEMAS))
  {
  }

  /** A document whose only reference is inside an operation id: the first run lists schema A, a second would not. */
  lemma ReferringIdIsLost() returns (document: Object)
    ensures Assembled(IdSource(), ID_AUDITED, map[], document)
    ensures !Assembled(document, ID_AUDITED, map[], document)
  {
    var none: Object := map[];
    IdPathsRoots();
    IdSchemasResolve();
    IdSourceParts();
    assert Roots(ID_PATHS, ID_AUDITED, none) == {"A"} && Merges(ID_SCHEMAS, none, ID_SCHEMAS);
    document := DocumentExists(IdSource(), Parts(ID_PATHS, map["schemas" := Obj(ID_SCHEMAS)], ID_SCHEMAS), ID_AUDITED,
                               none, ID_SCHEMAS);
    IdsSplitRoots(ID_PATHS, ID_AUDITED);
    AssembleIdempotentIff(IdSource(), ID_AUDITED, map[], document);
  }
}
