/** Operation ids (engine/scripts/api_contract_document.py, lines 57-61). */
module OperationIds {
  import opened Results
  import opened Json
  import References
  import Utf8

  const HTTP_METHODS: set<string> := {"get", "put", "post", "delete", "options", "head", "patch", "trace"}

  function OperationId(httpMethod: string, path: string): string {
    httpMethod + "_" + Utf8.Hex(Utf8.Encode(path))
  }

  /** An id determines its operation. */
  lemma OperationIdInjective(m1: string, p1: string, m2: string, p2: string)
    requires m1 in HTTP_METHODS && m2 in HTTP_METHODS
    requires OperationId(m1, p1) == OperationId(m2, p2)
    ensures m1 == m2 && p1 == p2
  {
    var h1, h2 := Utf8.Hex(Utf8.Encode(p1)), Utf8.Hex(Utf8.Encode(p2));
    var id := OperationId(m1, p1);
    assert '_' !in m1 && '_' !in m2;
    assert id[|m1|] == '_' && id[|m2|] == '_';
    assert forall i | 0 <= i < |m1| :: id[i] == m1[i] && id[i] != '_';
    assert forall i | 0 <= i < |m2| :: id[i] == m2[i] && id[i] != '_';
    assert |m1| == |m2|;
    assert m1 == id[..|m1|] && m2 == id[..|m2|];
    assert h1 == id[|m1| + 1..] && h2 == id[|m2| + 1..];
    Utf8.HexUtf8Injective(p1, p2);
  }

  ghost predicate OperationsWellTyped(paths: Object) {
    forall p | p in paths :: ItemWellTyped(paths[p])
  }

  ghost predicate ItemWellTyped(item: Json) {
    item.Obj? && forall m | m in item.fields && m in HTTP_METHODS :: item.fields[m].Obj?
  }

  ghost function IdentifiedOperation(path: string, httpMethod: string, operation: Json): Json
    requires httpMethod in HTTP_METHODS ==> operation.Obj?
  {
    if httpMethod in HTTP_METHODS then
      Obj(operation.fields["operationId" := Str(OperationId(httpMethod, path))])
    else
      operation
  }

  ghost function IdentifiedItem(path: string, item: Json): Json
    requires ItemWellTyped(item)
  {
    Obj(map m | m in item.fields :: IdentifiedOperation(path, m, item.fields[m]))
  }

  ghost function Identified(paths: Object): Object
    requires OperationsWellTyped(paths)
  {
    map p | p in paths :: IdentifiedItem(p, paths[p])
  }

  method AssignToItem(path: string, item: Json) returns (r: Result<Json, References.Error>)
    ensures r == if ItemWellTyped(item) then Ok(IdentifiedItem(path, item)) else Err(References.NotAnObject)
  {
    if !item.Obj? {
      return Err(References.NotAnObject);
    }
    var fields := item.fields;
    var rest := fields.Keys;
    while rest != {}
      invariant rest <= item.fields.Keys == fields.Keys
      invariant forall m | m in rest :: fields[m] == item.fields[m]
      invariant forall m | m in item.fields.Keys - rest ::
                  && (m in HTTP_METHODS ==> item.fields[m].Obj?)
                  && fields[m] == IdentifiedOperation(path, m, item.fields[m])
    {
      var m :| m in rest;
      if m in HTTP_METHODS {
        var operation := fields[m];
        if !operation.Obj? {
          assert !ItemWellTyped(item);
          return Err(References.NotAnObject);
        }
        fields := fields[m := Obj(operation.fields["operationId" := Str(OperationId(m, path))])];
      }
      rest := rest - {m};
    }
    assert fields == IdentifiedItem(path, item).fields;
    r := Ok(Obj(fields));
  }

  /** The loop over `paths.items()`, which writes the ids into the document's own operations. */
  method AssignOperationIds(source: Object) returns (r: Result<Object, References.Error>)
    ensures r == if OperationsWellTyped(source) then Ok(Identified(source)) else Err(References.NotAnObject)
  {
    var paths := source;
    var rest := source.Keys;
    while rest != {}
      invariant rest <= source.Keys == paths.Keys
      invariant forall p | p in rest :: paths[p] == source[p]
      invariant forall p | p in source.Keys - rest ::
                  ItemWellTyped(source[p]) && paths[p] == IdentifiedItem(p, source[p])
    {
      var p :| p in rest;
      var item := AssignToItem(p, paths[p]);
      if item.Err? {
        return Err(item.error);
      }
      paths := paths[p := item.value];
      rest := rest - {p};
    }
    assert paths == Identified(source);
    r := Ok(paths);
  }

  ghost predicate IsOperation(paths: Object, path: string, httpMethod: string) {
    path in paths && paths[path].Obj? && httpMethod in paths[path].fields && httpMethod in HTTP_METHODS
  }

  /** Every HTTP operation ends with a text id, and no two operations share one. */
  lemma OperationIdsUnique(source: Object, p1: string, m1: string, p2: string, m2: string)
    requires OperationsWellTyped(source)
    requires IsOperation(Identified(source), p1, m1) && IsOperation(Identified(source), p2, m2)
    requires (p1, m1) != (p2, m2)
    ensures var id1, id2 := Identified(source)[p1].fields[m1], Identified(source)[p2].fields[m2];
            && id1.Obj? && "operationId" in id1.fields && id1.fields["operationId"].Str?
            && id2.Obj? && "operationId" in id2.fields && id2.fields["operationId"].Str?
            && id1.fields["operationId"] != id2.fields["operationId"]
  {
    if OperationId(m1, p1) == OperationId(m2, p2) {
      OperationIdInjective(m1, p1, m2, p2);
    }
  }
}
