/** The transitive closure of schema references (engine/scripts/api_contract_document.py, lines 62-71):
    reachability over a graph that may have cycles, and the worklist that computes it. */
module SchemaClosure {
  import opened Results
  import opened Json
  import opened References

  ghost predicate Edge(schemas: Object, a: string, b: string) {
    a in schemas && WellFormed(schemas[a]) && b in NamesIn(schemas[a])
  }

  ghost predicate Path(schemas: Object, roots: set<string>, p: seq<string>) {
    p != [] && p[0] in roots && forall i | 0 < i < |p| :: Edge(schemas, p[i - 1], p[i])
  }

  /** Some chain of references leads from a root to `name`. */
  ghost predicate Reachable(schemas: Object, roots: set<string>, name: string) {
    exists p :: Path(schemas, roots, p) && p[|p| - 1] == name
  }

  /** Everything the roots reach is present and has only well-formed references. */
  ghost predicate Resolvable(schemas: Object, roots: set<string>) {
    forall name | Reachable(schemas, roots, name) :: name in schemas && WellFormed(schemas[name])
  }

  ghost function Closure(schemas: Object, roots: set<string>): set<string> {
    set name | name in schemas && Reachable(schemas, roots, name)
  }

  ghost predicate ClosedUnder(schemas: Object, roots: set<string>, names: set<string>) {
    roots <= names && forall a, b | a in names && Edge(schemas, a, b) :: b in names
  }

  lemma RootReachable(schemas: Object, roots: set<string>, name: string)
    requires name in roots
    ensures Reachable(schemas, roots, name)
  {
    assert Path(schemas, roots, [name]);
  }

  lemma EdgeReachable(schemas: Object, roots: set<string>, a: string, b: string)
    requires Reachable(schemas, roots, a) && Edge(schemas, a, b)
    ensures Reachable(schemas, roots, b)
  {
    var p :| Path(schemas, roots, p) && p[|p| - 1] == a;
    var q := p + [b];
    assert Path(schemas, roots, q) && q[|q| - 1] == b;
  }

  lemma {:induction false} PathStaysInside(schemas: Object, roots: set<string>, names: set<string>, p: seq<string>)
    requires ClosedUnder(schemas, roots, names) && Path(schemas, roots, p)
    ensures p[|p| - 1] in names
    decreases |p|
  {
    if |p| > 1 {
      var init := p[..|p| - 1];
      assert Path(schemas, roots, init);
      PathStaysInside(schemas, roots, names, init);
      assert Edge(schemas, p[|p| - 2], p[|p| - 1]);
    }
  }

  /** The reachable names are the least set that holds the roots and every referenced name. */
  lemma ClosureIsLeast(schemas: Object, roots: set<string>, names: set<string>)
    requires Resolvable(schemas, roots)
    ensures ClosedUnder(schemas, roots, Closure(schemas, roots))
    ensures ClosedUnder(schemas, roots, names) ==> Closure(schemas, roots) <= names
  {
    forall name | name in roots ensures name in Closure(schemas, roots) {
      RootReachable(schemas, roots, name);
    }
    forall a, b | a in Closure(schemas, roots) && Edge(schemas, a, b) ensures b in Closure(schemas, roots) {
      EdgeReachable(schemas, roots, a, b);
    }
    if ClosedUnder(schemas, roots, names) {
      forall name | Reachable(schemas, roots, name) ensures name in names {
        var p :| Path(schemas, roots, p) && p[|p| - 1] == name;
        PathStaysInside(schemas, roots, names, p);
      }
    }
  }

  /** Any order a Python set may be listed in. */
  method SomeOrder(names: set<string>) returns (order: seq<string>)
    ensures forall x :: x in order <==> x in names
  {
    order := [];
    var rest := names;
    while rest != {}
      invariant rest <= names
      invariant forall x :: x in order <==> x in names - rest
    {
      var x :| x in rest;
      order := order + [x];
      rest := rest - {x};
    }
  }

  /** What the worklist knows: `closure` holds sound reachable names, and whatever it still owes is `pending`. */
  ghost predicate Progress(schemas: Object, roots: set<string>, closure: set<string>, pending: seq<string>) {
    && closure <= schemas.Keys
    && (forall name | name in closure :: Reachable(schemas, roots, name) && WellFormed(schemas[name]))
    && (forall name | name in pending :: Reachable(schemas, roots, name))
    && (forall name | name in roots :: name in closure || name in pending)
    && (forall a, b | a in closure && Edge(schemas, a, b) :: b in closure || b in pending)
  }

  lemma ProgressStep(schemas: Object, roots: set<string>, closure: set<string>, name: string,
                     pending: seq<string>, more: seq<string>)
    requires Progress(schemas, roots, closure, pending + [name])
    requires name in schemas && WellFormed(schemas[name])
    requires forall x :: x in more <==> x in NamesIn(schemas[name]) - (closure + {name})
    ensures Progress(schemas, roots, closure + {name}, pending + more)
  {
    assert name in pending + [name];
    forall b | b in more ensures Reachable(schemas, roots, b) {
      EdgeReachable(schemas, roots, name, b);
    }
    assert forall x | x in pending + [name] :: x in pending || x == name;
  }

  lemma ProgressSkip(schemas: Object, roots: set<string>, closure: set<string>, name: string, pending: seq<string>)
    requires Progress(schemas, roots, closure, pending + [name]) && name in closure
    ensures Progress(schemas, roots, closure, pending)
  {
  }

  lemma ProgressDone(schemas: Object, roots: set<string>, closure: set<string>)
    requires Progress(schemas, roots, closure, [])
    ensures closure == Closure(schemas, roots) && Resolvable(schemas, roots)
  {
    forall name | Reachable(schemas, roots, name) ensures name in closure {
      var p :| Path(schemas, roots, p) && p[|p| - 1] == name;
      PathStaysInside(schemas, roots, closure, p);
    }
  }

  lemma LastSplits(pending: seq<string>)
    requires pending != []
    ensures pending == pending[..|pending| - 1] + [pending[|pending| - 1]]
  {
  }

  lemma PendingReachable(schemas: Object, roots: set<string>, closure: set<string>, pending: seq<string>, name: string)
    requires Progress(schemas, roots, closure, pending) && name in pending
    ensures Reachable(schemas, roots, name)
  {
  }

  /** One reachable name that is missing or ill formed is enough to fail. */
  lemma FaultForbids(schemas: Object, roots: set<string>, name: string)
    requires Reachable(schemas, roots, name) && (name in schemas ==> !WellFormed(schemas[name]))
    ensures !Resolvable(schemas, roots)
  {
  }

  /** The names still owed after `name` has been added to the closure, in any order. */
  method ReferredBeyond(schema: Json, closure: set<string>) returns (r: Result<seq<string>, Error>)
    ensures r.Ok? <==> WellFormed(schema)
    ensures r.Ok? ==> forall x :: x in r.value <==> x in NamesIn(schema) - closure
    ensures r.Err? ==> r.error == UnsupportedReference
  {
    var referred := CollectReferences(schema);
    if referred.Err? {
      return Err(referred.error);
    }
    var more := SomeOrder(referred.value - closure);
    return Ok(more);
  }

  /** The worklist. It stops on every graph; it succeeds exactly when all the roots reach is resolvable, with
      exactly the reachable names, and otherwise it reports a name that is reachable and at fault. */
  method Close(schemas: Object, roots: set<string>) returns (r: Result<set<string>, Error>)
    ensures r.Ok? <==> Resolvable(schemas, roots)
    ensures r.Ok? ==> r.value == Closure(schemas, roots)
    ensures r.Err? ==>
      || (r.error.UnresolvedSchema? && Reachable(schemas, roots, r.error.name) && r.error.name !in schemas)
      || (&& r.error == UnsupportedReference
          && exists name :: name in schemas && Reachable(schemas, roots, name) && !WellFormed(schemas[name]))
  {
    var pending := SomeOrder(roots);
    var closure: set<string> := {};
    forall name | name in roots ensures Reachable(schemas, roots, name) {
      RootReachable(schemas, roots, name);
    }
    while pending != []
      invariant Progress(schemas, roots, closure, pending)
      decreases |schemas.Keys - closure|, |pending|
    {
      var name := pending[|pending| - 1];
      LastSplits(pending);
      PendingReachable(schemas, roots, closure, pending, name);
      pending := pending[..|pending| - 1];
      if name in closure {
        ProgressSkip(schemas, roots, closure, name, pending);
        continue;
      }
      if name !in schemas {
        FaultForbids(schemas, roots, name);
        return Err(UnresolvedSchema(name));
      }
      ghost var known := closure;
      closure := closure + {name};
      CardinalityDrops(schemas.Keys - closure, schemas.Keys - known);
      var more := ReferredBeyond(schemas[name], closure);
      if more.Err? {
        FaultForbids(schemas, roots, name);
        return Err(more.error);
      }
      ProgressStep(schemas, roots, known, name, pending, more.value);
      pending := pending + more.value;
    }
    ProgressDone(schemas, roots, closure);
    r := Ok(closure);
  }

  lemma CardinalityDrops(a: set<string>, b: set<string>)
    requires a < b
    ensures |a| < |b|
  {
    assert b == a + (b - a);
  }

  /** With every reference well formed, resolvability is only a matter of missing names. */
  lemma ResolvableIffNothingMissing(schemas: Object, roots: set<string>)
    requires forall name | name in schemas :: WellFormed(schemas[name])
    ensures Resolvable(schemas, roots) <==> !exists name :: Reachable(schemas, roots, name) && name !in schemas
  {
  }
}
