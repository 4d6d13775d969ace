/** References between schemas (engine/scripts/api_contract_document.py): what a value refers to,
    and which names a set of roots reaches. */
module References {
  import opened Results
  import opened Json

  datatype Error =
    | MissingKey(key: string)
    | NotAnObject
    | UnsupportedReference
    | ConflictingSchema(name: string)
    | UnresolvedSchema(name: string)

  const SCHEMA_PREFIX := "#/components/schemas/"

  predicate IsReference(value: Json) {
    value.Str? && SCHEMA_PREFIX <= value.s
  }

  function ReferenceName(value: Json): string
    requires IsReference(value)
  {
    value.s[|SCHEMA_PREFIX|..]
  }

  /** Every `$ref` inside `value`, at any depth, has the supported form. */
  ghost predicate WellFormed(value: Json)
    decreases value, 0
  {
    match value
    case Obj(fields) => forall k | k in fields :: WellFormedField(k, fields[k])
    case Arr(items) => forall i | 0 <= i < |items| :: WellFormed(items[i])
    case _ => true
  }

  ghost predicate WellFormedField(key: string, child: Json)
    decreases child, 1
  {
    if key == "$ref" then IsReference(child) else WellFormed(child)
  }

  /** The schema names `value` refers to. */
  ghost function NamesIn(value: Json): set<string>
    decreases value, 0
  {
    match value
    case Obj(fields) => set k, r | k in fields && r in NamesInField(k, fields[k]) :: r
    case Arr(items) => set i, r | 0 <= i < |items| && r in NamesIn(items[i]) :: r
    case _ => {}
  }

  ghost function NamesInField(key: string, child: Json): set<string>
    decreases child, 1
  {
    if key != "$ref" then NamesIn(child)
    else if IsReference(child) then {ReferenceName(child)}
    else {}
  }

  ghost function Outcome(value: Json): Result<set<string>, Error> {
    if WellFormed(value) then Ok(NamesIn(value)) else Err(UnsupportedReference)
  }

  // ----- What a value refers to, by walks into it -----

  /** One step into a value: to a field other than `$ref`, or to an item of a list. */
  datatype Hop = Field(key: string) | Item(index: nat)

  function Inside(value: Json, walk: seq<Hop>): Option<Json>
    decreases |walk|
  {
    if walk == [] then Some(value)
    else
      match (value, walk[0])
      case (Obj(fields), Field(key)) => if key in fields && key != "$ref" then Inside(fields[key], walk[1..]) else None
      case (Arr(items), Item(index)) => if index < |items| then Inside(items[index], walk[1..]) else None
      case _ => None
  }

  /** The walk ends at an object whose `$ref` is `target`. */
  predicate EndsAtRef(value: Json, walk: seq<Hop>, target: Json) {
    match Inside(value, walk)
    case Some(Obj(fields)) => "$ref" in fields && fields["$ref"] == target
    case _ => false
  }

  /** Somewhere in `value`, at whatever depth, some object has the `$ref` `target`. */
  ghost predicate HoldsRef(value: Json, target: Json) {
    exists walk :: EndsAtRef(value, walk, target)
  }

  ghost predicate Refers(value: Json, name: string) {
    HoldsRef(value, Str("#/components/schemas/" + name))
  }

  /** Some `$ref` in `value` is not a text, or not one that names a schema. */
  ghost predicate HoldsBadRef(value: Json) {
    exists target :: HoldsRef(value, target) && forall name :: target != Str("#/components/schemas/" + name)
  }

  lemma WalkOn(value: Json, hop: Hop, walk: seq<Hop>, target: Json)
    ensures EndsAtRef(value, [hop] + walk, target) <==>
            match (value, hop)
            case (Obj(fields), Field(key)) => key in fields && key != "$ref" && EndsAtRef(fields[key], walk, target)
            case (Arr(items), Item(index)) => index < |items| && EndsAtRef(items[index], walk, target)
            case _ => false
  {
    assert ([hop] + walk)[1..] == walk;
  }

  lemma ObjHoldsRef(fields: Object, target: Json)
    ensures HoldsRef(Obj(fields), target) <==>
            || ("$ref" in fields && fields["$ref"] == target)
            || exists k :: k in fields && k != "$ref" && HoldsRef(fields[k], target)
  {
    var value := Obj(fields);
    if walk: seq<Hop> :| EndsAtRef(value, walk, target) {
      if walk != [] {
        assert walk == [walk[0]] + walk[1..];
        WalkOn(value, walk[0], walk[1..], target);
        assert walk[0].key in fields && HoldsRef(fields[walk[0].key], target);
      }
    }
    if "$ref" in fields && fields["$ref"] == target {
      assert EndsAtRef(value, [], target);
    }
    if k :| k in fields && k != "$ref" && HoldsRef(fields[k], target) {
      var walk: seq<Hop> :| EndsAtRef(fields[k], walk, target);
      WalkOn(value, Field(k), walk, target);
    }
  }

  lemma ArrHoldsRef(items: seq<Json>, target: Json)
    ensures HoldsRef(Arr(items), target) <==> exists i :: 0 <= i < |items| && HoldsRef(items[i], target)
  {
    var value := Arr(items);
    if walk: seq<Hop> :| EndsAtRef(value, walk, target) {
      assert walk != [];
      assert walk == [walk[0]] + walk[1..];
      WalkOn(value, walk[0], walk[1..], target);
      assert HoldsRef(items[walk[0].index], target);
    }
    if i :| 0 <= i < |items| && HoldsRef(items[i], target) {
      var walk: seq<Hop> :| EndsAtRef(items[i], walk, target);
      WalkOn(value, Item(i), walk, target);
    }
  }

  lemma ScalarHoldsNoRef(value: Json, target: Json)
    requires !value.Obj? && !value.Arr?
    ensures !HoldsRef(value, target)
  {
  }

  lemma RefName(target: Json, name: string)
    ensures target == Str("#/components/schemas/" + name) <==> IsReference(target) && ReferenceName(target) == name
  {
    if IsReference(target) {
      assert target.s == SCHEMA_PREFIX + target.s[|SCHEMA_PREFIX|..];
    }
    assert (SCHEMA_PREFIX + name)[|SCHEMA_PREFIX|..] == name;
  }

  /** The collected names are those that some walk leads to. */
  lemma {:induction false} NamesAreReferred(value: Json, name: string)
    ensures name in NamesIn(value) <==> Refers(value, name)
    decreases value
  {
    var target := Str("#/components/schemas/" + name);
    match value
    case Obj(fields) =>
      forall k | k in fields ensures k != "$ref" ==> (name in NamesIn(fields[k]) <==> HoldsRef(fields[k], target)) {
        if k != "$ref" { NamesAreReferred(fields[k], name); }
      }
      if "$ref" in fields { RefName(fields["$ref"], name); }
      forall k | k in fields
        ensures name in NamesInField(k, fields[k]) <==>
                if k == "$ref" then fields[k] == target else HoldsRef(fields[k], target)
      {
      }
      ObjHoldsRef(fields, target);
      assert name in NamesIn(value) <==> exists k :: k in fields && name in NamesInField(k, fields[k]);
    case Arr(items) =>
      forall i | 0 <= i < |items| ensures name in NamesIn(items[i]) <==> HoldsRef(items[i], target) {
        NamesAreReferred(items[i], name);
      }
      ArrHoldsRef(items, target);
    case _ => ScalarHoldsNoRef(value, target);
  }

  lemma BadRefIff(target: Json)
    ensures IsReference(target) <==> exists name :: target == Str("#/components/schemas/" + name)
  {
    if IsReference(target) { RefName(target, ReferenceName(target)); }
    if name :| target == Str("#/components/schemas/" + name) { RefName(target, name); }
  }

  /** Only a `$ref` that names no schema makes a value ill formed. */
  lemma {:induction false} WellFormedIff(value: Json)
    ensures WellFormed(value) <==> forall target | HoldsRef(value, target) :: IsReference(target)
    decreases value
  {
    match value
    case Obj(fields) =>
      forall target { ObjHoldsRef(fields, target); }
      forall k | k in fields && k != "$ref"
        ensures WellFormed(fields[k]) <==> forall target | HoldsRef(fields[k], target) :: IsReference(target)
      {
        WellFormedIff(fields[k]);
      }
    case Arr(items) =>
      forall target { ArrHoldsRef(items, target); }
      forall i | 0 <= i < |items|
        ensures WellFormed(items[i]) <==> forall target | HoldsRef(items[i], target) :: IsReference(target)
      {
        WellFormedIff(items[i]);
      }
    case _ => forall target { ScalarHoldsNoRef(value, target); }
  }

  lemma IllFormedIff(value: Json)
    ensures HoldsBadRef(value) <==> !WellFormed(value)
  {
    WellFormedIff(value);
    forall target { BadRefIff(target); }
  }

  /** What the outcome says, without the recursion. */
  lemma OutcomeByWalks(value: Json)
    ensures Outcome(value).Ok? ==> forall name :: name in Outcome(value).value <==> Refers(value, name)
    ensures Outcome(value).Err? <==> HoldsBadRef(value)
  {
    IllFormedIff(value);
    forall name { NamesAreReferred(value, name); }
  }

  /** Returns the names of all references, wherever they are, and fails exactly when one of them names no schema. */
  method CollectReferences(value: Json) returns (r: Result<set<string>, Error>)
    ensures r == Outcome(value)
    ensures r.Ok? ==> forall name :: name in r.value <==> Refers(value, name)
    ensures r.Err? <==> HoldsBadRef(value)
    decreases value
  {
    OutcomeByWalks(value);
    match value
    case Obj(fields) =>
      var result: set<string> := {};
      var rest := fields.Keys;
      while rest != {}
        invariant rest <= fields.Keys
        invariant forall k | k in fields.Keys - rest :: WellFormedField(k, fields[k])
        invariant forall x :: x in result <==> exists k :: k in fields.Keys - rest && x in NamesInField(k, fields[k])
        decreases rest
      {
        ghost var seen := fields.Keys - rest;
        var key :| key in rest;
        var child := fields[key];
        if key == "$ref" {
          if !IsReference(child) {
            assert !WellFormedField(key, child);
            return Err(UnsupportedReference);
          }
          result := result + {ReferenceName(child)};
        } else {
          var nested := CollectReferences(child);
          if nested.Err? {
            assert !WellFormedField(key, child);
            return nested;
          }
          result := result + nested.value;
        }
        rest := rest - {key};
        assert fields.Keys - rest == seen + {key};
      }
      assert result == NamesIn(value);
      r := Ok(result);
    case Arr(items) =>
      var result: set<string> := {};
      for i := 0 to |items|
        invariant forall j | 0 <= j < i :: WellFormed(items[j])
        invariant forall x :: x in result <==> exists j :: 0 <= j < i && x in NamesIn(items[j])
      {
        var nested := CollectReferences(items[i]);
        if nested.Err? {
          return nested;
        }
        result := result + nested.value;
      }
      assert result == NamesIn(value);
      r := Ok(result);
    case _ =>
      r := Ok({});
  }
}
